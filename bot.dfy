/**
 * The bot's two commands: `/subject [slot] [date]`, which resolves a lookup key from the
 * arguments, the message's time and the chat's configured group and replies with the
 * matching subjects, and `/config <group>`, which stores the chat's group.
 *
 * The messaging transport is not modelled: a handler returns the reply it would send, or
 * the error the error handler would report. Date parsing and the Kyiv summer-time rule are
 * library calls and are parameters.
 */
module Bot {
  import opened Outcome
  import opened Domain
  import opened Temporal
  import opened Codec
  import opened Storage

  // ---------------------------------------------------------------------------
  // parse_command_subject
  // ---------------------------------------------------------------------------

  /** The number of blanks in `s`. */
  function Blanks(s: string): nat {
    if s == [] then 0 else (if s[0] == ' ' then 1 else 0) + Blanks(s[1..])
  }

  /** `s.split(" ")`: the pieces between single blanks; there is always at least one. */
  function Split(s: string): (r: seq<string>)
    ensures |r| == Blanks(s) + 1
    ensures forall i :: 0 <= i < |r| ==> ' ' !in r[i]
  {
    if s == [] then [""]
    else
      var rest := Split(s[1..]);
      if s[0] == ' ' then [""] + rest
      else
        assert forall i :: 1 <= i < |rest| ==> rest[1..][i - 1] == rest[i];
        [[s[0]] + rest[0]] + rest[1..]
  }

  /** The pieces put back together with one blank between neighbours. */
  function Join(pieces: seq<string>): string
    requires |pieces| >= 1
  {
    if |pieces| == 1 then pieces[0] else pieces[0] + " " + Join(pieces[1..])
  }

  /** Splitting loses nothing: joining the pieces gives the text back. */
  lemma {:induction false} SplitJoin(s: string)
    ensures Join(Split(s)) == s
  {
    if s != [] {
      var rest := Split(s[1..]);
      SplitJoin(s[1..]);
      if s[0] == ' ' {
        assert ([""] + rest)[1..] == rest;
        assert s == [' '] + s[1..];
      } else if |rest| == 1 {
        assert s == [s[0]] + s[1..];
      } else {
        var r := [[s[0]] + rest[0]] + rest[1..];
        assert r[1..] == rest[1..];
        assert s == [s[0]] + s[1..];
      }
    }
  }

  /** A blank-free word glued to the front of a text joins the text's first piece. */
  lemma {:induction false} SplitAfterWord(w: string, t: string)
    requires ' ' !in w
    ensures Split(w + t) == [w + Split(t)[0]] + Split(t)[1..]
  {
    if w != [] {
      assert (w + t)[1..] == w[1..] + t;
      assert w[0] in w;
      assert forall c :: c in w[1..] ==> c in w;
      SplitAfterWord(w[1..], t);
      assert [w[0]] + (w[1..] + Split(t)[0]) == w + Split(t)[0];
    } else {
      assert w + t == t && w + Split(t)[0] == Split(t)[0];
      assert Split(t) == [Split(t)[0]] + Split(t)[1..];
    }
  }

  /** Blank-free pieces split back out of their join. */
  lemma {:induction false} JoinSplit(pieces: seq<string>)
    requires |pieces| >= 1
    requires forall i :: 0 <= i < |pieces| ==> ' ' !in pieces[i]
    ensures Split(Join(pieces)) == pieces
  {
    if |pieces| == 1 {
      SplitAfterWord(pieces[0], "");
      assert pieces[0] + "" == pieces[0];
    } else {
      var tail := Join(pieces[1..]);
      JoinSplit(pieces[1..]);
      assert pieces[0] + " " + tail == pieces[0] + (" " + tail);
      SplitAfterWord(pieces[0], " " + tail);
      assert (" " + tail)[1..] == tail;
      assert Split(" " + tail) == [""] + pieces[1..];
      assert pieces[0] + "" == pieces[0];
    }
  }

  /** The arguments of `/subject`: an optional slot token and an optional date text. */
  datatype SubjectArgs = SubjectArgs(slot: Option<string>, date: Option<string>)

  /** The message of the custom parse error. */
  const TooManyArguments: string := "Only 2 arguments allowed!"

  /**
   * `parse_command_subject`: one piece is a slot; two pieces are a slot and a date, where
   * a `_` slot means "no slot"; three or more pieces are an error. Splitting never gives
   * zero pieces, so "no arguments" is never produced.
   */
  function ParseCommandSubject(s: string): (r: Result<SubjectArgs, string>)
    ensures r.Err? <==> Blanks(s) >= 2
    ensures r.Err? ==> r.error == TooManyArguments
    ensures r.Ok? ==> r.value.slot.Some? || r.value.date.Some?
  {
    var args := Split(s);
    if |args| == 1 then Ok(SubjectArgs(Some(args[0]), None))
    else if |args| == 2 then
      if args[0] == "_" then Ok(SubjectArgs(None, Some(args[1])))
      else Ok(SubjectArgs(Some(args[0]), Some(args[1])))
    else Err(TooManyArguments)
  }

  /** The command text that stands for some arguments. */
  function ArgsText(a: SubjectArgs): string {
    match a
    case SubjectArgs(Some(x), None) => x
    case SubjectArgs(None, Some(d)) => "_ " + d
    case SubjectArgs(Some(x), Some(d)) => x + " " + d
    case SubjectArgs(None, None) => ""
  }

  /** Arguments that some command text produces: blank-free, and never an explicit `_` slot beside a date. */
  predicate Expressible(a: SubjectArgs) {
    && (a.slot.Some? || a.date.Some?)
    && (a.slot.Some? ==> ' ' !in a.slot.value)
    && (a.date.Some? ==> ' ' !in a.date.value)
    && (a.slot.Some? && a.date.Some? ==> a.slot.value != "_")
  }

  /** Parsed arguments give the text back, and they are always expressible. */
  lemma ParsedArgsRebuildText(s: string)
    requires ParseCommandSubject(s).Ok?
    ensures ArgsText(ParseCommandSubject(s).value) == s
    ensures Expressible(ParseCommandSubject(s).value)
  {
    SplitJoin(s);
    var args := Split(s);
    if |args| == 2 {
      assert Join(args) == args[0] + " " + Join(args[1..]);
      assert args[1..] == [args[1]];
    }
  }

  /** Expressible arguments survive the trip through their text. */
  lemma ArgsRoundTrip(a: SubjectArgs)
    requires Expressible(a)
    ensures ParseCommandSubject(ArgsText(a)) == Ok(a)
  {
    match a
    case SubjectArgs(Some(x), None) =>
      JoinSplit([x]);
    case SubjectArgs(None, Some(d)) =>
      JoinSplit(["_", d]);
      assert Join(["_", d]) == "_ " + d by {
        assert ["_", d][1..] == [d];
      }
    case SubjectArgs(Some(x), Some(d)) =>
      JoinSplit([x, d]);
      assert Join([x, d]) == x + " " + d by {
        assert [x, d][1..] == [d];
      }
  }

  /** An empty argument text is one empty slot token, never "no arguments". */
  lemma EmptyArgumentsAreOneToken()
    ensures ParseCommandSubject("") == Ok(SubjectArgs(Some(""), None))
  {
  }

  /** `_` in the slot position means "no slot"; any other first piece is the slot. */
  lemma TwoPieceExamples(d: string)
    requires ' ' !in d
    ensures ParseCommandSubject("_ " + d) == Ok(SubjectArgs(None, Some(d)))
    ensures ParseCommandSubject("3 " + d) == Ok(SubjectArgs(Some("3"), Some(d)))
  {
    ArgsRoundTrip(SubjectArgs(None, Some(d)));
    ArgsRoundTrip(SubjectArgs(Some("3"), Some(d)));
    assert "3" + " " + d == "3 " + d by {
      assert "3" + " " == "3 ";
    }
  }

  /**
   * A bare `/subject` hands the parser the empty text, which is one empty slot token; that
   * token is no slot, so the command is always answered with `InvalidSlot`, and the arm
   * meant for "no arguments" (slot and date from the message's time) is never taken.
   */
  lemma BareSubjectIsInvalidSlot(m: Message, parseDate: string -> Option<CivilDate>,
                                 summer: CivilDate -> bool, lookup: Lookup)
    ensures ParseCommandSubject("").Ok?
    ensures ResolveKey(m, ParseCommandSubject("").value, parseDate, summer, lookup) == Err(InvalidSlot(m.chat, ""))
  {
    EmptyArgumentsAreOneToken();
  }

  /**
   * `parse_command_subject` as its first arm intends it: no argument text means no slot and
   * no date; any other text is parsed as before.
   */
  function ParseCommandSubjectIntended(s: string): (r: Result<SubjectArgs, string>)
    ensures r.Err? <==> Blanks(s) >= 2
    ensures r.Err? ==> r.error == TooManyArguments
    ensures r == Ok(SubjectArgs(None, None)) <==> s == ""
  {
    if s == "" then Ok(SubjectArgs(None, None)) else ParseCommandSubject(s)
  }

  /**
   * Under the intended parse every argument pair that some non-empty text stands for, and
   * the empty pair, survive the trip through their text.
   */
  lemma IntendedArgsRoundTrip(a: SubjectArgs)
    requires a == SubjectArgs(None, None) || (Expressible(a) && ArgsText(a) != "")
    ensures ParseCommandSubjectIntended(ArgsText(a)) == Ok(a)
  {
    if a != SubjectArgs(None, None) {
      ArgsRoundTrip(a);
    }
  }

  /**
   * Under the intended parse a bare `/subject` takes its slot, day and parity from the
   * message's own time in Kyiv.
   */
  lemma BareSubjectUsesMessageTime(m: Message, parseDate: string -> Option<CivilDate>,
                                   summer: CivilDate -> bool, g: Group)
    requires DayAt(m.date).Ok?
    ensures ParseCommandSubjectIntended("") == Ok(SubjectArgs(None, None))
    ensures ResolveKey(m, ParseCommandSubjectIntended("").value, parseDate, summer, Found(g))
            == Ok(Key(DayAt(m.date).value, ParityAt(m.date), SlotOfTime(m.date.kyiv.secondOfDay), g))
  {
  }

  /** Blanks add up over a concatenation. */
  lemma {:induction false} BlanksAppend(a: string, b: string)
    ensures Blanks(a + b) == Blanks(a) + Blanks(b)
  {
    if a != [] {
      assert (a + b)[1..] == a[1..] + b;
      BlanksAppend(a[1..], b);
    } else {
      assert a + b == b;
    }
  }

  /**
   * A doubled blank makes an empty third piece, which is rejected like a third argument,
   * whatever surrounds it.
   */
  lemma DoubledBlankRejected(a: string, b: string, c: string)
    ensures ParseCommandSubject(a + "  " + b) == Err(TooManyArguments)
    ensures ParseCommandSubject(a + " " + b + " " + c) == Err(TooManyArguments)
  {
    assert Blanks(" ") == 1;
    BlanksAppend(a, "  ");
    BlanksAppend(" ", " ");
    BlanksAppend(a + "  ", b);
    BlanksAppend(a, " ");
    BlanksAppend(a + " ", b);
    BlanksAppend(a + " " + b, " ");
    BlanksAppend(a + " " + b + " ", c);
  }

  // ---------------------------------------------------------------------------
  // The /subject resolution chain
  // ---------------------------------------------------------------------------

  /** The handler's errors; `Unexpected` is the source's catch-all storage error. */
  datatype BotError =
    | InvalidGroup(chat: int, value: string)
    | InvalidDate(chat: int, value: string)
    | InvalidSlot(chat: int, value: string)
    | InvalidWeekday(chat: int, value: string)
    | NoGroupConfigured(chat: int)
    | Unexpected(chat: int)

  /** An incoming message: its chat and the instant it was sent. */
  datatype Message = Message(chat: int, date: Instant)

  /** The queries a handler issues; a set of them names the ones that fail. */
  datatype Query = UserLookup | UserInsert | UserUpdate | SubjectLookup

  /** A given slot token overrides the slot of the message's time. */
  function ResolveSlot(m: Message, slotArg: Option<string>): Result<Slot, BotError> {
    match slotArg
    case None => Ok(SlotOfTime(m.date.kyiv.secondOfDay))
    case Some(v) =>
      match ParseSlot(v)
      case Ok(x) => Ok(x)
      case Err(_) => Err(InvalidSlot(m.chat, v))
  }

  /** A given date is anchored at noon UTC; without one, the message's instant is used. */
  function ResolveInstant(m: Message, dateArg: Option<string>, parseDate: string -> Option<CivilDate>,
                          summer: CivilDate -> bool): Result<Instant, BotError>
  {
    match dateArg
    case None => Ok(m.date)
    case Some(v) =>
      match parseDate(v)
      case None => Err(InvalidDate(m.chat, v))
      case Some(d) => Ok(AtNoonUtc(d, summer(d)))
  }

  /**
   * The teaching day of the resolved instant, read in Kyiv. The rejection names the
   * instant's weekday in UTC, which is the weekday the source formats.
   */
  function ResolveDay(m: Message, t: Instant): Result<Day, BotError> {
    match DayAt(t)
    case Ok(d) => Ok(d)
    case Err(_) => Err(InvalidWeekday(m.chat, WeekdayName(t.utcWeekday)))
  }

  /** The chat's group: a missing row and any other failure are told apart. */
  function ResolveGroup(m: Message, lookup: Lookup): Result<Group, BotError> {
    match lookup
    case Found(g) => Ok(g)
    case RowNotFound => Err(NoGroupConfigured(m.chat))
    case Failed => Err(Unexpected(m.chat))
  }

  /** Slot, then instant, then day (and parity), then group; the first failure is reported. */
  function ResolveKey(m: Message, args: SubjectArgs, parseDate: string -> Option<CivilDate>,
                      summer: CivilDate -> bool, lookup: Lookup): (r: Result<Key, BotError>)
    ensures r.Ok? ==> r.value.repeat != Both
    ensures r.Err? ==> r.error.chat == m.chat
  {
    var slot :- ResolveSlot(m, args.slot);
    var t :- ResolveInstant(m, args.date, parseDate, summer);
    var day :- ResolveDay(m, t);
    var group :- ResolveGroup(m, lookup);
    Ok(Key(day, ParityAt(t), slot, group))
  }

  /**
   * A resolved key takes its slot from the token when one is given, and otherwise from the
   * message's time, also when a date is given; its group is the chat's.
   */
  lemma SlotPrecedence(m: Message, args: SubjectArgs, parseDate: string -> Option<CivilDate>,
                       summer: CivilDate -> bool, lookup: Lookup)
    requires ResolveKey(m, args, parseDate, summer, lookup).Ok?
    ensures var k := ResolveKey(m, args, parseDate, summer, lookup).value;
            && (args.slot.Some? ==> ParseSlot(args.slot.value) == Ok(k.slot))
            && (args.slot.None? ==> k.slot == SlotOfTime(m.date.kyiv.secondOfDay))
            && lookup == Found(k.group)
  {
  }

  /**
   * A given date fixes the day and the parity by its own weekday and day of the month,
   * whatever the summer-time rule says; without a date they are the message's, in Kyiv.
   */
  lemma DateAnchoring(m: Message, args: SubjectArgs, parseDate: string -> Option<CivilDate>,
                      summer: CivilDate -> bool, lookup: Lookup)
    requires ResolveKey(m, args, parseDate, summer, lookup).Ok?
    ensures var k := ResolveKey(m, args, parseDate, summer, lookup).value;
            && (args.date.Some? ==>
                  parseDate(args.date.value).Some?
                  && AsWeekday(k.day) == parseDate(args.date.value).value.weekday
                  && k.repeat == ParityOf(parseDate(args.date.value).value.dayOfMonth))
            && (args.date.None? ==>
                  AsWeekday(k.day) == m.date.kyiv.date.weekday
                  && k.repeat == ParityOf(m.date.kyiv.date.dayOfMonth))
  {
  }

  /** With a date given, the summer-time rule cannot change the outcome. */
  lemma SummerTimeIrrelevant(m: Message, args: SubjectArgs, parseDate: string -> Option<CivilDate>,
                             summer1: CivilDate -> bool, summer2: CivilDate -> bool, lookup: Lookup)
    requires args.date.Some?
    ensures ResolveKey(m, args, parseDate, summer1, lookup) == ResolveKey(m, args, parseDate, summer2, lookup)
  {
    match parseDate(args.date.value)
    case None =>
    case Some(d) =>
      var t1, t2 := AtNoonUtc(d, summer1(d)), AtNoonUtc(d, summer2(d));
      assert ResolveDay(m, t1) == ResolveDay(m, t2);
      assert ParityAt(t1) == ParityAt(t2);
  }

  /**
   * The order errors are classified in: a bad slot token wins over everything, then an
   * unreadable date, then a weekend, then the group lookup.
   */
  lemma ErrorOrder(m: Message, args: SubjectArgs, parseDate: string -> Option<CivilDate>,
                   summer: CivilDate -> bool, lookup: Lookup)
    ensures var r := ResolveKey(m, args, parseDate, summer, lookup);
            && (args.slot.Some? && ParseSlot(args.slot.value).Err? ==>
                  r == Err(InvalidSlot(m.chat, args.slot.value)))
            && (ResolveSlot(m, args.slot).Ok? && args.date.Some? && parseDate(args.date.value).None? ==>
                  r == Err(InvalidDate(m.chat, args.date.value)))
            && (r.Err? && r.error.InvalidWeekday? <==>
                  ResolveSlot(m, args.slot).Ok?
                  && ResolveInstant(m, args.date, parseDate, summer).Ok?
                  && DayAt(ResolveInstant(m, args.date, parseDate, summer).value).Err?)
            && (r == Err(NoGroupConfigured(m.chat)) <==>
                  ResolveSlot(m, args.slot).Ok?
                  && ResolveInstant(m, args.date, parseDate, summer).Ok?
                  && DayAt(ResolveInstant(m, args.date, parseDate, summer).value).Ok?
                  && lookup == RowNotFound)
            && (r == Err(Unexpected(m.chat)) <==>
                  ResolveSlot(m, args.slot).Ok?
                  && ResolveInstant(m, args.date, parseDate, summer).Ok?
                  && DayAt(ResolveInstant(m, args.date, parseDate, summer).value).Ok?
                  && lookup == Failed)
  {
  }

  /** A weekend date is rejected with its own weekday, before the group is looked at. */
  lemma WeekendDateRejected(m: Message, v: string, parseDate: string -> Option<CivilDate>,
                            summer: CivilDate -> bool, lookup: Lookup)
    requires parseDate(v).Some? && parseDate(v).value.weekday == Saturday
    ensures ResolveKey(m, SubjectArgs(None, Some(v)), parseDate, summer, lookup)
            == Err(InvalidWeekday(m.chat, "Sat"))
  {
  }

  /**
   * A message sent on Friday at 22:30 UTC is already Saturday 01:30 in Kyiv (summer time,
   * UTC+3): it is rejected as a weekend, and the rejection names Friday.
   */
  lemma WeekdayMessageNamesUtcDay(chat: int, parseDate: string -> Option<CivilDate>,
                                  summer: CivilDate -> bool, lookup: Lookup)
    ensures var m := Message(chat, Instant(Friday, LocalDateTime(CivilDate(6, Saturday), 90 * 60)));
            ResolveKey(m, SubjectArgs(Some("1"), None), parseDate, summer, lookup)
            == Err(InvalidWeekday(chat, "Fri"))
  {
  }

  // ---------------------------------------------------------------------------
  // The reply
  // ---------------------------------------------------------------------------

  /** The reply to an empty result. */
  const NotFoundText: string := "No such subject is found."

  /** A message to send; `markdown` says whether it is sent in Markdown mode. */
  datatype Reply = Reply(text: string, markdown: bool)

  /** The keycap emoji of a slot's number. */
  function SlotEmoji(x: Slot): string {
    match x
    case I => "1\U{FE0F}\U{20E3}"
    case II => "2\U{FE0F}\U{20E3}"
    case III => "3\U{FE0F}\U{20E3}"
    case IV => "4\U{FE0F}\U{20E3}"
  }

  /** One subject as shown: the slot's emoji, a blank, the title (no meetings are listed). */
  function SubjectLine(x: Slot, title: string): (line: string)
    ensures line == SlotEmoji(x) + " " + title
    ensures '\n' !in title ==> '\n' !in line
  {
    SlotEmoji(x) + " " + title
  }

  /** The listing: each subject's line followed by a newline, in order. */
  function Listing(x: Slot, subjects: seq<Subject>): string {
    if subjects == [] then ""
    else Listing(x, subjects[..|subjects| - 1]) + SubjectLine(x, subjects[|subjects| - 1].title) + "\n"
  }

  /** The number of newlines in a text. */
  function Newlines(s: string): nat {
    if s == [] then 0 else Newlines(s[..|s| - 1]) + (if s[|s| - 1] == '\n' then 1 else 0)
  }

  lemma {:induction false} NewlinesAppend(a: string, b: string)
    ensures Newlines(a + b) == Newlines(a) + Newlines(b)
  {
    if b != [] {
      assert (a + b)[..|a + b| - 1] == a + b[..|b| - 1];
      NewlinesAppend(a, b[..|b| - 1]);
    } else {
      assert a + b == a;
    }
  }

  lemma {:induction false} NoNewlines(s: string)
    requires '\n' !in s
    ensures Newlines(s) == 0
  {
    if s != [] {
      assert forall c :: c in s[..|s| - 1] ==> c in s;
      NoNewlines(s[..|s| - 1]);
    }
  }

  /** With newline-free titles the listing has exactly one line per subject. */
  lemma {:induction false} ListingHasOneLinePerSubject(x: Slot, subjects: seq<Subject>)
    requires forall i :: 0 <= i < |subjects| ==> '\n' !in subjects[i].title
    ensures Newlines(Listing(x, subjects)) == |subjects|
  {
    if subjects != [] {
      var init, last := subjects[..|subjects| - 1], subjects[|subjects| - 1];
      ListingHasOneLinePerSubject(x, init);
      NoNewlines(SubjectLine(x, last.title));
      NewlinesAppend(Listing(x, init), SubjectLine(x, last.title));
      NewlinesAppend(Listing(x, init) + SubjectLine(x, last.title), "\n");
    }
  }

  /** Listing one more subject appends its line after the others: the order is kept. */
  lemma ListingSnoc(x: Slot, s: seq<Subject>, last: Subject)
    ensures Listing(x, s + [last]) == Listing(x, s) + SubjectLine(x, last.title) + "\n"
  {
    assert (s + [last])[..|s + [last]| - 1] == s;
  }

  /** Builds the listing by appending one line per subject. */
  method BuildListing(x: Slot, subjects: seq<Subject>) returns (message: string)
    ensures message == Listing(x, subjects)
  {
    message := "";
    for i := 0 to |subjects|
      invariant message == Listing(x, subjects[..i])
    {
      assert subjects[..i + 1] == subjects[..i] + [subjects[i]];
      ListingSnoc(x, subjects[..i], subjects[i]);
      message := message + SubjectLine(x, subjects[i].title) + "\n";
    }
    assert subjects[..|subjects|] == subjects;
  }

  /** The reply to a list of subjects: the fixed notice when empty, else the Markdown listing. */
  function ReplyFor(x: Slot, subjects: seq<Subject>): Reply {
    if subjects == [] then Reply(NotFoundText, false) else Reply(Listing(x, subjects), true)
  }

  /** The subjects the lookup returns for a key, as mapped rows. */
  function FoundSubjects(subjects: seq<SubjectRow>, schedule: seq<ScheduleRow>, k: Key): (r: seq<Subject>)
    ensures |r| == |SelectSubjects(subjects, schedule, k)|
    ensures forall i :: 0 <= i < |r| ==> r[i] == SubjectOfRow(SelectSubjects(subjects, schedule, k)[i])
  {
    var rows := SelectSubjects(subjects, schedule, k);
    seq(|rows|, i requires 0 <= i < |rows| => SubjectOfRow(rows[i]))
  }

  /** The whole outcome of `/subject` against the tables and the failing queries. */
  function SubjectOutcome(users: seq<UserRow>, subjects: seq<SubjectRow>, schedule: seq<ScheduleRow>,
                          m: Message, args: SubjectArgs, parseDate: string -> Option<CivilDate>,
                          summer: CivilDate -> bool, faults: set<Query>): Result<Reply, BotError>
    requires GangsValid(users)
  {
    var lookup := if UserLookup in faults then Failed else GroupOf(users, m.chat);
    var k :- ResolveKey(m, args, parseDate, summer, lookup);
    if SubjectLookup in faults then Err(Unexpected(m.chat))
    else Ok(ReplyFor(k.slot, FoundSubjects(subjects, schedule, k)))
  }

  /**
   * A successful `/subject` replies with the fixed notice exactly when no subject of the
   * chat's group is scheduled for the key, and otherwise with one line per found subject.
   */
  lemma SubjectReply(users: seq<UserRow>, subjects: seq<SubjectRow>, schedule: seq<ScheduleRow>,
                     m: Message, args: SubjectArgs, parseDate: string -> Option<CivilDate>,
                     summer: CivilDate -> bool, faults: set<Query>)
    requires GangsValid(users)
    requires SubjectOutcome(users, subjects, schedule, m, args, parseDate, summer, faults).Ok?
    ensures var lookup := if UserLookup in faults then Failed else GroupOf(users, m.chat);
            var k := ResolveKey(m, args, parseDate, summer, lookup).value;
            var reply := SubjectOutcome(users, subjects, schedule, m, args, parseDate, summer, faults).value;
            && (reply == Reply(NotFoundText, false) <==>
                  forall row :: row in subjects ==> !Wanted(schedule, k, row))
            && (reply.markdown ==> reply.text == Listing(k.slot, FoundSubjects(subjects, schedule, k)))
  {
    var lookup := if UserLookup in faults then Failed else GroupOf(users, m.chat);
    var k := ResolveKey(m, args, parseDate, summer, lookup).value;
    var rows := SelectSubjects(subjects, schedule, k);
    if rows != [] {
      assert rows[0] in rows;
      assert FoundSubjects(subjects, schedule, k) != [];
    }
  }

  /**
   * `/subject`: resolves the key step by step, queries the tables and builds the reply;
   * the first failing step's error is returned.
   */
  method HandleSubject(db: Database, m: Message, args: SubjectArgs, parseDate: string -> Option<CivilDate>,
                       summer: CivilDate -> bool, faults: set<Query>) returns (r: Result<Reply, BotError>)
    requires db.Valid()
    ensures r == SubjectOutcome(db.users, db.subjects, db.schedule, m, args, parseDate, summer, faults)
  {
    var slot: Slot;
    if args.slot.Some? {
      var parsed := ParseSlot(args.slot.value);
      if parsed.Err? {
        return Err(InvalidSlot(m.chat, args.slot.value));
      }
      slot := parsed.value;
    } else {
      slot := SlotOfInstant(m.date);
    }
    var t :- ResolveInstant(m, args.date, parseDate, summer);
    var day :- ResolveDay(m, t);
    var repeat := ParityAt(t);
    var lookup := if UserLookup in faults then Failed else GroupOf(db.users, m.chat);
    var group :- ResolveGroup(m, lookup);
    if SubjectLookup in faults {
      return Err(Unexpected(m.chat));
    }
    var found := db.GetSubjects(Key(day, repeat, slot, group));
    assert found == FoundSubjects(db.subjects, db.schedule, Key(day, repeat, slot, group));
    if found == [] {
      r := Ok(Reply(NotFoundText, false));
    } else {
      var message := BuildListing(slot, found);
      r := Ok(Reply(message, true));
    }
  }

  // ---------------------------------------------------------------------------
  // /config
  // ---------------------------------------------------------------------------

  /** The users table after a chat configures a group token: updated if present, else added. */
  function Configured(users: seq<UserRow>, chat: int, gang: string): seq<UserRow> {
    if FirstGang(users, chat).Some? then SetChatGang(users, chat, gang) else users + [UserRow(chat, gang)]
  }

  /** After `/config`, the chat's group is the configured one; no other chat's changes. */
  lemma ConfigureThenLookup(users: seq<UserRow>, chat: int, g: Group, other: int)
    requires GangsValid(users)
    requires other != chat
    ensures GangsValid(Configured(users, chat, GroupToken(g)))
    ensures GroupOf(Configured(users, chat, GroupToken(g)), chat) == Found(g)
    ensures GroupOf(Configured(users, chat, GroupToken(g)), other) == GroupOf(users, other)
  {
    WritesKeepGangsValid(users, chat, g);
    GroupTokenRoundTrip(g);
    if FirstGang(users, chat).Some? {
      SetChatGangLookup(users, chat, GroupToken(g), other);
    } else {
      InsertLookup(users, chat, GroupToken(g), other);
    }
  }

  /** The result of `/config`: a bad token, a failing query, or success. */
  function ConfigOutcome(users: seq<UserRow>, chat: int, gang: string, faults: set<Query>): Result<(), BotError> {
    if ParseGroup(gang).Err? then Err(InvalidGroup(chat, gang))
    else if UserLookup in faults then Err(Unexpected(chat))
    else if FirstGang(users, chat).Some? && UserUpdate in faults then Err(Unexpected(chat))
    else if FirstGang(users, chat).None? && UserInsert in faults then Err(Unexpected(chat))
    else Ok(())
  }

  /**
   * `/config <group>`: rejects an unknown group token; otherwise updates the chat's row if
   * the lookup finds one and inserts one if it reports no row. The table changes only on
   * success, and then holds the configured token.
   */
  method Configure(db: Database, chat: int, gang: string, faults: set<Query>) returns (r: Result<(), BotError>)
    requires db.Valid()
    modifies db
    ensures db.Valid()
    ensures r == ConfigOutcome(old(db.users), chat, gang, faults)
    ensures db.users == if r.Ok? then Configured(old(db.users), chat, gang) else old(db.users)
    ensures db.subjects == old(db.subjects) && db.schedule == old(db.schedule)
  {
    var parsed := ParseGroup(gang);
    if parsed.Err? {
      return Err(InvalidGroup(chat, gang));
    }
    var group := parsed.value;
    var lookup := if UserLookup in faults then Failed else GroupOf(db.users, chat);
    if lookup.Failed? {
      return Err(Unexpected(chat));
    } else if lookup.Found? {
      if UserUpdate in faults {
        return Err(Unexpected(chat));
      }
      db.UpdateUser(chat, group);
    } else {
      if UserInsert in faults {
        return Err(Unexpected(chat));
      }
      db.AddUser(chat, group);
    }
    r := Ok(());
  }
}
