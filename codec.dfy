/**
 * The flat-record codec: the four record types of the timetable export, the positional
 * per-record unpacking, and the driver that cuts a line list into fixed-size chunks and
 * keeps every record that unpacks.
 */
module Codec {
  import opened Outcome
  import opened Domain

  datatype Subject = Subject(id: int, title: string, group: Group, optional: bool)
  datatype Meeting = Meeting(id: int, name: string, group: Group, link: string)
  datatype Schedule = Schedule(subjectId: int, day: Day, repeat: Repeat, slot: Slot)
  datatype Assigned = Assigned(meetingId: int, subjectId: int)

  // ---------------------------------------------------------------------------
  // i64::from_str_radix(s, 10) and its inverse, the decimal rendering of an i64
  // ---------------------------------------------------------------------------

  const MinI64: int := -0x8000_0000_0000_0000
  const MaxI64: int := 0x7FFF_FFFF_FFFF_FFFF

  predicate IsDigit(c: char) {
    '0' <= c <= '9'
  }

  predicate AllDigits(s: string) {
    forall i :: 0 <= i < |s| ==> IsDigit(s[i])
  }

  /** The value of a string of decimal digits, most significant first. */
  function DigitsValue(s: string): nat
    requires AllDigits(s)
  {
    if s == [] then 0
    else DigitsValue(s[..|s| - 1]) * 10 + (s[|s| - 1] as int - '0' as int)
  }

  /**
   * A signed decimal integer: an optional `+` or `-`, then at least one digit, and the
   * value within the 64-bit signed range. Anything else (empty text, a lone sign, any
   * other character, an out-of-range value) is an error.
   */
  function ParseI64(s: string): (r: Result<int, ParseError>)
    ensures r.Ok? ==> MinI64 <= r.value <= MaxI64
    ensures r.Err? ==> r.error == NotAnInteger(s)
    ensures s == [] ==> r.Err?
    ensures r.Ok? ==> (IsDigit(s[0]) || s[0] == '+' || s[0] == '-') && AllDigits(s[1..])
  {
    if s == [] then Err(NotAnInteger(s))
    else
      var signed := s[0] == '+' || s[0] == '-';
      var digits := if signed then s[1..] else s;
      if digits == [] || !AllDigits(digits) then Err(NotAnInteger(s))
      else
        var magnitude: int := DigitsValue(digits);
        var v := if s[0] == '-' then -magnitude else magnitude;
        if MinI64 <= v <= MaxI64 then Ok(v) else Err(NotAnInteger(s))
  }

  /** The decimal digits of a natural number, without leading zeros. */
  function ShowNat(n: nat): (s: string)
    ensures |s| > 0 && AllDigits(s)
  {
    var d := [('0' as int + n % 10) as char];
    if n < 10 then d else ShowNat(n / 10) + d
  }

  /** `i64::to_string`: a minus sign for negative values, then the digits. */
  function ShowI64(n: int): string {
    if n < 0 then "-" + ShowNat(-n) else ShowNat(n)
  }

  lemma {:induction false} ShowNatValue(n: nat)
    ensures DigitsValue(ShowNat(n)) == n
  {
    var d := [('0' as int + n % 10) as char];
    if n >= 10 {
      var s := ShowNat(n / 10) + d;
      assert s[..|s| - 1] == ShowNat(n / 10);
      ShowNatValue(n / 10);
    }
  }

  /**
   * Parsing the decimal rendering of a value gives the value back exactly when it is
   * within the 64-bit range, and the overflow error otherwise.
   */
  lemma ParseShowI64(n: int)
    ensures ParseI64(ShowI64(n)) == if MinI64 <= n <= MaxI64 then Ok(n) else Err(NotAnInteger(ShowI64(n)))
  {
    if n < 0 {
      ShowNatValue(-n);
      assert ShowI64(n)[1..] == ShowNat(-n);
    } else {
      ShowNatValue(n);
      assert IsDigit(ShowNat(n)[0]);
    }
  }

  /** Signs and leading zeros are accepted; blanks, a lone sign and overflow are not. */
  lemma ParseI64Examples()
    ensures ParseI64("0") == Ok(0) && ParseI64("+7") == Ok(7) && ParseI64("-12") == Ok(-12)
    ensures ParseI64("007") == Ok(7)
    ensures ParseI64("").Err? && ParseI64("-").Err? && ParseI64("+").Err?
    ensures ParseI64(" 1").Err? && ParseI64("1a").Err? && ParseI64("+-1").Err?
  {
    assert "0"[0..] == "0" && DigitsValue("0") == 0;
    assert "+7"[1..] == "7" && DigitsValue("7") == 7;
    assert "-12"[1..] == "12" && "12"[..1] == "1" && DigitsValue("12") == 12;
    assert "007"[..2] == "00" && "00"[..1] == "0" && DigitsValue("007") == 7;
    assert !IsDigit(" 1"[0]) && !IsDigit("1a"[1]) && !IsDigit("+-1"[1..][0]);
  }

  // ---------------------------------------------------------------------------
  // Per-record unpacking, as functions over the positional field list
  // ---------------------------------------------------------------------------

  /** The `i`-th field, or the "missing value" error naming the field. */
  function Field(input: seq<string>, i: nat, name: string): (r: Result<string, ParseError>)
    ensures r.Ok? <==> i < |input|
    ensures r.Ok? ==> r.value == input[i]
    ensures r.Err? ==> r.error == MissingValue(name)
  {
    if i < |input| then Ok(input[i]) else Err(MissingValue(name))
  }

  /** Whether the value after the `fields` read ones is present and non-empty (a warning). */
  predicate ExtraWarning(input: seq<string>, fields: nat) {
    fields < |input| && input[fields] != ""
  }

  /** `Subject::unpack`: id, title, group, optional. */
  function DecodeSubject(input: seq<string>): (r: Result<Subject, ParseError>)
    ensures r.Ok? <==> 4 <= |input| && ParseI64(input[0]).Ok? && ParseGroup(input[2]).Ok?
    ensures r.Ok? ==> ParseI64(input[0]) == Ok(r.value.id)
    ensures r.Ok? ==> r.value.title == input[1] && GroupToken(r.value.group) == input[2]
    ensures r.Ok? ==> (r.value.optional <==> input[3] == "true")
  {
    var idText :- Field(input, 0, "id");
    var id :- ParseI64(idText);
    var title :- Field(input, 1, "title");
    var groupText :- Field(input, 2, "group");
    var group :- ParseGroup(groupText);
    var optional :- Field(input, 3, "optional");
    Ok(Subject(id, title, group, optional == "true"))
  }

  /** `Meeting::unpack`: id, name, group, link. */
  function DecodeMeeting(input: seq<string>): (r: Result<Meeting, ParseError>)
    ensures r.Ok? <==> 4 <= |input| && ParseI64(input[0]).Ok? && ParseGroup(input[2]).Ok?
    ensures r.Ok? ==> ParseI64(input[0]) == Ok(r.value.id)
    ensures r.Ok? ==> r.value.name == input[1] && GroupToken(r.value.group) == input[2]
    ensures r.Ok? ==> r.value.link == input[3]
  {
    var idText :- Field(input, 0, "id");
    var id :- ParseI64(idText);
    var name :- Field(input, 1, "name");
    var groupText :- Field(input, 2, "group");
    var group :- ParseGroup(groupText);
    var link :- Field(input, 3, "link");
    Ok(Meeting(id, name, group, link))
  }

  /** `Schedule::unpack`: day, subject_id, repeat, slot. */
  function DecodeSchedule(input: seq<string>): (r: Result<Schedule, ParseError>)
    ensures r.Ok? <==> 4 <= |input| && ParseDay(input[0]).Ok? && ParseI64(input[1]).Ok? &&
                       ParseRepeat(input[2]).Ok? && ParseSlot(input[3]).Ok?
    ensures r.Ok? ==> DayName(r.value.day) == input[0] && ParseI64(input[1]) == Ok(r.value.subjectId)
    ensures r.Ok? ==> RepeatName(r.value.repeat) == input[2] && ParseSlot(input[3]) == Ok(r.value.slot)
  {
    var dayText :- Field(input, 0, "day");
    var day :- ParseDay(dayText);
    var idText :- Field(input, 1, "subject_id");
    var subjectId :- ParseI64(idText);
    var repeatText :- Field(input, 2, "repeat");
    var repeat :- ParseRepeat(repeatText);
    var slotText :- Field(input, 3, "slot");
    var slot :- ParseSlot(slotText);
    Ok(Schedule(subjectId, day, repeat, slot))
  }

  /** `Assigned::unpack`: meeting_id, subject_id. */
  function DecodeAssigned(input: seq<string>): (r: Result<Assigned, ParseError>)
    ensures r.Ok? <==> 2 <= |input| && ParseI64(input[0]).Ok? && ParseI64(input[1]).Ok?
    ensures r.Ok? ==> ParseI64(input[0]) == Ok(r.value.meetingId)
    ensures r.Ok? ==> ParseI64(input[1]) == Ok(r.value.subjectId)
  {
    var meetingText :- Field(input, 0, "meeting_id");
    var meetingId :- ParseI64(meetingText);
    var subjectText :- Field(input, 1, "subject_id");
    var subjectId :- ParseI64(subjectText);
    Ok(Assigned(meetingId, subjectId))
  }

  // ---------------------------------------------------------------------------
  // The export format: how a record is laid out as lines, and the round trips
  // ---------------------------------------------------------------------------

  function PackSubject(s: Subject): seq<string> {
    [ShowI64(s.id), s.title, GroupToken(s.group), if s.optional then "true" else "false"]
  }

  function PackMeeting(m: Meeting): seq<string> {
    [ShowI64(m.id), m.name, GroupToken(m.group), m.link]
  }

  function PackSchedule(e: Schedule): seq<string> {
    [DayName(e.day), ShowI64(e.subjectId), RepeatName(e.repeat), SlotDigit(e.slot)]
  }

  function PackAssigned(a: Assigned): seq<string> {
    [ShowI64(a.meetingId), ShowI64(a.subjectId)]
  }

  /** A packed subject unpacks to itself, whatever follows its four lines. */
  lemma SubjectRoundTrip(s: Subject, rest: seq<string>)
    requires MinI64 <= s.id <= MaxI64
    ensures DecodeSubject(PackSubject(s) + rest) == Ok(s)
  {
    ParseShowI64(s.id);
    var p := PackSubject(s) + rest;
    assert p[0] == ShowI64(s.id) && p[1] == s.title && p[2] == GroupToken(s.group);
    assert "false" != "true";
    assert (p[3] == "true") == s.optional;
    GroupTokenRoundTrip(s.group);
  }

  /** A packed meeting unpacks to itself, whatever follows its four lines. */
  lemma MeetingRoundTrip(m: Meeting, rest: seq<string>)
    requires MinI64 <= m.id <= MaxI64
    ensures DecodeMeeting(PackMeeting(m) + rest) == Ok(m)
  {
    ParseShowI64(m.id);
    GroupTokenRoundTrip(m.group);
    var p := PackMeeting(m) + rest;
    assert p[0] == ShowI64(m.id) && p[1] == m.name && p[2] == GroupToken(m.group) && p[3] == m.link;
  }

  /** A packed schedule entry unpacks to itself, whatever follows its four lines. */
  lemma ScheduleRoundTrip(e: Schedule, rest: seq<string>)
    requires MinI64 <= e.subjectId <= MaxI64
    ensures DecodeSchedule(PackSchedule(e) + rest) == Ok(e)
  {
    ParseShowI64(e.subjectId);
    SlotTokensRoundTrip(e.slot);
  }

  /** A packed assignment unpacks to itself, whatever follows its two lines. */
  lemma AssignedRoundTrip(a: Assigned, rest: seq<string>)
    requires MinI64 <= a.meetingId <= MaxI64 && MinI64 <= a.subjectId <= MaxI64
    ensures DecodeAssigned(PackAssigned(a) + rest) == Ok(a)
  {
    ParseShowI64(a.meetingId);
    ParseShowI64(a.subjectId);
  }

  /**
   * Fields are checked in order: with too few lines, the error names the first missing
   * field, provided every field that is present is valid.
   */
  lemma ScheduleMissingField(input: seq<string>)
    requires |input| < 4
    requires |input| > 0 ==> ParseDay(input[0]).Ok?
    requires |input| > 1 ==> ParseI64(input[1]).Ok?
    requires |input| > 2 ==> ParseRepeat(input[2]).Ok?
    ensures DecodeSchedule(input) == Err(MissingValue(["day", "subject_id", "repeat", "slot"][|input|]))
  {
  }

  /** The first invalid field decides the error, even when later fields are missing. */
  lemma ScheduleFirstBadFieldWins(input: seq<string>)
    requires |input| > 0 && ParseDay(input[0]).Err?
    ensures DecodeSchedule(input) == Err(NotADay(input[0]))
  {
  }

  /** With too few lines and valid present fields, the subject error names the missing field. */
  lemma SubjectMissingField(input: seq<string>)
    requires |input| < 4
    requires |input| > 0 ==> ParseI64(input[0]).Ok?
    requires |input| > 2 ==> ParseGroup(input[2]).Ok?
    ensures DecodeSubject(input) == Err(MissingValue(["id", "title", "group", "optional"][|input|]))
  {
  }

  /** The record shapes the source's own unit tests check. */
  lemma UnpackExamples()
    ensures DecodeSubject(["0", "Test title", "K-25", "false"]) == Ok(Subject(0, "Test title", K25, false))
    ensures DecodeMeeting(["0", "Test name", "K-25", "https://fake-link.lol"])
            == Ok(Meeting(0, "Test name", K25, "https://fake-link.lol"))
    ensures DecodeSchedule(["Mon", "0", "Both", "4"]) == Ok(Schedule(0, Mon, Both, IV))
    ensures DecodeAssigned(["1", "2"]) == Ok(Assigned(1, 2))
  {
    ParseShowI64(0);
    ParseShowI64(1);
    ParseShowI64(2);
    assert ShowI64(0) == "0" && ShowI64(1) == "1" && ShowI64(2) == "2";
  }

  // ---------------------------------------------------------------------------
  // Per-record unpacking as the source does it: a field iterator advanced step by step
  // ---------------------------------------------------------------------------

  /** The iterator over one chunk's lines; `rest` is what it has not yielded yet. */
  class FieldIter {
    var rest: seq<string>

    constructor (items: seq<string>)
      ensures rest == items
    {
      rest := items;
    }

    /** `iter.next()`. */
    method Next() returns (item: Option<string>)
      modifies this
      ensures old(rest) == [] ==> item == None && rest == []
      ensures old(rest) != [] ==> item == Some(old(rest)[0]) && rest == old(rest)[1..]
    {
      if rest == [] {
        item := None;
      } else {
        item := Some(rest[0]);
        rest := rest[1..];
      }
    }

    /** The `next(field)` closure: the next value, or "missing value" naming the field. */
    method Take(field: string) returns (r: Result<string, ParseError>)
      modifies this
      ensures old(rest) == [] ==> r == Err(MissingValue(field)) && rest == []
      ensures old(rest) != [] ==> r == Ok(old(rest)[0]) && rest == old(rest)[1..]
    {
      var item := Next();
      r := if item.Some? then Ok(item.value) else Err(MissingValue(field));
    }
  }

  /** Peeks the value after the record's fields and says whether it would be warned about. */
  method WarnOnExtra(iter: FieldIter) returns (warned: bool)
    modifies iter
    ensures warned <==> old(iter.rest) != [] && old(iter.rest)[0] != ""
    ensures iter.rest == if old(iter.rest) == [] then [] else old(iter.rest)[1..]
  {
    var extra := iter.Next();
    warned := extra.Some? && extra.value != "";
  }

  method UnpackSubject(input: seq<string>) returns (r: Result<Subject, ParseError>, warned: bool)
    ensures r == DecodeSubject(input)
    ensures warned <==> r.Ok? && ExtraWarning(input, 4)
  {
    warned := false;
    var iter := new FieldIter(input);
    var idText :- iter.Take("id");
    var id :- ParseI64(idText);
    var title :- iter.Take("title");
    var groupText :- iter.Take("group");
    var group :- ParseGroup(groupText);
    var optional :- iter.Take("optional");
    assert iter.rest == input[4..];
    warned := WarnOnExtra(iter);
    r := Ok(Subject(id, title, group, optional == "true"));
  }

  method UnpackMeeting(input: seq<string>) returns (r: Result<Meeting, ParseError>, warned: bool)
    ensures r == DecodeMeeting(input)
    ensures warned <==> r.Ok? && ExtraWarning(input, 4)
  {
    warned := false;
    var iter := new FieldIter(input);
    var idText :- iter.Take("id");
    var id :- ParseI64(idText);
    var name :- iter.Take("name");
    var groupText :- iter.Take("group");
    var group :- ParseGroup(groupText);
    var link :- iter.Take("link");
    assert iter.rest == input[4..];
    warned := WarnOnExtra(iter);
    r := Ok(Meeting(id, name, group, link));
  }

  method UnpackSchedule(input: seq<string>) returns (r: Result<Schedule, ParseError>, warned: bool)
    ensures r == DecodeSchedule(input)
    ensures warned <==> r.Ok? && ExtraWarning(input, 4)
  {
    warned := false;
    var iter := new FieldIter(input);
    var dayText :- iter.Take("day");
    var day :- ParseDay(dayText);
    var idText :- iter.Take("subject_id");
    var subjectId :- ParseI64(idText);
    var repeatText :- iter.Take("repeat");
    var repeat :- ParseRepeat(repeatText);
    var slotText :- iter.Take("slot");
    var slot :- ParseSlot(slotText);
    assert iter.rest == input[4..];
    warned := WarnOnExtra(iter);
    r := Ok(Schedule(subjectId, day, repeat, slot));
  }

  method UnpackAssigned(input: seq<string>) returns (r: Result<Assigned, ParseError>, warned: bool)
    ensures r == DecodeAssigned(input)
    ensures warned <==> r.Ok? && ExtraWarning(input, 2)
  {
    warned := false;
    var iter := new FieldIter(input);
    var meetingText :- iter.Take("meeting_id");
    var meetingId :- ParseI64(meetingText);
    var subjectText :- iter.Take("subject_id");
    var subjectId :- ParseI64(subjectText);
    assert iter.rest == input[2..];
    warned := WarnOnExtra(iter);
    r := Ok(Assigned(meetingId, subjectId));
  }

  // ---------------------------------------------------------------------------
  // The chunk driver
  // ---------------------------------------------------------------------------

  function Flatten<L>(cs: seq<seq<L>>): seq<L> {
    if cs == [] then [] else cs[0] + Flatten(cs[1..])
  }

  /**
   * `lines.chunks(size)`: consecutive runs of `size` lines, the last one possibly shorter;
   * together they are exactly the lines.
   */
  function Chunks<L>(lines: seq<L>, size: nat): (cs: seq<seq<L>>)
    requires size > 0
    ensures Flatten(cs) == lines
    ensures forall i :: 0 <= i < |cs| ==> 0 < |cs[i]| <= size
    ensures forall i :: 0 <= i < |cs| - 1 ==> |cs[i]| == size
    decreases |lines|
  {
    if lines == [] then []
    else
      var k := if |lines| < size then |lines| else size;
      assert lines == lines[..k] + lines[k..];
      [lines[..k]] + Chunks(lines[k..], size)
  }

  /** There are ceil(n / size) chunks: the least count whose multiple of `size` covers n. */
  lemma {:induction false} ChunkCount<L>(lines: seq<L>, size: nat)
    requires size > 0
    ensures |lines| <= |Chunks(lines, size)| * size < |lines| + size
    decreases |lines|
  {
    if lines != [] {
      var k := if |lines| < size then |lines| else size;
      var rest := Chunks(lines[k..], size);
      ChunkCount(lines[k..], size);
      assert Chunks(lines, size) == [lines[..k]] + rest;
      assert (|rest| + 1) * size == |rest| * size + size;
    }
  }

  /** The records of the chunks that unpack, in chunk order; failed chunks contribute nothing. */
  function Successes<C, T>(cs: seq<C>, decode: C -> Result<T, ParseError>): (r: seq<T>)
    ensures |r| <= |cs|
  {
    if cs == [] then [] else Kept(decode(cs[0])) + Successes(cs[1..], decode)
  }

  /** The record of a successful unpack, or nothing for a failed one. */
  function Kept<T>(unpacked: Result<T, ParseError>): (r: seq<T>)
    ensures |r| <= 1
  {
    if unpacked.Ok? then [unpacked.value] else []
  }

  /**
   * `unpack(path, fields)` once the file's lines are read: every chunk of `fields + 1`
   * lines is unpacked; successes are kept in order and failures are skipped.
   */
  method Unpack<T>(lines: seq<string>, fields: nat, decode: seq<string> -> Result<T, ParseError>)
    returns (records: seq<T>)
    ensures records == Successes(Chunks(lines, fields + 1), decode)
  {
    var chunks := Chunks(lines, fields + 1);
    records := [];
    for k := 0 to |chunks|
      invariant records == Successes(chunks[..k], decode)
    {
      var unpacked := decode(chunks[k]);
      if unpacked.Ok? {
        records := records + [unpacked.value];
      }
      assert chunks[..k + 1] == chunks[..k] + [chunks[k]];
      SuccessesAppend(chunks[..k], [chunks[k]], decode);
    }
    assert chunks[..|chunks|] == chunks;
  }

  lemma {:induction false} SuccessesAppend<C, T>(a: seq<C>, b: seq<C>, decode: C -> Result<T, ParseError>)
    ensures Successes(a + b, decode) == Successes(a, decode) + Successes(b, decode)
  {
    if a == [] {
      assert a + b == b;
    } else {
      calc {
        Successes(a + b, decode);
        { assert (a + b)[0] == a[0] && (a + b)[1..] == a[1..] + b; }
        Kept(decode(a[0])) + Successes(a[1..] + b, decode);
        { SuccessesAppend(a[1..], b, decode); }
        Kept(decode(a[0])) + (Successes(a[1..], decode) + Successes(b, decode));
      }
    }
  }

  /** Chunking lines that begin with `m` whole chunks chunks the two parts separately. */
  lemma {:induction false} ChunksAppend<L>(a: seq<L>, b: seq<L>, size: nat, m: nat)
    requires size > 0 && |a| == m * size
    ensures Chunks(a + b, size) == Chunks(a, size) + Chunks(b, size)
    decreases m
  {
    if m == 0 {
      assert a == [] && a + b == b;
    } else {
      assert |a| == (m - 1) * size + size;
      assert (a + b)[..size] == a[..size];
      assert (a + b)[size..] == a[size..] + b;
      ChunksAppend(a[size..], b, size, m - 1);
    }
  }

  /**
   * A failed chunk does not abort the load: unpacking lines made of `m` whole chunks
   * followed by more lines gives the records of the first part followed by those of the rest.
   */
  lemma UnpackIsChunkwise<T>(a: seq<string>, b: seq<string>, fields: nat, m: nat,
                             decode: seq<string> -> Result<T, ParseError>)
    requires |a| == m * (fields + 1)
    ensures Successes(Chunks(a + b, fields + 1), decode)
            == Successes(Chunks(a, fields + 1), decode) + Successes(Chunks(b, fields + 1), decode)
  {
    ChunksAppend(a, b, fields + 1, m);
    SuccessesAppend(Chunks(a, fields + 1), Chunks(b, fields + 1), decode);
  }

  /** One chunk yields its record when it unpacks, and nothing when it does not. */
  lemma UnpackOneChunk<T>(chunk: seq<string>, fields: nat, decode: seq<string> -> Result<T, ParseError>)
    requires 0 < |chunk| <= fields + 1
    ensures Successes(Chunks(chunk, fields + 1), decode)
            == if decode(chunk).Ok? then [decode(chunk).value] else []
  {
    assert chunk[..|chunk|] == chunk;
    assert Chunks(chunk, fields + 1) == [chunk];
  }

  /**
   * At most one record per chunk, and there are ceil(n / (fields + 1)) chunks: the least
   * count whose multiple of the chunk size covers the n lines.
   */
  lemma UnpackLengthBound<T>(lines: seq<string>, fields: nat, decode: seq<string> -> Result<T, ParseError>)
    ensures |Successes(Chunks(lines, fields + 1), decode)| <= |Chunks(lines, fields + 1)|
    ensures |lines| <= |Chunks(lines, fields + 1)| * (fields + 1) < |lines| + fields + 1
  {
    ChunkCount(lines, fields + 1);
  }

  /** A whole chunk in front contributes its own record, then the rest load as before. */
  lemma ChunkThenRest<T>(c: seq<string>, rest: seq<string>, fields: nat,
                         decode: seq<string> -> Result<T, ParseError>)
    requires |c| == fields + 1
    ensures Successes(Chunks(c + rest, fields + 1), decode)
            == Kept(decode(c)) + Successes(Chunks(rest, fields + 1), decode)
  {
    UnpackIsChunkwise(c, rest, fields, 1, decode);
    UnpackOneChunk(c, fields, decode);
  }

  /** Two whole chunks and a last one load as the records of the three, in order. */
  lemma ThreeChunks<T>(c1: seq<string>, c2: seq<string>, c3: seq<string>, fields: nat,
                       decode: seq<string> -> Result<T, ParseError>)
    requires |c1| == fields + 1 && |c2| == fields + 1 && 0 < |c3| <= fields + 1
    ensures Successes(Chunks(c1 + (c2 + c3), fields + 1), decode)
            == Kept(decode(c1)) + (Kept(decode(c2)) + Kept(decode(c3)))
  {
    UnpackOneChunk(c3, fields, decode);
    ChunkThenRest(c2, c3, fields, decode);
    ChunkThenRest(c1, c2 + c3, fields, decode);
  }

  /**
   * The export layout (four field lines and a blank separator per record) loads back
   * every schedule entry, in order, and a malformed record in between is skipped.
   */
  lemma ScheduleExportLoads(e1: Schedule, e2: Schedule, bad: seq<string>)
    requires MinI64 <= e1.subjectId <= MaxI64 && MinI64 <= e2.subjectId <= MaxI64
    requires |bad| == 5 && DecodeSchedule(bad).Err?
    ensures Successes(Chunks((PackSchedule(e1) + [""]) + (bad + (PackSchedule(e2) + [""])), 5), DecodeSchedule)
            == [e1, e2]
  {
    ScheduleRoundTrip(e1, [""]);
    ScheduleRoundTrip(e2, [""]);
    ThreeChunks(PackSchedule(e1) + [""], bad, PackSchedule(e2) + [""], 4, DecodeSchedule);
  }
}
