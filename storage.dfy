/**
 * The timetable database: the rows of its three tables, the encodings the records are
 * stored under, the subject lookup of `get_subjects` and the user-group queries.
 *
 * The SQL engine is not modelled; each query is stated as the selection it performs over
 * the rows of its tables, in table order.
 */
module Storage {
  import opened Outcome
  import opened Domain
  import opened Codec

  /** A row of `subjects`: the group as its token, `optional` as an integer. */
  datatype SubjectRow = SubjectRow(id: int, title: string, gang: string, optional: int)

  /** A row of `schedule`: day, repeat and slot as their discriminants. */
  datatype ScheduleRow = ScheduleRow(day: int, repeat: int, slot: int, subjectId: int)

  /** A row of `users`: a chat and the group token it configured. */
  datatype UserRow = UserRow(chatId: int, gang: string)

  /** What `get_subjects` is asked for. */
  datatype Key = Key(day: Day, repeat: Repeat, slot: Slot, group: Group)

  /** The outcome of `get_group`: a group, no row for the chat, or another query failure. */
  datatype Lookup = Found(group: Group) | RowNotFound | Failed

  // ---------------------------------------------------------------------------
  // Encodings
  // ---------------------------------------------------------------------------

  /** The row `add_subject` inserts: the group's token, and `optional` as 1 or 0. */
  function SubjectRowOf(s: Subject): (row: SubjectRow)
    ensures row.id == s.id && row.title == s.title
    ensures ParseGroup(row.gang) == Ok(s.group)
    ensures row.optional == 1 <==> s.optional
    ensures row.optional == 0 || row.optional == 1
  {
    GroupTokenRoundTrip(s.group);
    SubjectRow(s.id, s.title, GroupToken(s.group), if s.optional then 1 else 0)
  }

  /** The row `add_schedule` inserts: each enum by its discriminant. */
  function ScheduleRowOf(e: Schedule): (row: ScheduleRow)
    ensures 1 <= row.day <= 5 && 1 <= row.repeat <= 3 && 1 <= row.slot <= 4
    ensures row.subjectId == e.subjectId
  {
    ScheduleRow(DayCode(e.day), RepeatCode(e.repeat), SlotCode(e.slot), e.subjectId)
  }

  /**
   * The row mapping of `get_subjects`: the group token is parsed back (the source unwraps
   * that parse, so it is a precondition here) and `optional` is true exactly for 1.
   */
  function SubjectOfRow(row: SubjectRow): (s: Subject)
    requires ParseGroup(row.gang).Ok?
    ensures s.id == row.id && s.title == row.title
    ensures GroupToken(s.group) == row.gang
    ensures s.optional <==> row.optional == 1
  {
    Subject(row.id, row.title, ParseGroup(row.gang).value, row.optional == 1)
  }

  /** A stored subject reads back as itself. */
  lemma SubjectRowRoundTrip(s: Subject)
    ensures SubjectOfRow(SubjectRowOf(s)) == s
  {
  }

  // ---------------------------------------------------------------------------
  // The selection of get_subjects
  // ---------------------------------------------------------------------------

  /**
   * The `WHERE` clause over `schedule`: day and slot equal the key's codes and the repeat
   * code is the key's or the code of `Both`.
   */
  predicate RowSelected(row: ScheduleRow, k: Key) {
    row.day == DayCode(k.day)
    && (row.repeat == RepeatCode(k.repeat) || row.repeat == RepeatCode(Both))
    && row.slot == SlotCode(k.slot)
  }

  /** The same condition stated on the timetable's own values. */
  predicate Matches(e: Schedule, k: Key) {
    e.day == k.day && Covers(e.repeat, k.repeat) && e.slot == k.slot
  }

  /** Storing and querying use the same encoding, so the SQL condition is `Matches`. */
  lemma EncodingAgrees(e: Schedule, k: Key)
    ensures RowSelected(ScheduleRowOf(e), k) <==> Matches(e, k)
  {
    CodesInjective(e.day, k.day, e.slot, k.slot, e.repeat, k.repeat);
    CodesInjective(e.day, k.day, e.slot, k.slot, e.repeat, Both);
  }

  /** An every-week class is found in odd and even weeks; a one-parity class only in its own. */
  lemma RepeatWildcard(id: int, d: Day, x: Slot, g: Group)
    ensures Matches(Schedule(id, d, Both, x), Key(d, Odd, x, g))
    ensures Matches(Schedule(id, d, Both, x), Key(d, Even, x, g))
    ensures !Matches(Schedule(id, d, Odd, x), Key(d, Even, x, g))
    ensures !Matches(Schedule(id, d, Even, x), Key(d, Odd, x, g))
  {
  }

  /** The group condition over `subjects`: the row's token is the query group's. */
  predicate InGroup(row: SubjectRow, k: Key) {
    row.gang == GroupToken(k.group)
  }

  /**
   * The scalar subquery `(SELECT subject_id FROM schedule WHERE …)` as written: the subject
   * id of the first selected schedule row, or NULL when no row is selected.
   */
  function FirstScheduledId(schedule: seq<ScheduleRow>, k: Key): (r: Option<int>)
    ensures r.None? <==> forall i :: 0 <= i < |schedule| ==> !RowSelected(schedule[i], k)
  {
    if schedule == [] then None
    else if RowSelected(schedule[0], k) then Some(schedule[0].subjectId)
    else
      assert forall i :: 1 <= i < |schedule| ==> schedule[i] == schedule[1..][i - 1];
      FirstScheduledId(schedule[1..], k)
  }

  /** The id found by the scalar subquery belongs to the first selected row. */
  lemma {:induction false} FirstScheduledIdIsFirst(schedule: seq<ScheduleRow>, k: Key)
    requires FirstScheduledId(schedule, k).Some?
    ensures exists i :: 0 <= i < |schedule| && RowSelected(schedule[i], k)
                        && schedule[i].subjectId == FirstScheduledId(schedule, k).value
                        && forall j :: 0 <= j < i ==> !RowSelected(schedule[j], k)
  {
    if !RowSelected(schedule[0], k) {
      FirstScheduledIdIsFirst(schedule[1..], k);
      var i :| 0 <= i < |schedule[1..]| && RowSelected(schedule[1..][i], k)
               && schedule[1..][i].subjectId == FirstScheduledId(schedule[1..], k).value
               && forall j :: 0 <= j < i ==> !RowSelected(schedule[1..][j], k);
      assert forall j :: 1 <= j < i + 1 ==> schedule[j] == schedule[1..][j - 1];
      assert schedule[i + 1] == schedule[1..][i];
    } else {
      assert RowSelected(schedule[0], k);
    }
  }

  /**
   * `get_subjects` as written: `id = (scalar subquery) AND gang = ?`. A NULL subquery
   * compares equal to nothing, so no selected schedule row gives no subject.
   */
  function SelectAsWritten(subjects: seq<SubjectRow>, schedule: seq<ScheduleRow>, k: Key): (r: seq<SubjectRow>)
    ensures forall row :: row in r <==> row in subjects && InGroup(row, k)
                                         && Some(row.id) == FirstScheduledId(schedule, k)
  {
    match FirstScheduledId(schedule, k)
    case None => []
    case Some(id) => Filter(subjects, (row: SubjectRow) => row.id == id && InGroup(row, k))
  }

  /** As written, subjects also come out in table order. */
  lemma AsWrittenKeepsOrder(a: seq<SubjectRow>, b: seq<SubjectRow>, schedule: seq<ScheduleRow>, k: Key)
    ensures SelectAsWritten(a + b, schedule, k) == SelectAsWritten(a, schedule, k) + SelectAsWritten(b, schedule, k)
  {
    match FirstScheduledId(schedule, k)
    case None =>
    case Some(id) =>
      FilterAppend(a, b, (row: SubjectRow) => row.id == id && InGroup(row, k));
  }

  /** Some selected schedule row names the subject id `id`. */
  predicate Scheduled(schedule: seq<ScheduleRow>, k: Key, id: int) {
    exists i :: 0 <= i < |schedule| && RowSelected(schedule[i], k) && schedule[i].subjectId == id
  }

  /** The subject rows of the query's group that some selected schedule row names. */
  predicate Wanted(schedule: seq<ScheduleRow>, k: Key, row: SubjectRow) {
    Scheduled(schedule, k, row.id) && InGroup(row, k)
  }

  /**
   * The lookup with set membership (`id IN (SELECT …)`): every subject of the query group
   * that any selected schedule row names, in the order of `subjects`.
   */
  function SelectSubjects(subjects: seq<SubjectRow>, schedule: seq<ScheduleRow>, k: Key): (r: seq<SubjectRow>)
    ensures forall row :: row in r <==> row in subjects && Wanted(schedule, k, row)
    ensures forall i :: 0 <= i < |r| ==> ParseGroup(r[i].gang) == Ok(k.group)
    ensures |r| <= |subjects|
  {
    GroupTokenRoundTrip(k.group);
    var r := Filter(subjects, (row: SubjectRow) => Wanted(schedule, k, row));
    assert forall i :: 0 <= i < |r| ==> r[i] in r;
    r
  }

  /** As written, the result holds the subjects of at most one subject id. */
  lemma AsWrittenHasOneId(subjects: seq<SubjectRow>, schedule: seq<ScheduleRow>, k: Key)
    ensures forall a, b :: a in SelectAsWritten(subjects, schedule, k) && b in SelectAsWritten(subjects, schedule, k)
                           ==> a.id == b.id
  {
  }

  /** With no selected schedule row, both forms give an empty result rather than an error. */
  lemma NoMatchIsEmpty(subjects: seq<SubjectRow>, schedule: seq<ScheduleRow>, k: Key)
    requires forall i :: 0 <= i < |schedule| ==> !RowSelected(schedule[i], k)
    ensures SelectAsWritten(subjects, schedule, k) == []
    ensures SelectSubjects(subjects, schedule, k) == []
  {
    FilterNone(subjects, (row: SubjectRow) => Wanted(schedule, k, row));
  }

  /** When every selected schedule row names one subject id, the two forms agree. */
  lemma AgreeOnOneId(subjects: seq<SubjectRow>, schedule: seq<ScheduleRow>, k: Key)
    requires forall i, j :: 0 <= i < |schedule| && 0 <= j < |schedule|
                            && RowSelected(schedule[i], k) && RowSelected(schedule[j], k)
                            ==> schedule[i].subjectId == schedule[j].subjectId
    ensures SelectAsWritten(subjects, schedule, k) == SelectSubjects(subjects, schedule, k)
  {
    match FirstScheduledId(schedule, k)
    case None =>
      NoMatchIsEmpty(subjects, schedule, k);
    case Some(id) =>
      FirstScheduledIdIsFirst(schedule, k);
      FilterCongruent(subjects, (row: SubjectRow) => row.id == id && InGroup(row, k),
                      (row: SubjectRow) => Wanted(schedule, k, row));
  }

  /** Subjects come out in table order: the lookup distributes over the subject rows. */
  lemma SelectionKeepsOrder(a: seq<SubjectRow>, b: seq<SubjectRow>, schedule: seq<ScheduleRow>, k: Key)
    ensures SelectSubjects(a + b, schedule, k) == SelectSubjects(a, schedule, k) + SelectSubjects(b, schedule, k)
  {
    FilterAppend(a, b, (row: SubjectRow) => Wanted(schedule, k, row));
  }

  /** A subject stored with a matching timetable entry is found by the lookup. */
  lemma StoredSubjectIsFound(subjects: seq<SubjectRow>, schedule: seq<ScheduleRow>, s: Subject, e: Schedule, k: Key)
    requires e.subjectId == s.id && Matches(e, k) && s.group == k.group
    ensures SubjectRowOf(s) in SelectSubjects(subjects + [SubjectRowOf(s)], schedule + [ScheduleRowOf(e)], k)
  {
    EncodingAgrees(e, k);
    var all := schedule + [ScheduleRowOf(e)];
    assert all[|schedule|] == ScheduleRowOf(e);
    assert Scheduled(all, k, s.id);
    assert SubjectRowOf(s) in subjects + [SubjectRowOf(s)];
  }

  /**
   * Two classes in the same period for one group (say an elective pair): the scalar
   * subquery keeps only the first one's subject, while both are scheduled.
   */
  lemma ScalarSubqueryDropsSubjects()
    ensures var k := Key(Mon, Odd, I, K25);
            var a := SubjectRow(1, "Algebra", "K-25", 1);
            var b := SubjectRow(2, "Biology", "K-25", 1);
            var schedule := [ScheduleRow(1, 3, 1, 1), ScheduleRow(1, 1, 1, 2)];
            SelectAsWritten([a, b], schedule, k) == [a]
            && SelectSubjects([a, b], schedule, k) == [a, b]
  {
    var k := Key(Mon, Odd, I, K25);
    var a := SubjectRow(1, "Algebra", "K-25", 1);
    var b := SubjectRow(2, "Biology", "K-25", 1);
    var schedule := [ScheduleRow(1, 3, 1, 1), ScheduleRow(1, 1, 1, 2)];
    assert RowSelected(schedule[0], k) && RowSelected(schedule[1], k);
    assert Wanted(schedule, k, a) && Wanted(schedule, k, b);
    assert [a, b][1..] == [b] && [b][1..] == [];
  }

  // ---------------------------------------------------------------------------
  // The user table
  // ---------------------------------------------------------------------------

  /** `SELECT gang FROM users WHERE chat_id = ?` with `fetch_one`: the first row's token. */
  function FirstGang(users: seq<UserRow>, chat: int): (r: Option<string>)
    ensures r.None? <==> forall i :: 0 <= i < |users| ==> users[i].chatId != chat
    ensures r.Some? ==> exists i :: 0 <= i < |users| && users[i] == UserRow(chat, r.value)
  {
    if users == [] then None
    else if users[0].chatId == chat then Some(users[0].gang)
    else
      assert forall i :: 1 <= i < |users| ==> users[i] == users[1..][i - 1];
      var r := FirstGang(users[1..], chat);
      assert r.Some? ==> exists i :: 1 <= i < |users| && users[i] == UserRow(chat, r.value);
      r
  }

  /** `UPDATE users SET gang = ? WHERE chat_id = ?`: every row of the chat gets the token. */
  function SetChatGang(users: seq<UserRow>, chat: int, gang: string): (r: seq<UserRow>)
    ensures |r| == |users|
    ensures forall i :: 0 <= i < |users| ==>
              r[i] == if users[i].chatId == chat then UserRow(chat, gang) else users[i]
  {
    if users == [] then []
    else [if users[0].chatId == chat then UserRow(chat, gang) else users[0]]
         + SetChatGang(users[1..], chat, gang)
  }

  /** After the update the chat's group is the new one, and every other chat's is unchanged. */
  lemma SetChatGangLookup(users: seq<UserRow>, chat: int, gang: string, other: int)
    requires other != chat
    ensures FirstGang(users, chat).Some? ==> FirstGang(SetChatGang(users, chat, gang), chat) == Some(gang)
    ensures FirstGang(SetChatGang(users, chat, gang), other) == FirstGang(users, other)
  {
    if users != [] {
      assert SetChatGang(users, chat, gang)[1..] == SetChatGang(users[1..], chat, gang);
      SetChatGangLookup(users[1..], chat, gang, other);
    }
  }

  /** Inserting a row for a chat that had none makes that row the chat's group. */
  lemma InsertLookup(users: seq<UserRow>, chat: int, gang: string, other: int)
    requires FirstGang(users, chat).None?
    requires other != chat
    ensures FirstGang(users + [UserRow(chat, gang)], chat) == Some(gang)
    ensures FirstGang(users + [UserRow(chat, gang)], other) == FirstGang(users, other)
  {
    if users != [] {
      assert (users + [UserRow(chat, gang)])[1..] == users[1..] + [UserRow(chat, gang)];
      InsertLookup(users[1..], chat, gang, other);
    }
  }

  /** Every stored group token parses; the source unwraps that parse on every read. */
  predicate GangsValid(users: seq<UserRow>) {
    forall i :: 0 <= i < |users| ==> ParseGroup(users[i].gang).Ok?
  }

  /** `get_group` once the query succeeds: the decoded group, or `RowNotFound`. */
  function GroupOf(users: seq<UserRow>, chat: int): (r: Lookup)
    requires GangsValid(users)
    ensures r != Failed
    ensures r.RowNotFound? <==> forall i :: 0 <= i < |users| ==> users[i].chatId != chat
    ensures r.Found? ==> exists i :: 0 <= i < |users| && users[i] == UserRow(chat, GroupToken(r.group))
  {
    match FirstGang(users, chat)
    case None => RowNotFound
    case Some(gang) => Found(ParseGroup(gang).value)
  }

  /** Writing a group's token keeps every stored token parseable. */
  lemma WritesKeepGangsValid(users: seq<UserRow>, chat: int, g: Group)
    requires GangsValid(users)
    ensures GangsValid(users + [UserRow(chat, GroupToken(g))])
    ensures GangsValid(SetChatGang(users, chat, GroupToken(g)))
  {
    GroupTokenRoundTrip(g);
  }

  // ---------------------------------------------------------------------------
  // The database handle
  // ---------------------------------------------------------------------------

  /** The database the bot talks to, as the contents of its three tables. */
  class Database {
    var users: seq<UserRow>
    var subjects: seq<SubjectRow>
    var schedule: seq<ScheduleRow>

    /** What every writer keeps: each stored user group parses. */
    predicate Valid()
      reads this
    {
      GangsValid(users)
    }

    /** A database with empty tables. */
    constructor ()
      ensures Valid()
      ensures users == [] && subjects == [] && schedule == []
    {
      users, subjects, schedule := [], [], [];
    }

    /** `add_subject`: appends the subject's row. */
    method AddSubject(s: Subject)
      modifies this
      ensures subjects == old(subjects) + [SubjectRowOf(s)]
      ensures users == old(users) && schedule == old(schedule)
    {
      subjects := subjects + [SubjectRowOf(s)];
    }

    /** `add_schedule`: appends the timetable entry's row. */
    method AddSchedule(e: Schedule)
      modifies this
      ensures schedule == old(schedule) + [ScheduleRowOf(e)]
      ensures users == old(users) && subjects == old(subjects)
    {
      schedule := schedule + [ScheduleRowOf(e)];
    }

    /** `add_user`: appends a row with the group's token. */
    method AddUser(chat: int, g: Group)
      requires Valid()
      modifies this
      ensures Valid()
      ensures users == old(users) + [UserRow(chat, GroupToken(g))]
      ensures subjects == old(subjects) && schedule == old(schedule)
    {
      WritesKeepGangsValid(users, chat, g);
      users := users + [UserRow(chat, GroupToken(g))];
    }

    /** `update_user`: sets the token on every row of the chat; no row is not an error. */
    method UpdateUser(chat: int, g: Group)
      requires Valid()
      modifies this
      ensures Valid()
      ensures users == SetChatGang(old(users), chat, GroupToken(g))
      ensures subjects == old(subjects) && schedule == old(schedule)
    {
      WritesKeepGangsValid(users, chat, g);
      users := SetChatGang(users, chat, GroupToken(g));
    }

    /**
     * `get_subjects`: runs the lookup and maps each returned row to a subject, in row
     * order. The group parse the source unwraps cannot fail on a returned row.
     */
    method GetSubjects(k: Key) returns (found: seq<Subject>)
      ensures |found| == |SelectSubjects(subjects, schedule, k)|
      ensures forall i :: 0 <= i < |found| ==>
                found[i] == SubjectOfRow(SelectSubjects(subjects, schedule, k)[i])
      ensures forall s :: s in found ==> s.group == k.group
    {
      var records := SelectSubjects(subjects, schedule, k);
      found := [];
      for i := 0 to |records|
        invariant |found| == i
        invariant forall j :: 0 <= j < i ==> found[j] == SubjectOfRow(records[j])
        invariant forall s :: s in found ==> s.group == k.group
      {
        found := found + [SubjectOfRow(records[i])];
      }
    }
  }
}
