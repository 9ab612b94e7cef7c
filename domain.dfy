/**
 * The closed enumerations of the timetable (`Repeat`, `Group`, `Day`, `Slot`), their
 * exact, case-sensitive text tokens and their fixed `u8` discriminants.
 */
module Domain {
  import opened Outcome

  /** Which alternating week a class occurs in; `Both` is the every-week wildcard. */
  datatype Repeat = Odd | Even | Both

  /** The class cohorts; currently a single one. */
  datatype Group = K25

  /** The five teaching days; a weekend is not representable. */
  datatype Day = Mon | Tue | Wed | Thu | Fri

  /** The four daily class periods, in order. */
  datatype Slot = I | II | III | IV

  /**
   * Every way a text value can be rejected. The source reports all of these through
   * one dynamic error type; the constructor says which conversion failed and on what.
   */
  datatype ParseError =
    | MissingValue(field: string)
    | NotAnInteger(text: string)
    | NotARepeat(text: string)
    | NotAGroup(text: string)
    | NotADay(text: string)
    | NotASlot(text: string)

  // ---------------------------------------------------------------------------
  // Discriminants (`#[repr(u8)]`), as stored in the database.
  // ---------------------------------------------------------------------------

  /** `Repeat as u8`: a two-bit flag set, Odd = 0b01, Even = 0b10, Both = 0b11. */
  function RepeatCode(r: Repeat): (c: int)
    ensures 1 <= c <= 3
  {
    match r
    case Odd => 0x1
    case Even => 0x2
    case Both => 0x3
  }

  /** `Day as u8`: Mon = 1 through Fri = 5. */
  function DayCode(d: Day): (c: int)
    ensures 1 <= c <= 5
  {
    match d
    case Mon => 1
    case Tue => 2
    case Wed => 3
    case Thu => 4
    case Fri => 5
  }

  /** `Slot as u8`: I = 1 through IV = 4. */
  function SlotCode(s: Slot): (c: int)
    ensures 1 <= c <= 4
  {
    match s
    case I => 1
    case II => 2
    case III => 3
    case IV => 4
  }

  /** The discriminant of `r` as the eight bits the database integer holds. */
  function RepeatBits(r: Repeat): bv8 {
    RepeatCode(r) as bv8
  }

  /** Distinct values have distinct discriminants, so a stored code decodes uniquely. */
  lemma CodesInjective(a: Day, b: Day, x: Slot, y: Slot, p: Repeat, q: Repeat)
    ensures DayCode(a) == DayCode(b) ==> a == b
    ensures SlotCode(x) == SlotCode(y) ==> x == y
    ensures RepeatCode(p) == RepeatCode(q) ==> p == q
  {
  }

  /** `Both` is the bitwise OR of `Odd` and `Even`, and `Odd` and `Even` share no bit. */
  lemma BothIsUnionOfParities()
    ensures RepeatBits(Both) == RepeatBits(Odd) | RepeatBits(Even)
    ensures RepeatBits(Odd) & RepeatBits(Even) == 0
  {
  }

  /** A stored repeat serves a query parity: equal to it, or the `Both` wildcard. */
  predicate Covers(stored: Repeat, key: Repeat) {
    stored == key || stored == Both
  }

  /**
   * For a concrete query parity, the capability check agrees with the bit-flag reading:
   * the stored flag set shares a bit with the key's.
   */
  lemma CoversIsBitOverlap(stored: Repeat, key: Repeat)
    requires key != Both
    ensures Covers(stored, key) <==> RepeatBits(stored) & RepeatBits(key) != 0
  {
  }

  // ---------------------------------------------------------------------------
  // Tokens. The canonical name of a value is how the source's derived `Debug`
  // prints it; for `Group` it is the `String::from(&Group)` conversion.
  // ---------------------------------------------------------------------------

  function RepeatName(r: Repeat): string {
    match r
    case Odd => "Odd"
    case Even => "Even"
    case Both => "Both"
  }

  function DayName(d: Day): string {
    match d
    case Mon => "Mon"
    case Tue => "Tue"
    case Wed => "Wed"
    case Thu => "Thu"
    case Fri => "Fri"
  }

  /** `String::from(&Group)`: the token a group is stored and configured under. */
  function GroupToken(g: Group): string {
    match g
    case K25 => "K-25"
  }

  /** The roman-numeral token of a slot. */
  function SlotNumeral(s: Slot): string {
    match s
    case I => "I"
    case II => "II"
    case III => "III"
    case IV => "IV"
  }

  /** The digit token of a slot. */
  function SlotDigit(s: Slot): string {
    match s
    case I => "1"
    case II => "2"
    case III => "3"
    case IV => "4"
  }

  /** `Repeat::try_from(&str)`: exactly the three names, anything else is an error. */
  function ParseRepeat(s: string): (r: Result<Repeat, ParseError>)
    ensures r.Ok? ==> RepeatName(r.value) == s
    ensures r.Err? ==> r.error == NotARepeat(s) && forall x :: RepeatName(x) != s
  {
    match s
    case "Odd" => Ok(Odd)
    case "Even" => Ok(Even)
    case "Both" => Ok(Both)
    case _ => Err(NotARepeat(s))
  }

  /** `Group::try_from(&str)`: exactly the group tokens, anything else is an error. */
  function ParseGroup(s: string): (r: Result<Group, ParseError>)
    ensures r.Ok? ==> GroupToken(r.value) == s
    ensures r.Err? ==> r.error == NotAGroup(s) && forall g :: GroupToken(g) != s
  {
    match s
    case "K-25" => Ok(K25)
    case _ => Err(NotAGroup(s))
  }

  /** `Day::try_from(&str)`: exactly the five day names, anything else is an error. */
  function ParseDay(s: string): (r: Result<Day, ParseError>)
    ensures r.Ok? ==> DayName(r.value) == s
    ensures r.Err? ==> r.error == NotADay(s) && forall d :: DayName(d) != s
  {
    match s
    case "Mon" => Ok(Mon)
    case "Tue" => Ok(Tue)
    case "Wed" => Ok(Wed)
    case "Thu" => Ok(Thu)
    case "Fri" => Ok(Fri)
    case _ => Err(NotADay(s))
  }

  /** `Slot::try_from(&str)`: the digit or the numeral of a slot, anything else is an error. */
  function ParseSlot(s: string): (r: Result<Slot, ParseError>)
    ensures r.Ok? ==> s == SlotDigit(r.value) || s == SlotNumeral(r.value)
    ensures r.Err? ==> r.error == NotASlot(s) && forall x :: s != SlotDigit(x) && s != SlotNumeral(x)
  {
    match s
    case "1" | "I" => Ok(I)
    case "2" | "II" => Ok(II)
    case "3" | "III" => Ok(III)
    case "4" | "IV" => Ok(IV)
    case _ => Err(NotASlot(s))
  }

  /** Every repeat name parses back to its value, so the names are also injective. */
  lemma RepeatNameRoundTrip(r: Repeat)
    ensures ParseRepeat(RepeatName(r)) == Ok(r)
  {
  }

  /** Every day name parses back to its value, so the names are also injective. */
  lemma DayNameRoundTrip(d: Day)
    ensures ParseDay(DayName(d)) == Ok(d)
  {
  }

  /** `Group::try_from(String::from(&g)) == g`: the stored token reads back as the group. */
  lemma GroupTokenRoundTrip(g: Group)
    ensures ParseGroup(GroupToken(g)) == Ok(g)
  {
  }

  /**
   * Each slot has exactly two synonymous tokens: its digit, which is its discriminant
   * written in decimal, and its numeral; the two differ and both parse to the slot.
   */
  lemma SlotTokensRoundTrip(x: Slot)
    ensures ParseSlot(SlotDigit(x)) == Ok(x) && ParseSlot(SlotNumeral(x)) == Ok(x)
    ensures SlotDigit(x) != SlotNumeral(x)
    ensures SlotDigit(x) == [('0' as int + SlotCode(x)) as char]
  {
  }

  /** Tokens are matched exactly: no case folding and no trimming. */
  lemma TokensAreExact()
    ensures ParseDay("mon").Err? && ParseDay("Mon ").Err?
    ensures ParseRepeat("odd").Err? && ParseGroup("K25").Err?
    ensures ParseSlot("i").Err? && ParseSlot("5").Err? && ParseSlot("").Err?
  {
  }
}
