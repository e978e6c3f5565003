/** The "time ago" bucketing shared by the feed's post and comment timestamps and the
    notification list: whole seconds under a minute, then whole minutes, hours and days. */
module TimeAgo {
  import opened Text
  import opened Wrappers

  datatype Unit = Seconds | Minutes | Hours | Days

  /** A rounded-down age: `amount` whole units. */
  datatype Ago = Ago(amount: int, unit: Unit)

  /** The bucket for an age of `diff` whole seconds (which is negative for a future date). Each
      unit's amount is `diff` divided by the unit's length rounded down, and each unit is used
      exactly on its range. */
  function Bucket(diff: int): (a: Ago)
    ensures a.unit == Seconds <==> diff < 60
    ensures a.unit == Minutes <==> 60 <= diff < 3600
    ensures a.unit == Hours <==> 3600 <= diff < 86400
    ensures a.unit == Days <==> 86400 <= diff
    ensures a.unit == Seconds ==> a.amount == diff
    ensures a.unit == Minutes ==> 1 <= a.amount < 60 && a.amount * 60 <= diff < a.amount * 60 + 60
    ensures a.unit == Hours ==> 1 <= a.amount < 24 && a.amount * 3600 <= diff < a.amount * 3600 + 3600
    ensures a.unit == Days ==> 1 <= a.amount && a.amount * 86400 <= diff < a.amount * 86400 + 86400
  {
    if diff < 60 then Ago(diff, Seconds)
    else if diff < 3600 then Ago(diff / 60, Minutes)
    else if diff < 86400 then Ago(diff / 3600, Hours)
    else Ago(diff / 86400, Days)
  }

  function UnitLetter(u: Unit): char {
    match u
    case Seconds => 's'
    case Minutes => 'm'
    case Hours => 'h'
    case Days => 'd'
  }

  /** `${amount}` followed by the unit's letter. */
  function Render(a: Ago): string {
    IntToString(a.amount) + [UnitLetter(a.unit)]
  }

  function LetterUnit(c: char): Option<Unit> {
    if c == 's' then Some(Seconds)
    else if c == 'm' then Some(Minutes)
    else if c == 'h' then Some(Hours)
    else if c == 'd' then Some(Days)
    else None
  }

  /** Reads a rendered age back: a decimal followed by a unit letter. */
  function Parse(s: string): Option<Ago> {
    if |s| == 0 then None
    else
      match LetterUnit(s[|s| - 1])
      case None => None
      case Some(u) => if IsDecimal(s[..|s| - 1]) then Some(Ago(DecimalValue(s[..|s| - 1]), u)) else None
  }

  /** A rendered age reads back as itself, so the text shown determines the bucket. */
  lemma ParseRender(a: Ago)
    ensures Parse(Render(a)) == Some(a)
  {
    var s := Render(a);
    assert s[..|s| - 1] == IntToString(a.amount);
    IntToStringRoundTrip(a.amount);
  }
}
