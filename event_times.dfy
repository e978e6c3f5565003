/** The 48 half-hour slots offered by the event form for its start and end times (`timeOptions`
    of `EventCreateModal`): each slot's `HH:MM` value and its 12-hour label, and why comparing
    values as strings compares the slots. */
module EventTimes {
  import opened Text

  datatype TimeOption = TimeOption(value: string, caption: string)

  function Minute(i: nat): string {
    if i % 2 == 0 then "00" else "30"
  }

  /** Hour of the 12-hour clock: midnight and noon are 12. */
  function DisplayHour(hour: nat): (d: nat)
    ensures hour == 0 ==> d == 12
    ensures 1 <= hour <= 12 ==> d == hour
    ensures hour > 12 ==> d == hour - 12
  {
    if hour == 0 then 12 else if hour > 12 then hour - 12 else hour
  }

  function Period(hour: nat): string {
    if hour < 12 then "AM" else "PM"
  }

  /** `HH:MM`, the hour zero-padded to two digits. */
  function ValueOf(i: nat): string {
    PadStart(NatToString(i / 2), 2, '0') + ":" + Minute(i)
  }

  /** `H:MM AM` or `H:MM PM`. */
  function LabelOf(i: nat): string {
    NatToString(DisplayHour(i / 2)) + ":" + Minute(i) + " " + Period(i / 2)
  }

  /** `timeOptions`: slot `i` starts at hour `i / 2`, on the hour for even `i` and at half past
      for odd `i`. */
  const TimeOptions: seq<TimeOption> := seq(48, i requires 0 <= i => TimeOption(ValueOf(i), LabelOf(i)))

  /** An hour below 100 padded to two digits: its tens digit, then its units digit. */
  lemma PaddedHour(h: nat)
    requires h < 100
    ensures PadStart(NatToString(h), 2, '0') == [DigitChar(h / 10), DigitChar(h % 10)]
  {
    if h >= 10 {
      assert NatToString(h / 10) == [DigitChar(h / 10)];
    }
  }

  /** The five characters of a slot value. */
  lemma ValueChars(i: nat)
    requires i < 48
    ensures ValueOf(i) == [DigitChar((i / 2) / 10), DigitChar((i / 2) % 10), ':', if i % 2 == 0 then '0' else '3', '0']
  {
    var h := i / 2;
    PaddedHour(h);
    var p := PadStart(NatToString(h), 2, '0');
    var m := Minute(i);
    assert m == [if i % 2 == 0 then '0' else '3', '0'];
    JoinedChars(p, m);
  }

  /** Two two-character strings joined by ':'. */
  lemma JoinedChars(p: string, m: string)
    requires |p| == 2 && |m| == 2
    ensures p + ":" + m == [p[0], p[1], ':', m[0], m[1]]
  {
  }

  /** Comparing two five-character strings that agree at positions 2 and 4 compares positions 0,
      1 and 3 in turn. */
  lemma LexLessFive(a: string, b: string)
    requires |a| == 5 && |b| == 5 && a[2] == b[2] && a[4] == b[4]
    ensures LexLess(a, b) <==>
      a[0] < b[0] || (a[0] == b[0] && (a[1] < b[1] || (a[1] == b[1] && a[3] < b[3])))
  {
    var a1, b1 := a[1..], b[1..];
    var a2, b2 := a1[1..], b1[1..];
    var a3, b3 := a2[1..], b2[1..];
    var a4, b4 := a3[1..], b3[1..];
    assert a1[0] == a[1] && b1[0] == b[1] && a2[0] == a[2] && b2[0] == b[2];
    assert a3[0] == a[3] && b3[0] == b[3] && a4[0] == a[4] && b4[0] == b[4];
    assert LexLess(a4, b4) == LexLess(a4[1..], b4[1..]);
    assert a4[1..] == [] && b4[1..] == [];
    assert !LexLess(a4, b4);
    assert LexLess(a2, b2) == LexLess(a3, b3);
  }

  /** The slot number is ordered like its tens-of-hours digit, then its hours digit, then its
      half-hour. */
  lemma SlotDigitsOrder(i: nat, j: nat)
    requires i < 48 && j < 48
    ensures i < j <==> (i / 2) / 10 < (j / 2) / 10 || ((i / 2) / 10 == (j / 2) / 10
                       && ((i / 2) % 10 < (j / 2) % 10 || ((i / 2) % 10 == (j / 2) % 10 && i % 2 < j % 2)))
  {
    var h, k := i / 2, j / 2;
    assert i == 2 * h + i % 2 && j == 2 * k + j % 2;
    assert h == 10 * (h / 10) + h % 10 && k == 10 * (k / 10) + k % 10;
  }

  /** Zero padding makes the string order of slot values the order of the slots, which is what
      the `startTime >= endTime` check relies on; in particular different slots have different
      values. */
  lemma ValueOrderIsSlotOrder(i: nat, j: nat)
    requires i < 48 && j < 48
    ensures LexLess(ValueOf(i), ValueOf(j)) <==> i < j
    ensures ValueOf(i) == ValueOf(j) <==> i == j
  {
    ValueChars(i);
    ValueChars(j);
    CharsOrder(ValueOf(i), ValueOf(j), i, j);
  }

  /** The comparison itself, on the characters of two slot values. */
  lemma CharsOrder(vi: string, vj: string, i: nat, j: nat)
    requires i < 48 && j < 48
    requires vi == [DigitChar((i / 2) / 10), DigitChar((i / 2) % 10), ':', if i % 2 == 0 then '0' else '3', '0']
    requires vj == [DigitChar((j / 2) / 10), DigitChar((j / 2) % 10), ':', if j % 2 == 0 then '0' else '3', '0']
    ensures LexLess(vi, vj) <==> i < j
    ensures vi == vj <==> i == j
  {
    LexLessFive(vi, vj);
    var a, b, c := (i / 2) / 10, (i / 2) % 10, i % 2;
    var x, y, z := (j / 2) / 10, (j / 2) % 10, j % 2;
    DigitCharOrder(a, x);
    DigitCharOrder(b, y);
    SlotDigitsOrder(i, j);
    SlotDigitsOrder(j, i);
    if a != x {
      assert vi[0] != vj[0];
    } else if b != y {
      assert vi[0] == vj[0] && vi[1] != vj[1];
    } else if c != z {
      assert vi[0] == vj[0] && vi[1] == vj[1] && vi[3] != vj[3];
      assert vi[3] < vj[3] <==> c < z;
    }
  }

  /** Digit characters are ordered like the digits. */
  lemma DigitCharOrder(x: nat, y: nat)
    requires x < 10 && y < 10
    ensures DigitChar(x) < DigitChar(y) <==> x < y
    ensures DigitChar(x) == DigitChar(y) <==> x == y
  {
  }

  /** The table has 48 slots whose values rise strictly with the slot number. */
  lemma TimeOptionsAscending()
    ensures |TimeOptions| == 48
    ensures forall i, j :: 0 <= i < j < 48 ==> LexLess(TimeOptions[i].value, TimeOptions[j].value)
  {
    forall i, j | 0 <= i < j < 48
      ensures LexLess(TimeOptions[i].value, TimeOptions[j].value)
    {
      ValueOrderIsSlotOrder(i, j);
    }
  }

  /** The hour read off a label, with `pm` its period. */
  function HourFromLabel(display: nat, pm: bool): nat {
    display % 12 + if pm then 12 else 0
  }

  /** A label names its slot's hour on a 12-hour clock: the displayed hour runs from 1 to 12, the
      period is AM exactly before noon, and together they give back the 24-hour hour. */
  lemma LabelNamesHour(i: nat)
    requires i < 48
    ensures 1 <= DisplayHour(i / 2) <= 12
    ensures Period(i / 2) == "AM" <==> i / 2 < 12
    ensures HourFromLabel(DisplayHour(i / 2), Period(i / 2) == "PM") == i / 2
    ensures LabelOf(i) == NatToString(DisplayHour(i / 2)) + ":" + Minute(i) + " " + Period(i / 2)
  {
  }
}
