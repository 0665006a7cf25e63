/** The hour/minute/second part of an ISO 8601 duration ("format with
    designators", section 4.4.3.2 of ISO 8601:2004) as the video-record builder
    reads it: the pattern `PT(?:(\d+)H)?(?:(\d+)M)?(?:(\d+)S)?` searched for
    anywhere in the text, absent components counting as 0, and -1 when the
    text contains no `PT` at all. */
module IsoDuration {
  import opened Wrappers
  import opened Text

  predicate IsDigit(c: char) {
    '0' <= c <= '9'
  }

  function DigitValue(c: char): nat
    requires IsDigit(c)
  {
    (c as int - '0' as int) as nat
  }

  /** The end of the run of digits starting at `i` (the greedy `\d+`/`\d*`). */
  function DigitRunEnd(s: string, i: nat): (r: nat)
    requires i <= |s|
    ensures i <= r <= |s|
    ensures forall k :: i <= k < r ==> IsDigit(s[k])
    ensures r == |s| || !IsDigit(s[r])
    decreases |s| - i
  {
    if i < |s| && IsDigit(s[i]) then DigitRunEnd(s, i + 1) else i
  }

  /** The value of a run of decimal digits (`int(...)` on it). */
  function DecimalValue(t: string): nat
    requires forall k :: 0 <= k < |t| ==> IsDigit(t[k])
  {
    if t == [] then 0 else 10 * DecimalValue(t[..|t| - 1]) + DigitValue(t[|t| - 1])
  }

  /** What one optional group `(?:(\d+)X)?` captures at `i`, and where the
      match continues. */
  datatype Part = Part(value: Option<nat>, next: nat)

  function Designated(s: string, i: nat, d: char): (r: Part)
    requires i <= |s|
    ensures r.next <= |s|
    ensures r.value.None? ==> r.next == i
    ensures r.value.Some? ==> i < r.next - 1 && s[r.next - 1] == d
    ensures r.value.Some? ==>
      (forall k :: i <= k < r.next - 1 ==> IsDigit(s[k])) && r.value.value == DecimalValue(s[i..r.next - 1])
    ensures r.value.Some? <==> (var j := DigitRunEnd(s, i); i < j < |s| && s[j] == d)
  {
    var j := DigitRunEnd(s, i);
    if i < j && j < |s| && s[j] == d then Part(Some(DecimalValue(s[i..j])), j + 1) else Part(None, i)
  }

  /** A group captures exactly when a non-empty run of digits at `i` is followed
      by its designator, and it then captures that whole run. */
  lemma {:induction false} DesignatedIff(s: string, i: nat, d: char)
    requires i <= |s|
    requires !IsDigit(d)
    ensures Designated(s, i, d).value.Some? <==>
      exists j :: i < j < |s| && s[j] == d && forall k :: i <= k < j ==> IsDigit(s[k])
    ensures forall j :: i < j < |s| && s[j] == d && (forall k :: i <= k < j ==> IsDigit(s[k])) ==>
      Designated(s, i, d) == Part(Some(DecimalValue(s[i..j])), j + 1)
  {
    forall j | i < j < |s| && s[j] == d && (forall k :: i <= k < j ==> IsDigit(s[k]))
      ensures Designated(s, i, d) == Part(Some(DecimalValue(s[i..j])), j + 1)
    {
      RunEndsAt(s, i, j);
    }
    if Designated(s, i, d).value.Some? {
      var j := DigitRunEnd(s, i);
      assert i < j < |s| && s[j] == d && forall k :: i <= k < j ==> IsDigit(s[k]);
    }
  }

  /** The duration in seconds, or -1 when the search finds no match. */
  function Duration(s: string): (r: int)
    ensures r == -1 <==> !Contains(s, "PT")
    ensures r != -1 ==> r >= 0
  {
    match IndexOf(s, "PT")
    case None => -1
    case Some(k) =>
      var h := Designated(s, k + 2, 'H');
      var m := Designated(s, h.next, 'M');
      var sec := Designated(s, m.next, 'S');
      3600 * h.value.GetOr(0) + 60 * m.value.GetOr(0) + sec.value.GetOr(0)
  }

  /** Once the first `PT` is known, the duration is the sum of the three groups read after it. */
  lemma DurationFromFirstPT(s: string, k: nat)
    requires OccursAt(s, "PT", k)
    requires forall j :: 0 <= j < k ==> !OccursAt(s, "PT", j)
    ensures var h := Designated(s, k + 2, 'H');
      var m := Designated(s, h.next, 'M');
      Duration(s) == 3600 * h.value.GetOr(0) + 60 * m.value.GetOr(0) + Designated(s, m.next, 'S').value.GetOr(0)
  {
    assert IndexOf(s, "PT") == Some(k);
  }

  /** The decimal spelling of `n`, no leading zeros. */
  function NatToDecimal(n: nat): (r: string)
    ensures |r| >= 1
    ensures forall k :: 0 <= k < |r| ==> IsDigit(r[k])
  {
    if n < 10 then [('0' as int + n) as char]
    else NatToDecimal(n / 10) + [('0' as int + n % 10) as char]
  }

  lemma {:induction false} DecimalRoundTrip(n: nat)
    ensures DecimalValue(NatToDecimal(n)) == n
  {
    if n >= 10 {
      var t := NatToDecimal(n);
      assert t[..|t| - 1] == NatToDecimal(n / 10);
      DecimalRoundTrip(n / 10);
    }
  }

  /** One component written with its designator, or nothing. */
  function Component(v: Option<nat>, d: char): string {
    if v.None? then "" else NatToDecimal(v.value) + [d]
  }

  /** The `PT#H#M#S` text of a duration, each component optional. */
  function FormatDuration(h: Option<nat>, m: Option<nat>, s: Option<nat>): string {
    "PT" + Component(h, 'H') + Component(m, 'M') + Component(s, 'S')
  }

  /** A digit run that stops at a non-digit ends exactly there. */
  lemma RunEndsAt(s: string, i: nat, j: nat)
    requires i <= j <= |s|
    requires forall k :: i <= k < j ==> IsDigit(s[k])
    requires j == |s| || !IsDigit(s[j])
    ensures DigitRunEnd(s, i) == j
  {
  }

  /** The group for designator `d` reads the component written at `i` with the
      designator `e`: its value when `e == d`, nothing otherwise. */
  lemma ReadComponent(s: string, i: nat, v: Option<nat>, e: char, d: char)
    requires i + |Component(v, e)| <= |s|
    requires s[i..i + |Component(v, e)|] == Component(v, e)
    requires !IsDigit(e) && !IsDigit(d)
    requires v.None? ==> i == |s|
    ensures v.Some? && e == d ==> Designated(s, i, d) == Part(v, i + |Component(v, e)|)
    ensures v.Some? && e != d ==> Designated(s, i, d) == Part(None, i)
    ensures v.None? ==> Designated(s, i, d) == Part(None, i)
  {
    if v.Some? {
      var t := NatToDecimal(v.value);
      assert forall k :: i <= k < i + |t| ==> s[k] == t[k - i];
      RunEndsAt(s, i, i + |t|);
      assert s[i + |t|] == e;
      assert s[i..i + |t|] == t;
      DecimalRoundTrip(v.value);
    } else {
      RunEndsAt(s, i, i);
    }
  }

  /** Where the three groups start in a written duration. */
  function HStart(): nat { 2 }

  function MStart(h: Option<nat>): nat { 2 + |Component(h, 'H')| }

  function SStart(h: Option<nat>, m: Option<nat>): nat { MStart(h) + |Component(m, 'M')| }

  lemma Layout(h: Option<nat>, m: Option<nat>, sec: Option<nat>)
    ensures var s := FormatDuration(h, m, sec);
      |s| == SStart(h, m) + |Component(sec, 'S')| &&
      s[2..MStart(h)] == Component(h, 'H') &&
      s[MStart(h)..SStart(h, m)] == Component(m, 'M') &&
      s[SStart(h, m)..] == Component(sec, 'S') &&
      s[MStart(h)..] == Component(m, 'M') + Component(sec, 'S')
  {
    Pieces("PT", Component(h, 'H'), Component(m, 'M'), Component(sec, 'S'));
  }

  lemma Pieces<T>(p: seq<T>, a: seq<T>, b: seq<T>, c: seq<T>)
    ensures var s := p + a + b + c;
      |s| == |p| + |a| + |b| + |c| &&
      s[|p|..|p| + |a|] == a &&
      s[|p| + |a|..|p| + |a| + |b|] == b &&
      s[|p| + |a| + |b|..] == c &&
      s[|p| + |a|..] == b + c
  {
    var s := p + a + b + c;
    assert s[|p|..] == a + b + c;
    assert s[|p| + |a|..] == b + c;
  }

  lemma ReadHours(h: Option<nat>, m: Option<nat>, sec: Option<nat>)
    ensures Designated(FormatDuration(h, m, sec), 2, 'H') == Part(h, MStart(h))
  {
    var s := FormatDuration(h, m, sec);
    Layout(h, m, sec);
    if h.Some? {
      ReadComponent(s, 2, h, 'H', 'H');
    } else if m.Some? {
      assert s[2..2 + |Component(m, 'M')|] == Component(m, 'M');
      ReadComponent(s, 2, m, 'M', 'H');
    } else if sec.Some? {
      ReadComponent(s, 2, sec, 'S', 'H');
    } else {
      ReadComponent(s, 2, h, 'H', 'H');
    }
  }

  lemma ReadMinutes(h: Option<nat>, m: Option<nat>, sec: Option<nat>)
    ensures Designated(FormatDuration(h, m, sec), MStart(h), 'M') == Part(m, SStart(h, m))
  {
    var s := FormatDuration(h, m, sec);
    var i := MStart(h);
    Layout(h, m, sec);
    if m.Some? {
      ReadComponent(s, i, m, 'M', 'M');
    } else if sec.Some? {
      ReadComponent(s, i, sec, 'S', 'M');
    } else {
      ReadComponent(s, i, m, 'M', 'M');
    }
  }

  lemma ReadSeconds(h: Option<nat>, m: Option<nat>, sec: Option<nat>)
    ensures Designated(FormatDuration(h, m, sec), SStart(h, m), 'S').value == sec
  {
    Layout(h, m, sec);
    ReadComponent(FormatDuration(h, m, sec), SStart(h, m), sec, 'S', 'S');
  }

  /** Reading back a written duration gives 3600·H + 60·M + S, absent
      components counting as 0. */
  lemma DurationRoundTrip(h: Option<nat>, m: Option<nat>, sec: Option<nat>)
    ensures Duration(FormatDuration(h, m, sec)) == 3600 * h.GetOr(0) + 60 * m.GetOr(0) + sec.GetOr(0)
  {
    var s := FormatDuration(h, m, sec);
    assert s[0..2] == "PT";
    assert OccursAt(s, "PT", 0);
    ReadHours(h, m, sec);
    ReadMinutes(h, m, sec);
    ReadSeconds(h, m, sec);
    DurationFromFirstPT(s, 0);
  }

  /** A duration with a day part (`P1DT2H`) has no `PT` and stays -1. */
  lemma DayDurationIsMinusOne()
    ensures Duration("P1DT2H") == -1
  {
    var s := "P1DT2H";
    assert forall k :: 0 <= k < |s| - 1 ==> s[k] != 'P' || s[k + 1] != 'T';
    forall k
      ensures !OccursAt(s, "PT", k)
    {
      if 0 <= k && k + 2 <= |s| {
        assert s[k..k + 2][0] == s[k] && s[k..k + 2][1] == s[k + 1];
      }
    }
  }
}
