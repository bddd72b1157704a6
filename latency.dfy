/**
 * The sync-latency helpers of the dashboard data (`data/MockReports.ts`):
 * the whole seconds between a report's creation and its sync, and their
 * display as "<s>s" or "<m>m <r>s".
 */
module Latency {
  import opened Common
  import opened JsText

  /** A latency as the helpers pass it around: `null`, a whole number of seconds, or NaN. */
  datatype Latency = NoLatency | Seconds(s: int) | NotANumber

  /**
   * `Math.round(d / 1000)` for a whole number of milliseconds `d`: the
   * nearest whole second, halves rounded up (towards +infinity).
   */
  function RoundMillisToSeconds(d: int): (r: int)
    ensures 1000 * r - 500 <= d < 1000 * r + 500
  {
    (d + 500) / 1000
  }

  /** The rounding bound above determines the result: no other whole second lies that close. */
  lemma RoundingIsUnique(d: int, r: int)
    requires 1000 * r - 500 <= d < 1000 * r + 500
    ensures r == RoundMillisToSeconds(d)
  {
    var q := RoundMillisToSeconds(d);
    if r < q {
      assert false;
    } else if r > q {
      assert false;
    }
  }

  /**
   * `getSyncLatency` over a dashboard report's `createdAtLocal` and
   * `syncedAt`: no latency when either is missing or empty; NaN when either
   * timestamp does not parse (`parseTime` stands for `new Date(t).getTime()`);
   * otherwise the rounded difference in seconds, which is negative when the
   * sync stamp precedes the creation.
   */
  function GetSyncLatency(createdAtLocal: string, syncedAt: Option<string>, parseTime: string -> Option<int>): (l: Latency)
    ensures l == NoLatency <==> syncedAt.None? || syncedAt.value == "" || createdAtLocal == ""
    ensures l == NotANumber <==>
              && syncedAt.Some? && syncedAt.value != "" && createdAtLocal != ""
              && (parseTime(createdAtLocal).None? || parseTime(syncedAt.value).None?)
    ensures l.Seconds? ==>
              var d := parseTime(syncedAt.value).value - parseTime(createdAtLocal).value;
              1000 * l.s - 500 <= d < 1000 * l.s + 500
  {
    if syncedAt.None? || syncedAt.value == "" || createdAtLocal == "" then
      NoLatency
    else
      var created := parseTime(createdAtLocal);
      var synced := parseTime(syncedAt.value);
      if created.None? || synced.None? then NotANumber
      else Seconds(RoundMillisToSeconds(synced.value - created.value))
  }

  const EmDash: string := "\U{2014}"

  /** `formatLatency`: a dash for no latency, "<s>s" below a minute, "<m>m <r>s" from a minute on. */
  function FormatLatency(l: Latency): (t: string)
    ensures l == NoLatency ==> t == EmDash
    ensures l == NotANumber ==> t == "NaNm NaNs"
    ensures l.Seconds? && l.s < 60 ==> t == IntToString(l.s) + "s"
    ensures l.Seconds? && l.s >= 60 ==>
              exists m: nat, r: nat {:trigger NatToString(m), NatToString(r)} ::
                && t == NatToString(m) + "m " + NatToString(r) + "s"
                && 60 * m + r == l.s && r < 60 && m >= 1
  {
    match l
    case NoLatency => EmDash
    case NotANumber => "NaNm NaNs"
    case Seconds(s) =>
      if s < 60 then IntToString(s) + "s"
      else
        var m: nat := s / 60;
        var r: nat := s % 60;
        assert 60 * m + r == s;
        NatToString(m) + "m " + NatToString(r) + "s"
  }

  lemma NatToStringInjective(a: nat, b: nat)
    requires NatToString(a) == NatToString(b)
    ensures a == b
  {
    NatToStringRoundTrip(a);
    NatToStringRoundTrip(b);
  }

  lemma IntToStringInjective(a: int, b: int)
    requires IntToString(a) == IntToString(b)
    ensures a == b
  {
    if a < 0 && b < 0 {
      assert IntToString(a)[1..] == NatToString(-a);
      assert IntToString(b)[1..] == NatToString(-b);
      NatToStringInjective(-a, -b);
    } else if a >= 0 && b >= 0 {
      NatToStringInjective(a, b);
    }
  }

  /** The short form holds no 'm'. */
  lemma ShortFormHasNoMinutes(s: int)
    ensures 'm' !in IntToString(s) + "s"
  {
    var t := IntToString(s) + "s";
    forall i | 0 <= i < |t| ensures t[i] != 'm' {
      if i == |t| - 1 {
      } else if s < 0 && i == 0 {
      } else if s < 0 {
        assert t[i] == NatToString(-s)[i - 1];
      } else {
        assert t[i] == NatToString(s)[i];
      }
    }
  }

  /** The long form is decided by its two numbers. */
  lemma {:induction false} LongFormInjective(m: nat, r: nat, m': nat, r': nat)
    requires NatToString(m) + "m " + NatToString(r) + "s" == NatToString(m') + "m " + NatToString(r') + "s"
    ensures m == m' && r == r'
  {
    var a, a' := NatToString(m), NatToString(m');
    var t := a + "m " + NatToString(r) + "s";
    var t' := a' + "m " + NatToString(r') + "s";
    assert |a| == |a'| by {
      assert t[|a|] == 'm' && t'[|a'|] == 'm';
      assert forall i :: 0 <= i < |a| ==> t[i] == a[i];
      assert forall i :: 0 <= i < |a'| ==> t'[i] == a'[i];
    }
    assert a == t[..|a|] && a' == t'[..|a'|];
    NatToStringInjective(m, m');
    assert NatToString(r) == t[|a| + 2..|t| - 1];
    assert NatToString(r') == t'[|a'| + 2..|t'| - 1];
    NatToStringInjective(r, r');
  }

  /** Two different whole-second latencies are never displayed alike. */
  lemma {:induction false} FormatLatencyInjective(s: int, s': int)
    requires FormatLatency(Seconds(s)) == FormatLatency(Seconds(s'))
    ensures s == s'
  {
    var t := FormatLatency(Seconds(s));
    if s < 60 && s' < 60 {
      assert IntToString(s) == t[..|t| - 1] == IntToString(s');
      IntToStringInjective(s, s');
    } else if s >= 60 && s' >= 60 {
      LongFormInjective(s / 60, s % 60, s' / 60, s' % 60);
    } else if s < 60 {
      ShortFormHasNoMinutes(s);
      assert false;
    } else {
      ShortFormHasNoMinutes(s');
      assert false;
    }
  }
}
