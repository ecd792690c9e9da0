/** Instance settings: what `validate` accepts and rewrites, and the conversion the cadence lane relies on. */
module Settings {
  import opened Text
  import opened Selections
  import Cad = Cadence

  /** The timing columns of `instance_settings`. */
  datatype Timing = Timing(
    enabled: bool,
    initialMinSec: int, initialMaxSec: int,
    baseMinSec: int, baseMaxSec: int,
    providerMinMs: int, providerMaxMs: int,
    burstMin: int, burstMax: int,
    pauseMinSec: int, pauseMaxSec: int)

  predicate InRange(t: Timing) {
    && 0 <= t.initialMinSec <= t.initialMaxSec && 0 <= t.baseMinSec <= t.baseMaxSec
    && 0 <= t.providerMinMs <= t.providerMaxMs && 1 <= t.burstMin <= t.burstMax
    && 0 <= t.pauseMinSec <= t.pauseMaxSec
  }

  // ------------------------------------------------------------ subscriptions

  /** The non-empty subscriptions, trimmed and in upper case, in order. */
  function Cleaned(events: seq<string>, up: char -> char): seq<string> {
    if events == [] then []
    else
      var value := Upper(Trim(events[|events| - 1]), up);
      Cleaned(events[..|events| - 1], up) + (if value != "" then [value] else [])
  }

  function Normalized(events: seq<string>, defaults: seq<string>, up: char -> char): seq<string> {
    if Cleaned(events, up) == [] then defaults else Cleaned(events, up)
  }

  /** `out` holds the subscriptions that are not blank, all of them and in order, each without the blanks around it and
      in upper case. */
  ghost predicate Tidied(events: seq<string>, out: seq<string>, up: char -> char) {
    exists at :: Picks(events, at) && |at| == |out| && forall k :: 0 <= k < |at| ==> Shouted(events[at[k]], out[k], up)
  }

  ghost predicate Shouted(raw: string, out: string, up: char -> char) {
    exists t :: Unpadded(raw, t) && |out| == |t| && forall j :: 0 <= j < |t| ==> out[j] == up(t[j])
  }

  lemma {:induction false} CleanedIsKept(events: seq<string>, up: char -> char)
    ensures |Cleaned(events, up)| == |Kept(events)|
    ensures forall k :: 0 <= k < |Kept(events)| ==> Cleaned(events, up)[k] == Upper(Kept(events)[k], up)
  {
    hide Trim;
    if events != [] {
      CleanedIsKept(events[..|events| - 1], up);
    }
  }

  lemma UpperIsShouted(raw: string, t: string, up: char -> char)
    requires Unpadded(raw, t)
    ensures Shouted(raw, Upper(t, up), up)
  {
    hide Unpadded;
  }

  lemma AllShouted(events: seq<string>, at: seq<nat>, kept: seq<string>, out: seq<string>, up: char -> char)
    requires Picks(events, at) && |at| == |kept| == |out|
    requires forall k :: 0 <= k < |at| ==> Unpadded(events[at[k]], kept[k])
    requires forall k :: 0 <= k < |at| ==> out[k] == Upper(kept[k], up)
    ensures Tidied(events, out, up)
  {
    hide Unpadded, IsBlank, Upper, Shouted;
    forall k | 0 <= k < |at| ensures Shouted(events[at[k]], out[k], up) {
      UpperIsShouted(events[at[k]], kept[k], up);
    }
  }

  lemma CleanedIsTidied(events: seq<string>, up: char -> char)
    ensures Tidied(events, Cleaned(events, up), up)
    ensures Cleaned(events, up) == [] <==> forall i :: 0 <= i < |events| ==> IsBlank(events[i])
  {
    hide Unpadded, IsBlank, Kept, Cleaned, Tidied, Upper;
    CleanedIsKept(events, up);
    KeptIff(events);
    var at := KeptAt(events);
    AllShouted(events, at, Kept(events), Cleaned(events, up), up);
  }

  class InstanceSettings {
    var timing: Timing
    var subscriptions: seq<string>

    constructor (timing: Timing, subscriptions: seq<string>)
      ensures this.timing == timing && this.subscriptions == subscriptions
    {
      this.timing, this.subscriptions := timing, subscriptions;
    }

    /** `validate`: rejects bad ranges untouched, otherwise rewrites the subscriptions. */
    method Validate(defaults: seq<string>, up: char -> char) returns (ok: bool)
      modifies this
      ensures ok <==> InRange(old(timing))
      ensures timing == old(timing)
      ensures subscriptions == if ok then Normalized(old(subscriptions), defaults, up) else old(subscriptions)
      ensures ok ==>
                if forall i :: 0 <= i < |old(subscriptions)| ==> IsBlank(old(subscriptions)[i])
                then subscriptions == defaults
                else Tidied(old(subscriptions), subscriptions, up)
    {
      hide Tidied, IsBlank, Trim, Upper;
      CleanedIsTidied(subscriptions, up);
      if timing.initialMinSec < 0 || timing.initialMaxSec < timing.initialMinSec
         || timing.baseMinSec < 0 || timing.baseMaxSec < timing.baseMinSec
         || timing.providerMinMs < 0 || timing.providerMaxMs < timing.providerMinMs
         || timing.burstMin <= 0 || timing.burstMax < timing.burstMin
         || timing.pauseMinSec < 0 || timing.pauseMaxSec < timing.pauseMinSec
      {
        return false;
      }
      var kept: seq<string> := [];
      for i := 0 to |subscriptions|
        invariant kept == Cleaned(subscriptions[..i], up)
        invariant timing == old(timing) && subscriptions == old(subscriptions)
      {
        assert subscriptions[..i + 1][..i] == subscriptions[..i];
        var value := Upper(Trim(subscriptions[i]), up);
        if value != "" {
          kept := kept + [value];
        }
      }
      assert subscriptions[..|subscriptions|] == subscriptions;
      if |kept| == 0 {
        kept := defaults;
      }
      subscriptions := kept;
      return true;
    }
  }

  // ------------------------------------------------------- saving twice is safe

  predicate Tidy(s: string, up: char -> char) {
    s != "" && !IsSpace(s[0]) && !IsSpace(s[|s| - 1]) && Upper(s, up) == s
  }

  lemma CleanedValueIsTidy(s: string, up: char -> char)
    requires UpperCase(up)
    ensures Upper(Trim(s), up) == "" || Tidy(Upper(Trim(s), up), up)
  {
    TrimIsTrimmed(s);
    assert Upper(Upper(Trim(s), up), up) == Upper(Trim(s), up);
  }

  lemma {:induction false} CleanedIsTidy(events: seq<string>, up: char -> char)
    requires UpperCase(up)
    ensures forall i :: 0 <= i < |Cleaned(events, up)| ==> Tidy(Cleaned(events, up)[i], up)
  {
    if events != [] {
      CleanedIsTidy(events[..|events| - 1], up);
      CleanedValueIsTidy(events[|events| - 1], up);
    }
  }

  lemma {:induction false} TidyIsKept(events: seq<string>, up: char -> char)
    requires forall i :: 0 <= i < |events| ==> Tidy(events[i], up)
    ensures Cleaned(events, up) == events
  {
    if events != [] {
      var n := |events| - 1;
      TidyIsKept(events[..n], up);
      assert Tidy(events[n], up);
      assert Trim(events[n]) == events[n];
      assert events == events[..n] + [events[n]];
    }
  }

  lemma {:induction false} CleanedEmptyIff(events: seq<string>, up: char -> char)
    ensures Cleaned(events, up) == [] <==> forall i :: 0 <= i < |events| ==> Trim(events[i]) == ""
  {
    if events != [] {
      var n := |events| - 1;
      CleanedEmptyIff(events[..n], up);
      assert forall i :: 0 <= i < n ==> events[..n][i] == events[i];
      assert Upper(Trim(events[n]), up) == "" <==> Trim(events[n]) == "";
    }
  }

  /** Validating what a validation stored changes nothing, unless the stored list is the defaults and these are neither
      all tidy (trimmed and in upper case) nor all blank. */
  lemma NormalizedTwiceIff(events: seq<string>, defaults: seq<string>, up: char -> char)
    requires UpperCase(up)
    ensures Normalized(Normalized(events, defaults, up), defaults, up) == Normalized(events, defaults, up) <==>
              || (exists i :: 0 <= i < |events| && Trim(events[i]) != "")
              || (forall i :: 0 <= i < |defaults| ==> Tidy(defaults[i], up))
              || (forall i :: 0 <= i < |defaults| ==> Trim(defaults[i]) == "")
  {
    CleanedEmptyIff(events, up);
    if Cleaned(events, up) != [] {
      CleanedIsTidy(events, up);
      TidyIsKept(Cleaned(events, up), up);
    } else {
      CleanedEmptyIff(defaults, up);
      CleanedIsTidy(defaults, up);
      if forall i :: 0 <= i < |defaults| ==> Tidy(defaults[i], up) {
        TidyIsKept(defaults, up);
      }
    }
  }

  /** The configured default may be such a list: it is stored as it is, and upper-cased by the next validation. */
  lemma LowerCaseDefaultChanges(up: char -> char)
    requires UpperCase(up)
    ensures Normalized([], ["all"], up) == ["all"] && Normalized(["all"], ["all"], up) == ["ALL"]
  {
    TrimUnpads("", "all", "");
    assert "" + "all" + "" == "all";
    assert Upper("all", up) == "ALL";
    assert ["all"][..0] == [];
  }

  // ------------------------------------------------------------- 64-bit safety

  const TWO_63: int := 0x8000_0000_0000_0000
  const TWO_64: int := 0x1_0000_0000_0000_0000
  const TWO_31: int := 0x8000_0000
  const SECOND: int := 1_000_000_000
  const MILLISECOND: int := 1_000_000

  predicate Int64(x: int) {
    -TWO_63 <= x < TWO_63
  }

  /** Go's int64 arithmetic. */
  function Wrap(x: int): (r: int)
    ensures Int64(r) && (r - x) % TWO_64 == 0
  {
    (x + TWO_63) % TWO_64 - TWO_63
  }

  lemma WrapIsExact(x: int)
    requires Int64(x)
    ensures Wrap(x) == x
  {
  }

  /** `HumanizerConfig`, in int64 arithmetic. */
  function ToHumanizer(t: Timing): Cad.Humanizer {
    Cad.Humanizer(t.enabled,
                  Wrap(t.initialMinSec * SECOND), Wrap(t.initialMaxSec * SECOND),
                  Wrap(t.baseMinSec * SECOND), Wrap(t.baseMaxSec * SECOND),
                  Wrap(t.providerMinMs * MILLISECOND), Wrap(t.providerMaxMs * MILLISECOND),
                  t.burstMin, t.burstMax,
                  Wrap(t.pauseMinSec * SECOND), Wrap(t.pauseMaxSec * SECOND))
  }

  /** The values fit the INTEGER columns. */
  predicate FitsColumns(t: Timing) {
    && FitsColumn(t.initialMinSec) && FitsColumn(t.initialMaxSec) && FitsColumn(t.baseMinSec)
    && FitsColumn(t.baseMaxSec) && FitsColumn(t.providerMinMs) && FitsColumn(t.providerMaxMs)
    && FitsColumn(t.burstMin) && FitsColumn(t.burstMax) && FitsColumn(t.pauseMinSec) && FitsColumn(t.pauseMaxSec)
  }

  predicate FitsColumn(x: int) {
    -TWO_31 <= x < TWO_31
  }

  /** The argument of Int63n or Intn for a range: int64 arithmetic, positive when drawn. */
  predicate SafeRange(min: int, max: int) {
    Int64(min) && Int64(max) && Int64(max - min) && Int64(max - min + 1) && (max > min ==> max - min + 1 > 0)
  }

  /** Every settings record that passes `validate` and fits its columns converts without overflow to the
      ranges the lane assumes, and every random draw is well defined. */
  lemma CadenceArithmeticIsSafe(t: Timing)
    requires InRange(t) && FitsColumns(t)
    ensures var h := ToHumanizer(t);
            && Cad.ValidRanges(h)
            && h.enabled == t.enabled && h.burstMin == t.burstMin && h.burstMax == t.burstMax
            && h.initialMin == t.initialMinSec * SECOND && h.initialMax == t.initialMaxSec * SECOND
            && h.baseMin == t.baseMinSec * SECOND && h.baseMax == t.baseMaxSec * SECOND
            && h.providerMin == t.providerMinMs * MILLISECOND && h.providerMax == t.providerMaxMs * MILLISECOND
            && h.pauseMin == t.pauseMinSec * SECOND && h.pauseMax == t.pauseMaxSec * SECOND
            && SafeRange(h.initialMin, h.initialMax) && SafeRange(h.baseMin, h.baseMax)
            && SafeRange(h.providerMin, h.providerMax) && SafeRange(h.burstMin, h.burstMax)
            && SafeRange(h.pauseMin, h.pauseMax)
  {
    WrapIsExact(t.initialMinSec * SECOND);
    WrapIsExact(t.initialMaxSec * SECOND);
    WrapIsExact(t.baseMinSec * SECOND);
    WrapIsExact(t.baseMaxSec * SECOND);
    WrapIsExact(t.providerMinMs * MILLISECOND);
    WrapIsExact(t.providerMaxMs * MILLISECOND);
    WrapIsExact(t.pauseMinSec * SECOND);
    WrapIsExact(t.pauseMaxSec * SECOND);
  }

  /** Validation accepts exactly the records that convert to ranges a lane can work with. */
  lemma AcceptedIffUsable(t: Timing)
    requires FitsColumns(t)
    ensures InRange(t) <==> Cad.ValidRanges(ToHumanizer(t))
  {
    WrapIsExact(t.initialMinSec * SECOND);
    WrapIsExact(t.initialMaxSec * SECOND);
    WrapIsExact(t.baseMinSec * SECOND);
    WrapIsExact(t.baseMaxSec * SECOND);
    WrapIsExact(t.providerMinMs * MILLISECOND);
    WrapIsExact(t.providerMaxMs * MILLISECOND);
    WrapIsExact(t.pauseMinSec * SECOND);
    WrapIsExact(t.pauseMaxSec * SECOND);
  }

  /** The delay that the provider is asked to make is one of the configured milliseconds, and every one of them can be
      drawn. */
  lemma ProviderDelayIsConfigured(t: Timing, draw: nat, ms: int)
    requires InRange(t) && FitsColumns(t)
    ensures var h := ToHumanizer(t);
            && t.providerMinMs <= Cad.Milliseconds(Cad.Draw(h.providerMin, h.providerMax, draw)) <= t.providerMaxMs
            && (t.providerMinMs <= ms <= t.providerMaxMs ==>
                  exists d: nat :: Cad.Milliseconds(Cad.Draw(h.providerMin, h.providerMax, d)) == ms)
  {
    CadenceArithmeticIsSafe(t);
    var h := ToHumanizer(t);
    if t.providerMinMs <= ms <= t.providerMaxMs {
      Cad.DrawReaches(h.providerMin, h.providerMax, ms * MILLISECOND);
    }
  }
}
