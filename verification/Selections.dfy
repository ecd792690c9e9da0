/** Lists of texts from which the blank entries are dropped. */
module Selections {
  import opened Basics
  import opened Text

  /** The entries that are not blank, trimmed, in order. */
  function Kept(raw: seq<string>): seq<string> {
    if raw == [] then []
    else
      var entry := Trim(raw[|raw| - 1]);
      Kept(raw[..|raw| - 1]) + (if entry == "" then [] else [entry])
  }

  /** `at` lists the positions of the entries that are not blank, in order. */
  ghost predicate Picks(raw: seq<string>, at: seq<nat>) {
    && (forall k :: 0 <= k < |at| ==> at[k] < |raw| && !IsBlank(raw[at[k]]))
    && (forall j, k :: 0 <= j < k < |at| ==> at[j] < at[k])
    && (forall i :: 0 <= i < |raw| && !IsBlank(raw[i]) ==> i in at)
  }

  /** `out` holds the entries of `raw` that are not blank, all of them, in order and trimmed, and nothing else. */
  ghost predicate Keeps(raw: seq<string>, out: seq<string>) {
    exists at :: Picks(raw, at) && |at| == |out| && forall k :: 0 <= k < |at| ==> Unpadded(raw[at[k]], out[k])
  }

  /** How many entries are not blank. */
  ghost function Visible(raw: seq<string>): nat {
    |set i: nat | i < |raw| && !IsBlank(raw[i])|
  }

  lemma KeptIsPicked(raw: seq<string>)
    ensures Keeps(raw, Kept(raw)) && |Kept(raw)| == Visible(raw)
  {
    var at := KeptAt(raw);
    PickCount(raw, at);
  }

  lemma {:induction false} KeptAt(raw: seq<string>) returns (at: seq<nat>)
    ensures Picks(raw, at) && |at| == |Kept(raw)| && forall k :: 0 <= k < |at| ==> Unpadded(raw[at[k]], Kept(raw)[k])
  {
    hide Unpadded, IsBlank, Trim;
    at := [];
    if raw != [] {
      var n := |raw| - 1;
      at := KeptAt(raw[..n]);
      TrimmedAwayIff(raw[n]);
      TrimIffUnpadded(raw[n], Trim(raw[n]));
      PickOneMore(raw, at);
      if Trim(raw[n]) != "" {
        at := at + [n];
      }
    }
  }

  lemma PickOneMore(raw: seq<string>, at: seq<nat>)
    requires raw != [] && Picks(raw[..|raw| - 1], at)
    ensures Picks(raw, if IsBlank(raw[|raw| - 1]) then at else at + [|raw| - 1])
  {
    hide IsBlank;
    var n := |raw| - 1;
    var all := if IsBlank(raw[n]) then at else at + [n];
    forall k | 0 <= k < |all| ensures all[k] < |raw| && !IsBlank(raw[all[k]]) {
      if k < |at| {
        assert all[k] == at[k] && raw[..n][at[k]] == raw[at[k]];
      }
    }
    forall i: nat | i < |raw| && !IsBlank(raw[i]) ensures i in all {
      if i < n {
        assert raw[..n][i] == raw[i] && i in at;
      }
    }
  }

  lemma PickCount(raw: seq<string>, at: seq<nat>)
    requires Picks(raw, at)
    ensures |at| == Visible(raw)
  {
    hide IsBlank;
    assert (set i: nat | i < |raw| && !IsBlank(raw[i])) == Elements(at);
    ElementsCount(at);
  }

  /** There is only one such list. */
  lemma KeepsIsUnique(raw: seq<string>, a: seq<string>, b: seq<string>)
    requires Keeps(raw, a) && Keeps(raw, b)
    ensures a == b
  {
    hide Unpadded, IsBlank, Trim;
    var x :| Picks(raw, x) && |x| == |a| && forall k :: 0 <= k < |x| ==> Unpadded(raw[x[k]], a[k]);
    var y :| Picks(raw, y) && |y| == |b| && forall k :: 0 <= k < |y| ==> Unpadded(raw[y[k]], b[k]);
    PicksOnce(raw, x, y);
    forall k | 0 <= k < |a| ensures a[k] == b[k] {
      TrimIffUnpadded(raw[x[k]], a[k]);
      TrimIffUnpadded(raw[x[k]], b[k]);
    }
  }

  lemma {:induction false} PicksOnce(raw: seq<string>, x: seq<nat>, y: seq<nat>)
    requires Picks(raw, x) && Picks(raw, y)
    ensures x == y
  {
    hide IsBlank;
    PickCount(raw, x);
    PickCount(raw, y);
    forall i ensures i in x <==> i in y {}
    SameWhenSorted(x, y);
  }

  lemma {:induction false} SameWhenSorted(x: seq<nat>, y: seq<nat>)
    requires |x| == |y| && forall i :: i in x <==> i in y
    requires forall j, k :: 0 <= j < k < |x| ==> x[j] < x[k]
    requires forall j, k :: 0 <= j < k < |y| ==> y[j] < y[k]
    ensures x == y
  {
    if x != [] {
      var n := |x| - 1;
      assert x[n] in y && y[n] in x;
      forall i ensures i in x[..n] <==> i in y[..n] {
        assert i in x[..n] <==> i in x && i != x[n];
        assert i in y[..n] <==> i in y && i != y[n];
      }
      SameWhenSorted(x[..n], y[..n]);
    }
  }

  lemma NonePicked(raw: seq<string>, at: seq<nat>)
    requires Picks(raw, at)
    ensures at == [] <==> forall i :: 0 <= i < |raw| ==> IsBlank(raw[i])
  {
    hide IsBlank;
    if at != [] {
      assert !IsBlank(raw[at[0]]);
    }
  }

  lemma KeptIff(raw: seq<string>)
    ensures Kept(raw) == [] <==> forall i :: 0 <= i < |raw| ==> IsBlank(raw[i])
    ensures forall k :: 0 <= k < |Kept(raw)| ==> Trimmed(Kept(raw)[k]) && Kept(raw)[k] != ""
  {
    hide IsBlank, Trim;
    var at := KeptAt(raw);
    NonePicked(raw, at);
    forall k | 0 <= k < |at| ensures Kept(raw)[k] != "" {
      TrimIffUnpadded(raw[at[k]], Kept(raw)[k]);
      TrimmedAwayIff(raw[at[k]]);
    }
  }
}
