/** Claiming due rows earliest first, a batch per tick. */
module Batches {
  import opened Basics
  import M = Messages
  import C = Campaigns
  import opened Protocol
  import D = Drain

  lemma RemainingCount(due: map<nat, Time>, gone: set<nat>)
    requires gone <= due.Keys
    ensures |due - gone| == |due| - |gone|
  {
    assert (due - gone).Keys == due.Keys - gone;
  }

  /** A due row no later than any other. */
  method Earliest(due: map<nat, Time>) returns (m: nat)
    requires due != map[]
    ensures m in due && forall q :: q in due ==> due[m] <= due[q]
  {
    var rest := due.Keys;
    m :| m in rest;
    rest := rest - {m};
    while rest != {}
      invariant m in due && rest <= due.Keys
      invariant forall q :: q in due && q !in rest ==> due[m] <= due[q]
      decreases |rest|
    {
      var q :| q in rest;
      if due[q] < due[m] {
        m := q;
      }
      rest := rest - {q};
    }
  }

  /** Picked in order, and nothing left is earlier. */
  ghost predicate Front(due: map<nat, Time>, picked: seq<nat>, rest: map<nat, Time>) {
    && Distinct(picked)
    && (forall i :: 0 <= i < |picked| ==> picked[i] in due && picked[i] !in rest)
    && (forall q :: q in rest ==> q in due && rest[q] == due[q])
    && (forall q :: q in due && q !in rest ==> q in picked)
    && (forall i, j :: 0 <= i < j < |picked| ==> due[picked[i]] <= due[picked[j]])
    && (forall i, q :: 0 <= i < |picked| && q in rest ==> due[picked[i]] <= due[q])
  }

  lemma FrontStep(due: map<nat, Time>, picked: seq<nat>, rest: map<nat, Time>, m: nat)
    requires Front(due, picked, rest) && m in rest && forall q :: q in rest ==> rest[m] <= rest[q]
    ensures Front(due, picked + [m], rest - {m})
  {
  }

  /** ORDER BY the due time LIMIT n. */
  method SelectEarliest(due: map<nat, Time>, limit: nat) returns (picked: seq<nat>)
    ensures EarliestBatch(picked, due, limit) && forall i :: 0 <= i < |picked| ==> picked[i] in due
    ensures forall i, j :: 0 <= i < j < |picked| ==>
              picked[i] in due && picked[j] in due && due[picked[i]] <= due[picked[j]]
  {
    picked := [];
    var rest := due;
    while |picked| < limit && rest != map[]
      invariant |picked| <= limit && |rest| == |due| - |picked|
      invariant Front(due, picked, rest)
      decreases |rest|
    {
      var m := Earliest(rest);
      FrontStep(due, picked, rest, m);
      RemainingCount(rest, {m});
      picked := picked + [m];
      rest := rest - {m};
    }
  }

  /** A batch of the required kind always exists. */
  lemma {:induction false} BatchExists(due: map<nat, Time>, limit: nat) returns (picked: seq<nat>)
    ensures EarliestBatch(picked, due, limit)
    decreases limit
  {
    if limit == 0 || due == map[] {
      picked := [];
    } else {
      var m := EarliestExists(due, due.Keys);
      RemainingCount(due, {m});
      var later := BatchExists(due - {m}, limit - 1);
      picked := [m] + later;
      FirstThenRest(due, m, later, limit);
    }
  }

  lemma FirstThenRest(due: map<nat, Time>, m: nat, later: seq<nat>, limit: nat)
    requires limit > 0 && m in due && (forall q :: q in due ==> due[m] <= due[q])
    requires |due - {m}| == |due| - 1 && EarliestBatch(later, due - {m}, limit - 1)
    ensures EarliestBatch([m] + later, due, limit)
  {
    var picked := [m] + later;
    forall i, q | 0 <= i < |picked| && q in due && q !in picked ensures due[picked[i]] <= due[q] {
      if i > 0 {
        assert picked[i] == later[i - 1];
        assert q !in later;
      }
    }
  }

  lemma {:induction false} EarliestExists(due: map<nat, Time>, keys: set<nat>) returns (m: nat)
    requires keys != {} && keys <= due.Keys
    ensures m in keys && forall q :: q in keys ==> due[m] <= due[q]
    decreases |keys|
  {
    var x :| x in keys;
    if keys == {x} {
      m := x;
    } else {
      var y := EarliestExists(due, keys - {x});
      m := if due[x] <= due[y] then x else y;
    }
  }

  /** A batch of due rows reaches a due row, or is full of rows that are due no later. */
  lemma BatchReaches(picked: seq<nat>, due: map<nat, Time>, limit: nat, x: nat)
    requires EarliestBatch(picked, due, limit) && x in due
    ensures x in picked || (|picked| == limit && forall i :: 0 <= i < |picked| ==> due[picked[i]] <= due[x])
  {
    if x !in picked {
      ElementsCount(picked);
      assert Elements(picked) < due.Keys;
      SmallerSet(Elements(picked), due.Keys, x);
    }
  }

  lemma SmallerSet(a: set<nat>, b: set<nat>, x: nat)
    requires a <= b && x in b && x !in a
    ensures |a| < |b|
  {
    SubsetCount(a, b - {x});
  }

  lemma {:induction false} SubsetCount(a: set<nat>, b: set<nat>)
    requires a <= b
    ensures |a| <= |b|
    decreases |a|
  {
    if a != {} {
      var x :| x in a;
      SubsetCount(a - {x}, b - {x});
    }
  }

  // --------------------------------------------------------- what a claim removes

  /** After a release tick exactly the picked campaigns are no longer due. */
  lemma ReleasedAreGone(cs: seq<C.Campaign>, now: Time, picked: seq<CampaignId>)
    ensures DueCampaigns(ReleaseAll(cs, picked, now), now) == DueCampaigns(cs, now) - Elements(picked)
  {
  }

  /** After a sweep exactly the picked messages are no longer due. */
  lemma SweptAreGone(ms: seq<M.Message>, cs: seq<C.Campaign>, now: Time, picked: seq<MessageId>)
    ensures DueRetries(Sweep(ms, picked), cs, now) == DueRetries(ms, cs, now) - Elements(picked)
  {
  }

  /** How many rows a claim takes: as many as are due, up to the batch size, or to 25 campaigns and 100 messages when no
      positive size is configured. */
  lemma BatchSizes(s: State, batchSize: int, claims: seq<Claimed>, limit: int, picked: seq<MessageId>)
    ensures CanClaimDue(s, batchSize, claims) ==>
              |claims| == Min(if batchSize > 0 then batchSize else 25, |DueCampaigns(s.campaigns, s.clock)|)
    ensures CanClaimRetries(s, limit, picked) ==>
              |picked| == Min(if limit > 0 then limit else 100, |DueRetries(s.messages, s.campaigns, s.clock)|)
  {
    assert |Campaigns(claims)| == |claims|;
  }

  // ------------------------------------------------------------------- k ticks

  /** The rows still due after the given claims. */
  function AfterTicks(due: map<nat, Time>, ticks: seq<seq<nat>>): map<nat, Time> {
    if ticks == [] then due else AfterTicks(due - Elements(ticks[0]), ticks[1..])
  }

  /** Every tick claims an earliest batch of what is due when it runs. */
  ghost predicate Ticks(due: map<nat, Time>, batch: nat, ticks: seq<seq<nat>>) {
    ticks == [] || (EarliestBatch(ticks[0], due, batch) && Ticks(due - Elements(ticks[0]), batch, ticks[1..]))
  }

  lemma OneTick(due: map<nat, Time>, batch: nat, picked: seq<nat>)
    requires EarliestBatch(picked, due, batch)
    ensures |due - Elements(picked)| == Max(0, |due| - batch)
  {
    ElementsCount(picked);
    RemainingCount(due, Elements(picked));
  }

  /** With n rows due and no arrivals, exactly max(0, n - k*b) remain due after k ticks. */
  lemma {:induction false} TicksDrain(due: map<nat, Time>, batch: nat, ticks: seq<seq<nat>>)
    requires Ticks(due, batch, ticks)
    ensures |AfterTicks(due, ticks)| == Max(0, |due| - |ticks| * batch)
    decreases |ticks|
  {
    if ticks != [] {
      var rest := due - Elements(ticks[0]);
      OneTick(due, batch, ticks[0]);
      TicksDrain(rest, batch, ticks[1..]);
      TickArithmetic(|due|, batch, |ticks|);
    }
  }

  lemma LessPerTick(n: nat, b: nat, k: nat)
    ensures Max(0, Max(0, n - k * b) - b) == Max(0, n - (k + 1) * b)
  {
    assert (k + 1) * b == k * b + b;
  }

  lemma TickArithmetic(n: nat, b: nat, k: nat)
    requires k >= 1
    ensures Max(0, Max(0, n - b) - (k - 1) * b) == Max(0, n - k * b)
  {
    assert k * b == b + (k - 1) * b;
    assert (k - 1) * b >= 0;
  }

  /** Everything claimed was due no later than anything claimed by a later tick or left behind. */
  lemma {:induction false} TicksInOrder(due: map<nat, Time>, batch: nat, ticks: seq<seq<nat>>, i: nat, x: nat, y: nat)
    requires Ticks(due, batch, ticks) && i < |ticks| && x in ticks[i]
    requires y in AfterTicks(due, ticks) || exists j :: i < j < |ticks| && y in ticks[j]
    ensures x in due && y in due && due[x] <= due[y]
    decreases |ticks|
  {
    var rest := due - Elements(ticks[0]);
    StillDue(rest, batch, ticks[1..]);
    if i == 0 {
      if y !in AfterTicks(due, ticks) {
        var j :| i < j < |ticks| && y in ticks[j];
        assert ticks[1..][j - 1] == ticks[j];
      }
      assert y in rest;
    } else {
      if y !in AfterTicks(due, ticks) {
        var j :| i < j < |ticks| && y in ticks[j];
        assert ticks[1..][j - 1] == ticks[j];
      }
      assert ticks[1..][i - 1] == ticks[i];
      TicksInOrder(rest, batch, ticks[1..], i - 1, x, y);
    }
  }

  lemma {:induction false} StillDue(due: map<nat, Time>, batch: nat, ticks: seq<seq<nat>>)
    requires Ticks(due, batch, ticks)
    ensures forall y :: y in AfterTicks(due, ticks) ==> y in due
    ensures forall j, y :: 0 <= j < |ticks| && y in ticks[j] ==> y in due
    decreases |ticks|
  {
    if ticks != [] {
      StillDue(due - Elements(ticks[0]), batch, ticks[1..]);
      forall j, y | 0 <= j < |ticks| && y in ticks[j] ensures y in due {
        if j > 0 {
          assert ticks[1..][j - 1] == ticks[j];
        }
      }
    }
  }

  /** A retry that is due and neither paused nor cancelled always makes the sweeper's tick claim something,
      so a lost timer only delays it. */
  lemma SweeperClaims(cfg: Config, s: State, limit: int, m: MessageId) returns (picked: seq<MessageId>)
    requires s.swept == [] && m < |s.messages| && RetryDue(s.messages, s.campaigns, s.clock, m)
    ensures D.Progress(s, ClaimRetries(limit, picked))
  {
    var due := DueRetries(s.messages, s.campaigns, s.clock);
    picked := BatchExists(due, Effective(limit, 100));
    assert m in due;
    assert |due| > 0;
  }
}
