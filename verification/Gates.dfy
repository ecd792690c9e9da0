/** Runs in which every request passes the gates of `CampaignService`, batches have the configured size, and timers fire
    no earlier than they were armed for. */
module Gates {
  import C = Campaigns
  import opened Protocol
  import opened Interleaving

  /** The gate in front of the step, if there is one, lets it through. */
  predicate Allowed(batch: int, s: State, e: Event) {
    match e
    case SetPaused(c, p) =>
      c < |s.campaigns| && if p then !C.PauseRefused(s.campaigns[c]) else s.campaigns[c].paused
    case Reschedule(c, _) => c < |s.campaigns| && s.campaigns[c].releasedAt.None?
    case CancelScheduled(c) =>
      c < |s.campaigns| && s.campaigns[c].releasedAt.None? && s.campaigns[c].status.Scheduled?
    case ClaimDue(n, _) => n == batch
    case ClaimRetries(n, _) => n == 200
    case _ => true
  }

  /** `Resume` recalculates right after it has cleared the flag; no other request recalculates. A timer fires after one
      whole delay in which nothing else happens, so it is due whenever it was armed. */
  predicate Follows(cfg: Config, s: State, e: Event, next: Event) {
    && (next.Recalculate? ==> e == SetPaused(next.campaign, false))
    && (next.FireTimer? ==> e.Tick? && e.to >= s.clock + cfg.retryDelay)
  }

  predicate Unaided(e: Event) {
    !e.Recalculate? && !e.FireTimer?
  }

  /** Every step of the run is one that the program can make. */
  ghost predicate Permitted(cfg: Config, batch: int, s: State, es: seq<Event>) {
    es == []
    || (&& Permitted(cfg, batch, s, es[..|es| - 1])
        && Allowed(batch, Run(cfg, s, es[..|es| - 1]), es[|es| - 1])
        && if |es| == 1 then Unaided(es[0])
           else Follows(cfg, Run(cfg, s, es[..|es| - 2]), es[|es| - 2], es[|es| - 1]))
  }

  /** Runs compose, and so do permitted ones. */
  lemma {:induction false} Join(cfg: Config, batch: int, s: State, a: seq<Event>, b: seq<Event>)
    ensures Run(cfg, s, a + b) == Run(cfg, Run(cfg, s, a), b)
    ensures Permitted(cfg, batch, s, a) && Permitted(cfg, batch, Run(cfg, s, a), b) ==> Permitted(cfg, batch, s, a + b)
    decreases |b|
  {
    hide Step, Allowed;
    RunConcat(cfg, s, a, b);
    if b == [] {
      assert a + b == a;
    } else {
      var n := |b| - 1;
      Join(cfg, batch, s, a, b[..n]);
      assert (a + b)[..|a + b| - 1] == a + b[..n];
      if n > 0 {
        RunConcat(cfg, s, a, b[..n - 1]);
        assert (a + b)[..|a + b| - 2] == a + b[..n - 1];
      }
    }
  }

  /** Steps that no gate stands in front of. */
  predicate Free(e: Event) {
    && Unaided(e) && !e.SetPaused? && !e.Reschedule? && !e.CancelScheduled? && !e.ClaimDue? && !e.ClaimRetries?
  }

  lemma {:induction false} FreeIsPermitted(cfg: Config, batch: int, s: State, es: seq<Event>)
    requires forall i :: 0 <= i < |es| ==> Free(es[i])
    ensures Permitted(cfg, batch, s, es)
  {
    hide Step;
    if es != [] {
      FreeIsPermitted(cfg, batch, s, es[..|es| - 1]);
    }
  }

  lemma OneIsPermitted(cfg: Config, batch: int, s: State, e: Event)
    requires Allowed(batch, s, e) && Unaided(e)
    ensures Permitted(cfg, batch, s, [e])
  {
    hide Step;
    assert [e][..0] == [];
  }

  lemma PairIsPermitted(cfg: Config, batch: int, s: State, e: Event, next: Event)
    requires Allowed(batch, s, e) && Unaided(e) && Allowed(batch, Step(cfg, s, e), next) && Follows(cfg, s, e, next)
    ensures Permitted(cfg, batch, s, [e, next])
  {
    hide Step;
    OneIsPermitted(cfg, batch, s, e);
    Extend(cfg, s, [], e);
    assert [] + [e] == [e] && [e, next][..1] == [e] && [e, next][..0] == [];
  }
}
