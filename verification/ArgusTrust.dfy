/** The guard's trust anchor and posture follow the shared streak machine. */
module ArgusTrust {
  import opened Base
  import opened Argus
  import TrustStreak

  /** The trust event an instruction amounts to, if it went through. */
  function TrustEvent(h: PolicyDoc -> Hash, g: Guard, e: Event): Option<TrustStreak.Event> {
    if Step(h, g, e.op, e.now).Err? then None
    else match e.op
      case SetAnchorOp(_, _, _, _, target, grace) => Some(TrustStreak.Bound(target, grace, e.now))
      case ReverifyOp(_, ok) => Some(TrustStreak.Cranked(ok, e.now))
      case SetDegradeOp(_, mode) => Some(TrustStreak.SetTo(mode))
      case _ => None
  }

  function TrustLog(h: PolicyDoc -> Hash, tr: seq<Guard>, evs: seq<Event>, n: nat): seq<TrustStreak.Event>
    requires n <= |evs| <= |tr|
  {
    if n == 0 then []
    else
      var t := TrustEvent(h, tr[n - 1], evs[n - 1]);
      TrustLog(h, tr, evs, n - 1) + if t.Some? then [t.value] else []
  }

  function Health(g: Guard): TrustStreak.Health {
    if g.anchor.Some? then HealthOf(g.anchor.value, g.config.degradeMode)
    else TrustStreak.Health(1, 0, 0, 0, g.config.degradeMode)
  }

  lemma StepHealth(h: PolicyDoc -> Hash, g: Guard, e: Event)
    ensures var g' := After(g, Step(h, g, e.op, e.now)); var t := TrustEvent(h, g, e);
      && (t.None? ==> Health(g') == Health(g))
      && (t.Some? ==> Health(g') == TrustStreak.Apply(Health(g), t.value))
      && (t.Some? && t.value.Bound? ==> t.value.now == e.now && TrustStreak.IsValidTarget(t.value.degradeTarget))
      && (t.Some? && t.value.Cranked? ==> t.value.now == e.now)
  {
  }

  /** Every reachable anchor and posture is the streak machine run over the log of bindings, cranks and
      overrides that went through; what is proved of that machine holds of the guard. */
  lemma {:induction false} GuardFollowsStreak(h: PolicyDoc -> Hash, tr: seq<Guard>, evs: seq<Event>, n: nat)
    returns (ht: seq<TrustStreak.Health>)
    requires IsTrace(h, tr, evs) && n <= |evs|
    ensures TrustStreak.IsTrace(ht, TrustLog(h, tr, evs, n))
    ensures ht[|ht| - 1] == Health(tr[n])
    ensures forall e :: e in TrustLog(h, tr, evs, n) && e.Cranked? ==> n > 0 && e.now <= evs[n - 1].now
  {
    hide Step;
    if n == 0 {
      ht := [Health(tr[0])];
    } else {
      var before := GuardFollowsStreak(h, tr, evs, n - 1);
      StepHealth(h, tr[n - 1], evs[n - 1]);
      var t := TrustEvent(h, tr[n - 1], evs[n - 1]);
      if t.Some? {
        TrustStreak.TraceExtends(before, TrustLog(h, tr, evs, n - 1), t.value);
        ht := before + [Health(tr[n])];
      } else {
        ht := before;
      }
    }
  }

  /** So the anchor's `failingSince` is the first crank of the current unbroken run of failures. */
  lemma AnchorStreakIsHistory(h: PolicyDoc -> Hash, tr: seq<Guard>, evs: seq<Event>, n: nat)
    requires IsTrace(h, tr, evs) && n <= |evs| && tr[n].anchor.Some?
    ensures StreakSpec(TrustLog(h, tr, evs, n), tr[n].anchor.value.failingSince)
  {
    hide Step;
    var ht := GuardFollowsStreak(h, tr, evs, n);
    TrustStreak.StreakIsHistory(ht, TrustLog(h, tr, evs, n), |TrustLog(h, tr, evs, n)|);
  }

  /** `since` is the time of the first crank of the failing run that reaches the end of the log, 0 if none. */
  ghost predicate StreakSpec(log: seq<TrustStreak.Event>, since: i64) {
    && (since != 0 <==> exists f :: TrustStreak.RunFrom(log, f, |log|))
    && (forall f :: TrustStreak.RunFrom(log, f, |log|) ==> since == log[f].now)
  }

  // -------------------------------------------------------- how long a degrade lasts

  lemma TargetsAreValid(h: PolicyDoc -> Hash, tr: seq<Guard>, evs: seq<Event>, n: nat)
    requires IsTrace(h, tr, evs) && n <= |evs|
    ensures TrustStreak.IsValidTarget(Health(tr[n]).degradeTarget)
  {
    hide Step, Health;
    var ht := GuardFollowsStreak(h, tr, evs, n);
    TrustStreak.TargetsAreValid(ht, TrustLog(h, tr, evs, n), |TrustLog(h, tr, evs, n)|);
  }

  /** The streak starts in the past: its time is positive and no later than the last event. */
  lemma StreakIsPast(h: PolicyDoc -> Hash, tr: seq<Guard>, evs: seq<Event>, n: nat)
    requires IsTrace(h, tr, evs) && n <= |evs| && Health(tr[n]).failingSince != 0
    ensures n > 0 && 0 < Health(tr[n]).failingSince <= evs[n - 1].now
  {
    hide Step, Health;
    var ht := GuardFollowsStreak(h, tr, evs, n);
    var log := TrustLog(h, tr, evs, n);
    TrustStreak.StreakIsHistory(ht, log, |log|);
    var f :| TrustStreak.RunFrom(log, f, |log|);
    assert log[f] in log;
  }

  /** A healthy crank or a manual restore went through. */
  predicate RestoredBy(h: PolicyDoc -> Hash, g: Guard, e: Event) {
    var t := TrustEvent(h, g, e);
    t.Some? && TrustStreak.Restores(t.value)
  }

  /** A degraded posture, however it came about, lasts through `n` if and only if no healthy crank and no restore goes
      through on the way. */
  lemma {:induction false} DegradedUntilRestored(h: PolicyDoc -> Hash, tr: seq<Guard>, evs: seq<Event>, k: nat, n: nat)
    requires IsTrace(h, tr, evs) && k <= n <= |evs| && tr[k].config.degradeMode != TrustStreak.NORMAL
    ensures (forall m :: k <= m <= n ==> tr[m].config.degradeMode != TrustStreak.NORMAL)
            <==> (forall m :: k <= m < n ==> !RestoredBy(h, tr[m], evs[m]))
    decreases n
  {
    hide Step, TrustEvent;
    if k < n {
      var m := n - 1;
      DegradedUntilRestored(h, tr, evs, k, m);
      assert (forall i :: k <= i < n ==> !RestoredBy(h, tr[i], evs[i])) <==>
             (forall i :: k <= i < m ==> !RestoredBy(h, tr[i], evs[i])) && !RestoredBy(h, tr[m], evs[m]);
      assert (forall i :: k <= i <= n ==> tr[i].config.degradeMode != TrustStreak.NORMAL) <==>
             (forall i :: k <= i <= m ==> tr[i].config.degradeMode != TrustStreak.NORMAL)
             && tr[n].config.degradeMode != TrustStreak.NORMAL;
      if tr[m].config.degradeMode != TrustStreak.NORMAL {
        RestoringStep(h, tr, evs, m, n);
      }
    }
  }

  lemma RestoringStep(h: PolicyDoc -> Hash, tr: seq<Guard>, evs: seq<Event>, m: nat, n: nat)
    requires IsTrace(h, tr, evs) && n == m + 1 && n <= |evs| && tr[m].config.degradeMode != TrustStreak.NORMAL
    ensures tr[n].config.degradeMode == TrustStreak.NORMAL <==> RestoredBy(h, tr[m], evs[m])
  {
    hide Step, TrustEvent, TrustStreak.Apply;
    TargetsAreValid(h, tr, evs, m);
    StepHealth(h, tr[m], evs[m]);
    var t := TrustEvent(h, tr[m], evs[m]);
    if t.Some? {
      TrustStreak.ApplyRestores(Health(tr[m]), t.value);
    }
  }

  const FROZEN: u8 := 2

  /** A guard bound to an anchor, then frozen by its authority. */
  lemma FrozenByAuthority(h: PolicyDoc -> Hash) returns (tr: seq<Guard>, evs: seq<Event>)
    requires forall d :: h(d) != ZERO_HASH
    ensures IsTrace(h, tr, evs) && |evs| == 2
    ensures evs[1].op.SetDegradeOp? && tr[2].config.degradeMode == FROZEN && evs[1].now == 1
    ensures tr[2].anchor.Some? && tr[2].anchor.value.aegisProgram == 9
  {
    hide ConfigurePolicy, SetGuardPaused, TransferGuardAuthority, AcceptGuardAuthority, AddListEntry, RemoveListEntry,
      InitializeGovernance, ProposePolicy, ApprovePolicy, ActivatePolicy, RollbackPolicy, PinPolicy, ProposeRoleChange,
      ApplyRoleChange, RefreshEligibility, InvalidateCapability, BumpScreeningEpoch, OpenWalletState, Execute,
      ReverifyAccreditation;
    var g0 := PlainGuard(h, 1, 9);
    var bind, freeze := Event(SetAnchorOp(1, 3, 4, 5, 1, 86_400), 1), Event(SetDegradeOp(1, FROZEN), 1);
    RunExtends(h, [g0], [], bind);
    var g1 := After(g0, Step(h, g0, bind.op, 1));
    RunExtends(h, [g0] + [g1], [] + [bind], freeze);
    tr, evs := [g0] + [g1] + [After(g1, Step(h, g1, freeze.op, 1))], [] + [bind] + [freeze];
  }

  /** So an emergency override does not stand: the authority freezes peer transfers and the next healthy crank, which
      needs no authority, lifts the freeze. */
  lemma HealthyCrankUndoesOverride(h: PolicyDoc -> Hash) returns (tr: seq<Guard>, evs: seq<Event>)
    requires forall d :: h(d) != ZERO_HASH
    ensures IsTrace(h, tr, evs) && |evs| == 3
    ensures evs[1].op.SetDegradeOp? && tr[2].config.degradeMode == FROZEN
    ensures evs[2].op.ReverifyOp? && evs[2].op.ok && tr[3].config.degradeMode == TrustStreak.NORMAL
  {
    hide ConfigurePolicy, SetGuardPaused, TransferGuardAuthority, AcceptGuardAuthority, AddListEntry, RemoveListEntry,
      InitializeGovernance, ProposePolicy, ApprovePolicy, ActivatePolicy, RollbackPolicy, PinPolicy, ProposeRoleChange,
      ApplyRoleChange, RefreshEligibility, InvalidateCapability, BumpScreeningEpoch, OpenWalletState, Execute,
      SetTrustAnchor, SetDegradeMode;
    var tr0, evs0 := FrozenByAuthority(h);
    var crank := Event(ReverifyOp(9, true), 1);
    RunExtends(h, tr0, evs0, crank);
    tr, evs := tr0 + [After(tr0[2], Step(h, tr0[2], crank.op, 1))], evs0 + [crank];
  }
}
