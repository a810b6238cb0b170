/** The accreditation crank both guards run: argus over a mint's transfer posture, vesta_core over a
    merchant's issuance posture. One step function; its state is read back from the history of cranks. */
module TrustStreak {
  import opened Base

  const NORMAL: u8 := 0

  /** Accepted fall-to postures: 1 and 2 in both programs. */
  predicate IsValidTarget(mode: u8) {
    mode == 1 || mode == 2
  }

  datatype Health = Health(
    degradeTarget: u8, graceSecs: i64,  // binding
    failingSince: i64, lastVerifiedAt: i64,  // streak
    posture: u8)

  datatype Event =
    | Bound(degradeTarget: u8, graceSecs: i64, now: i64)  // anchor set or re-set
    | Cranked(ok: bool, now: i64)
    | SetTo(mode: u8)  // manual override

  /** Binding resets the streak but keeps the posture. */
  function Bind(h: Health, degradeTarget: u8, graceSecs: i64, now: i64): Health {
    Health(degradeTarget, graceSecs, 0, now, h.posture)
  }

  function Crank(h: Health, ok: bool, now: i64): Health {
    if ok then
      h.(failingSince := 0, lastVerifiedAt := now, posture := NORMAL)
    else
      var since := if h.failingSince == 0 then now else h.failingSince;
      var elapsed := if FitsI64(now - since) then now - since else 0;
      h.(failingSince := since, posture := if elapsed >= h.graceSecs then h.degradeTarget else h.posture)
  }

  function Override(h: Health, mode: u8): Health {
    h.(posture := mode, failingSince := if mode == NORMAL then 0 else h.failingSince)
  }

  function Apply(h: Health, e: Event): Health {
    match e
    case Bound(target, grace, now) => Bind(h, target, grace, now)
    case Cranked(ok, now) => Crank(h, ok, now)
    case SetTo(mode) => Override(h, mode)
  }

  ghost predicate IsTrace(tr: seq<Health>, evs: seq<Event>) {
    && |tr| == |evs| + 1
    && tr[0].failingSince == 0 && IsValidTarget(tr[0].degradeTarget)
    && (forall i :: 0 <= i < |evs| ==> tr[i + 1] == Apply(tr[i], evs[i]))
    && (forall i :: 0 <= i < |evs| ==> (evs[i].Bound? || evs[i].Cranked? ==> evs[i].now > 0)
                                       && (evs[i].Bound? ==> IsValidTarget(evs[i].degradeTarget)))
    && (forall i, j :: 0 <= i < j < |evs| && evs[i].Cranked? && evs[j].Cranked? ==> evs[i].now <= evs[j].now)
  }

  lemma TraceExtends(tr: seq<Health>, evs: seq<Event>, e: Event)
    requires IsTrace(tr, evs)
    requires e.Bound? ==> e.now > 0 && IsValidTarget(e.degradeTarget)
    requires e.Cranked? ==> e.now > 0 && forall d :: d in evs && d.Cranked? ==> d.now <= e.now
    ensures IsTrace(tr + [Apply(tr[|evs|], e)], evs + [e])
  {
  }

  // ------------------------------------------------------------- the history

  predicate Failing(e: Event) {
    e.Cranked? && !e.ok
  }

  /** A healthy crank, a re-binding or a manual restore ends a run of failures. */
  predicate Breaks(e: Event) {
    e.Bound? || (e.Cranked? && e.ok) || (e.SetTo? && e.mode == NORMAL)
  }

  /** Where the stretch of events since the last break begins. */
  function StretchStart(evs: seq<Event>, n: nat): (s: nat)
    requires n <= |evs|
    ensures s <= n
  {
    if n == 0 then 0 else if Breaks(evs[n - 1]) then n else StretchStart(evs, n - 1)
  }

  /** Event `f` is the first failing crank of the unbroken run that reaches `n`. */
  ghost predicate RunFrom(evs: seq<Event>, f: int, n: nat)
    requires n <= |evs|
  {
    && StretchStart(evs, n) <= f < n
    && Failing(evs[f])
    && forall g :: StretchStart(evs, n) <= g < f ==> !Failing(evs[g])
  }

  /** `failingSince` is the time of the first crank of the current unbroken failing run, 0 if none. */
  lemma {:induction false} StreakIsHistory(tr: seq<Health>, evs: seq<Event>, n: nat)
    requires IsTrace(tr, evs) && n <= |evs|
    ensures tr[n].failingSince != 0 <==> exists f :: RunFrom(evs, f, n)
    ensures forall f :: RunFrom(evs, f, n) ==> tr[n].failingSince == evs[f].now
  {
    if n > 0 {
      var m := n - 1;
      StreakIsHistory(tr, evs, m);
      var e := evs[m];
      if !Breaks(e) {
        forall f | f < m ensures RunFrom(evs, f, n) <==> RunFrom(evs, f, m) {
        }
        if Failing(e) && tr[m].failingSince == 0 {
          NoEarlierFailure(evs, m);
          assert RunFrom(evs, m, n);
        } else if f :| RunFrom(evs, f, m) {
          assert RunFrom(evs, f, n);
        }
      }
    }
  }

  lemma NoEarlierFailure(evs: seq<Event>, n: nat)
    requires n <= |evs| && !exists f :: RunFrom(evs, f, n)
    ensures forall g :: StretchStart(evs, n) <= g < n ==> !Failing(evs[g])
  {
    var g := StretchStart(evs, n);
    while g < n
      invariant StretchStart(evs, n) <= g
      invariant forall k :: StretchStart(evs, n) <= k < g && k < n ==> !Failing(evs[k])
    {
      if Failing(evs[g]) {
        assert RunFrom(evs, g, n);
      }
      g := g + 1;
    }
  }

  /** A failing crank takes the fall-to posture exactly when the run it belongs to, counted from the
      run's first crank, has lasted the grace window; otherwise it leaves the posture alone. */
  lemma FailingCrankNeedsGrace(tr: seq<Health>, evs: seq<Event>, n: nat)
    requires IsTrace(tr, evs) && 0 < n <= |evs| && Failing(evs[n - 1])
    ensures exists f :: RunFrom(evs, f, n)
    ensures forall f :: RunFrom(evs, f, n) ==>
      tr[n].posture == if RunLasted(tr, evs, f, n) then tr[n - 1].degradeTarget else tr[n - 1].posture
  {
    StreakIsHistory(tr, evs, n);
    forall f | RunFrom(evs, f, n)
      ensures evs[f].now <= evs[n - 1].now
    {
    }
  }

  /** The run from `f` had lasted the grace window by the crank just before `n`. */
  predicate RunLasted(tr: seq<Health>, evs: seq<Event>, f: int, n: nat)
    requires 0 <= f < n <= |evs| < |tr| && evs[f].Cranked? && evs[n - 1].Cranked?
  {
    evs[n - 1].now - evs[f].now >= tr[n - 1].graceSecs
  }

  /** Event `n - 1` settles the posture: a healthy crank, an override, or a failing crank past its grace. */
  ghost predicate Settles(tr: seq<Health>, evs: seq<Event>, n: nat)
    requires 0 < n <= |evs| < |tr|
  {
    match evs[n - 1]
    case Bound(_, _, _) => false
    case SetTo(_) => true
    case Cranked(ok, now) => ok || exists f :: RunFrom(evs, f, n) && RunLasted(tr, evs, f, n)
  }

  function SettledPosture(h: Health, e: Event): u8
    requires !e.Bound?
  {
    match e
    case SetTo(mode) => mode
    case Cranked(ok, _) => if ok then NORMAL else h.degradeTarget
  }

  /** The posture is whatever the last settling event up to `n` chose, event `k - 1`, or the first one if `k` is 0 and
      none has settled: nothing else ever moves it. */
  lemma {:induction false} PostureIsLastSettled(tr: seq<Health>, evs: seq<Event>, k: nat, n: nat)
    requires IsTrace(tr, evs) && k <= n <= |evs|
    requires k > 0 ==> Settles(tr, evs, k)
    requires forall m :: k < m <= n ==> !Settles(tr, evs, m)
    ensures tr[n].posture == if k == 0 then tr[0].posture else SettledPosture(tr[k - 1], evs[k - 1])
    decreases n
  {
    if n > 0 && Failing(evs[n - 1]) {
      FailingCrankNeedsGrace(tr, evs, n);
    }
    if k < n {
      assert !Settles(tr, evs, n);
      PostureIsLastSettled(tr, evs, k, n - 1);
    }
  }

  /** While every crank fails and no one re-binds or overrides, a started streak is never cleared, a
      degraded posture never returns to normal, and a crank past the grace window degrades it. */
  lemma {:induction false} FailingRunPersists(tr: seq<Health>, evs: seq<Event>, i: nat, n: nat)
    requires IsTrace(tr, evs) && i <= n <= |evs|
    requires forall m :: i <= m < n ==> Failing(evs[m])
    ensures tr[n].degradeTarget == tr[i].degradeTarget && tr[n].graceSecs == tr[i].graceSecs
    ensures i < n ==> tr[n].failingSince != 0
    ensures tr[i].failingSince != 0 ==> tr[n].failingSince == tr[i].failingSince
    ensures i < n && tr[i].failingSince == 0 ==> Failing(evs[i]) && tr[n].failingSince == evs[i].now
    ensures tr[i].posture != NORMAL ==> tr[n].posture != NORMAL
    ensures i < n && Failing(evs[n - 1]) && 0 < tr[n].failingSince <= evs[n - 1].now
            && evs[n - 1].now - tr[n].failingSince >= tr[i].graceSecs ==>
      tr[n].posture == tr[i].degradeTarget
    decreases n
  {
    TargetsAreValid(tr, evs, i);
    if i < n {
      FailingRunPersists(tr, evs, i, n - 1);
    }
  }

  lemma {:induction false} TargetsAreValid(tr: seq<Health>, evs: seq<Event>, n: nat)
    requires IsTrace(tr, evs) && n <= |evs|
    ensures IsValidTarget(tr[n].degradeTarget)
  {
    if n > 0 {
      TargetsAreValid(tr, evs, n - 1);
    }
  }

  // -------------------------------------------------------- how long a degrade lasts

  /** A healthy crank, whoever sends it, or a manual restore. */
  predicate Restores(e: Event) {
    (e.Cranked? && e.ok) || (e.SetTo? && e.mode == NORMAL)
  }

  lemma ApplyRestores(h: Health, e: Event)
    requires IsValidTarget(h.degradeTarget) && h.posture != NORMAL
    ensures Apply(h, e).posture == NORMAL <==> Restores(e)
  {
  }

  /** A posture other than normal, a manual emergency override included, lasts through `n` if and only if nothing
      restores it on the way. */
  lemma {:induction false} DegradedUntilRestored(tr: seq<Health>, evs: seq<Event>, k: nat, n: nat)
    requires IsTrace(tr, evs) && k <= n <= |evs| && tr[k].posture != NORMAL
    ensures (forall m :: k <= m <= n ==> tr[m].posture != NORMAL) <==> (forall m :: k <= m < n ==> !Restores(evs[m]))
    decreases n
  {
    if k < n {
      var m := n - 1;
      DegradedUntilRestored(tr, evs, k, m);
      assert (forall i :: k <= i < n ==> !Restores(evs[i])) <==> (forall i :: k <= i < m ==> !Restores(evs[i])) && !Restores(evs[m]);
      assert (forall i :: k <= i <= n ==> tr[i].posture != NORMAL) <==>
             (forall i :: k <= i <= m ==> tr[i].posture != NORMAL) && tr[n].posture != NORMAL;
      if tr[m].posture != NORMAL {
        TargetsAreValid(tr, evs, m);
        ApplyRestores(tr[m], evs[m]);
      }
    }
  }

  // ----------------------------------------------------- a binding that only fails

  /** The streak, once begun, runs from the same moment, and a degraded posture stays degraded. */
  predicate StillFailing(h: Health, h': Health) {
    && h'.degradeTarget == h.degradeTarget && h'.graceSecs == h.graceSecs
    && (h.failingSince != 0 ==> h'.failingSince == h.failingSince)
    && (h.posture != NORMAL ==> h'.posture != NORMAL)
  }

  lemma StillFailingItself(h: Health)
    ensures StillFailing(h, h)
  {
  }

  /** One event that neither re-binds nor restores. */
  lemma ApplyStillFailing(h: Health, e: Event)
    requires IsValidTarget(h.degradeTarget)
    requires !e.Bound? && !Restores(e) && (e.Cranked? ==> e.now > 0)
    ensures var h' := Apply(h, e);
      && StillFailing(h, h')
      && (e.Cranked? ==> h'.failingSince != 0)
      && (e.Cranked? && e.now >= h'.failingSince > 0 && e.now - h'.failingSince >= h.graceSecs ==> h'.posture != NORMAL)
  {
  }
}
