/** What every handback rests on: each of its steps was taken on a positive answer, the clear page first. */
module StreamingEffects {
  import opened Wrappers
  import opened ControlModel
  import opened ControlProofs
  import opened StreamingModel
  import opened StreamingProofs
  import opened StreamingCancellation

  /** How far the handback of which revision has come. */
  function Stage(t: Transition): Option<(nat, int)> {
    match t
    case Publishing(ForHandback(_, revision)) => Some((1, revision))
    case WaitingToDrain(ForHandback(_, revision)) => Some((2, revision))
    case Draining(ForHandback(_, revision)) => Some((3, revision))
    case Observing(_, revision) => Some((4, revision))
    case Resuming(_, revision) => Some((5, revision))
    case _ => None
  }

  /** The answer that carries a handback into this stage; the last one publishes the handover. */
  predicate Carries(stage: nat, a: Action) {
    match a
    case SensitiveChecked(clear, _) => clear && stage == 1
    case Published(ok) => ok && stage == 2
    case DrainStarts => stage == 3
    case DrainEnds(ok, _) => ok && stage == 4
    case Observed(ok) => ok && stage == 5
    case Resumed(ok) => ok && stage == 6
    case _ => false
  }

  /** What a step does to handbacks is explained by its action. */
  predicate Explained(w: World, a: Action, v: World) {
    && w.log <= v.log
    && (Stage(v.transition).Some? && Stage(v.transition) != Stage(w.transition) ==>
          var (stage, revision) := Stage(v.transition).value;
          && Carries(stage, a)
          && if stage == 1 then w.transition.CheckingSensitive? && |w.log| < |v.log| && v.log[|w.log|] == Revoked(revision)
             else Stage(w.transition) == Some((stage - 1, revision)))
    && (v.handover.Some? && v.handover != w.handover ==>
          Carries(6, a) && Stage(w.transition) == Some((5, v.handover.value.revision)))
    && (forall k | |w.log| <= k < |v.log| :: MarkExplained(w, a, k, v.log[k]))
  }

  predicate MarkExplained(w: World, a: Action, k: int, m: Mark) {
    match m
    case Revoked(_) => k == |w.log| && Carries(1, a) && w.transition.CheckingSensitive?
    case Admitted(revision) =>
      k == |w.log| && a.Admit? && a.revision == revision && w.handover.Some? && w.handover.value.revision == revision
    case _ => true
  }

  lemma InputIsExplained(w: World, a: Action)
    requires IsInput(a)
    ensures Explained(w, a, Core(w, a))
  {
    match a
    case Dispatch(e, epoch, live) => AskOnlyStores(w, e, Read);
    case DispatchEnds =>
    case SendClipboard(e, live) => AskOnlyStores(w, e, Read);
    case RepeatKey(e, live) => AskOnlyStores(w, e, Read);
  }

  lemma MoveIsExplained(w: World, a: Action)
    requires a.Move?
    ensures Explained(w, a, Core(w, a))
  {
    AskOnlyStores(w, a.e, Read);
    var (v, s) := Ask(w, a.e, Read);
    if s.Some? && s.value.lease.Some? { AskOnlyStores(v, a.f, Pause(s.value.lease.value.owner)); }
  }

  lemma DisconnectIsExplained(w: World, a: Action)
    requires a.Disconnect?
    ensures Explained(w, a, Core(w, a))
  {
    AskOnlyStores(w, a.e, Read);
    var (v, s) := Ask(w, a.e, Read);
    if s.Some? && s.value.lease.Some? { AskOnlyStores(v, a.f, Pause(s.value.lease.value.owner)); }
  }

  lemma ReconcileIsExplained(w: World, a: Action)
    requires a.Reconcile?
    ensures Explained(w, a, Core(w, a))
  {
    AskOnlyStores(w, a.e, Read);
    var (v, s) := Ask(w, a.e, Read);
    AskOnlyStores(v, a.f, Read);
    if v.token.Some? {
      var u := Authorized(v, a.f, a.live, v.token.value).0;
      if u.owner.Some? { AskOnlyStores(u, a.g, Pause(u.owner.value)); }
    }
  }

  lemma StartIsExplained(w: World, a: Action)
    requires StartsTransition(a)
    ensures Explained(w, a, Core(w, a))
  {
    match a
    case Take(e, who, request, revision, auth) => AskOnlyStores(w, e, RequestTakeover(who, request, revision, auth));
    case Settle(e) => AskOnlyStores(w, e, Read);
    case Move(_, _, _, _, _, _) => MoveIsExplained(w, a);
    case Reconcile(_, _, _, _) => ReconcileIsExplained(w, a);
    case Disconnect(_, _, _) => DisconnectIsExplained(w, a);
  }

  lemma GrantIsExplained(w: World, a: Action)
    requires a.Confirm? || a.Announced?
    ensures Explained(w, a, Core(w, a))
  {
    if a.Confirm? && w.transition.Confirming? {
      AskOnlyStores(w, a.e, ConfirmTakeover(w.transition.pending.revision, w.transition.observation));
    }
    if a.Announced? && w.owner.Some? { AskOnlyStores(w.(token := None, blocked := true), a.e, Pause(w.owner.value)); }
  }

  lemma MovingDrainIsExplained(w: World, a: Action)
    requires a.DrainEnds? && a.ok && w.transition.Draining? && w.transition.purpose.ForMove?
    ensures Explained(w, a, Core(w, a))
  {
    var p := w.transition.purpose;
    AskOnlyStores(Released(w).(owner := None), a.e, RequestTakeover(p.to, p.request, p.revision, p.auth));
  }

  lemma DrainIsExplained(w: World, a: Action)
    requires a.DrainEnds?
    ensures Explained(w, a, Core(w, a))
  {
    if a.ok && w.transition.Draining? && w.transition.purpose.ForMove? { MovingDrainIsExplained(w, a); }
  }

  lemma LockIsExplained(w: World, a: Action)
    requires a.ReturnLocked?
    ensures Explained(w, a, Core(w, a))
  {
    AskOnlyStores(w, a.e, Read);
  }

  lemma RevocationIsExplained(w: World, a: Action)
    requires a.SensitiveChecked?
    ensures Explained(w, a, Core(w, a))
  {
    if w.transition.CheckingSensitive? {
      AskOnlyStores(w, a.e, BeginReturn(w.transition.who, w.transition.lease, w.transition.revision));
    }
  }

  lemma AdmissionIsExplained(w: World, a: Action)
    requires StoreConsistent(w.store) && a.Admit?
    ensures Explained(w, a, Core(w, a))
  {
    var op := RowOp.AdmitRun(a.who, a.run, None, a.revision, a.ended, w.handover);
    AskOnlyStores(w, a.e, op);
    if Ask(w, a.e, op).1.Some? && Load(w.store, a.e, w.id).Success? && Load(w.store, a.e, w.id).value.mode == Paused {
      AdmissionPresentsItsRevision(w, a.e, op);
    }
  }

  /** Steps that wait for no controller call. */
  predicate IsLocal(a: Action) {
    a.Published? || a.DrainStarts? || a.FenceReplied? || a.Observed? || a.Resumed? || a.Handback? || a.ObserverLocks?
    || a.ObserverUnlocks? || a.Shutdown? || a.Cancelled?
  }

  lemma LocalStepIsExplained(w: World, a: Action)
    requires IsLocal(a)
    ensures Explained(w, a, Core(w, a))
  {
  }

  lemma TransitionIsExplained(w: World, a: Action)
    requires StartsTransition(a) || ContinuesTransition(a)
    ensures Explained(w, a, Core(w, a))
  {
    if StartsTransition(a) { StartIsExplained(w, a); }
    else if a.Confirm? || a.Announced? { GrantIsExplained(w, a); }
    else if a.DrainEnds? { DrainIsExplained(w, a); }
    else if a.ReturnLocked? { LockIsExplained(w, a); }
    else { RevocationIsExplained(w, a); }
  }

  lemma StepIsExplained(w: World, a: Action)
    requires StoreConsistent(w.store)
    ensures Explained(w, a, Step(w, a))
  {
    if IsInput(a) { InputIsExplained(w, a); }
    else if IsLocal(a) { LocalStepIsExplained(w, a); }
    else if StartsTransition(a) || ContinuesTransition(a) { TransitionIsExplained(w, a); }
    else if a.Admit? { AdmissionIsExplained(w, a); }
    NotingIsExplained(w, a, Core(w, a));
  }

  lemma NotingIsExplained(w: World, a: Action, v: World)
    requires Explained(w, a, v)
    ensures Explained(w, a, Noted(v))
  {
    forall k | |w.log| <= k < |Noted(v).log| ensures MarkExplained(w, a, k, Noted(v).log[k]) {
      assert k < |v.log| ==> Noted(v).log[k] == v.log[k];
    }
  }

  // ---------------------------------------------------------------- over a whole run

  /** The boundary before its k-th step. */
  function At(start: World, actions: seq<Action>, k: nat): World
    requires k <= |actions|
  {
    Steps(start, actions[..k])
  }

  /** Before its n-th step the run gave, one after the other and each in its place, every answer up to this stage of the
      handback of this revision: the page was clear while the transition held the input lock, and that step revoked the
      revision; then the withdrawal was published, the drain began and ended, the page was observed, the agent resumed. */
  ghost predicate Answered(start: World, actions: seq<Action>, n: nat, revision: int, stage: nat)
    requires n <= |actions|
    decreases stage
  {
    exists k: nat :: k < n && Carries(stage, actions[k]) && AnsweredAt(start, actions, k, revision, stage)
  }

  ghost predicate AnsweredAt(start: World, actions: seq<Action>, k: nat, revision: int, stage: nat)
    requires k < |actions|
    decreases stage, 0
  {
    if stage <= 1 then ClearedAt(start, actions, k, revision)
    else Stage(At(start, actions, k).transition) == Some((stage - 1, revision)) && Answered(start, actions, k, revision, stage - 1)
  }

  ghost predicate ClearedAt(start: World, actions: seq<Action>, k: nat, revision: int)
    requires k < |actions|
  {
    var w, v := At(start, actions, k), At(start, actions, k + 1);
    w.transition.CheckingSensitive? && w.input.HeldByTransition? && |w.log| < |v.log| && v.log[|w.log|] == Revoked(revision)
  }

  lemma {:induction false} StepsSnoc(w: World, actions: seq<Action>, a: Action)
    ensures Steps(w, actions + [a]) == Step(Steps(w, actions), a)
    decreases |actions|
  {
    if actions == [] {
      assert (actions + [a])[1..] == [];
    } else {
      assert (actions + [a])[0] == actions[0] && (actions + [a])[1..] == actions[1..] + [a];
      StepsSnoc(Step(w, actions[0]), actions[1..], a);
    }
  }

  lemma NextMoment(start: World, actions: seq<Action>, k: nat)
    requires k < |actions|
    ensures At(start, actions, k + 1) == Step(At(start, actions, k), actions[k])
  {
    assert actions[..k + 1] == actions[..k] + [actions[k]];
    StepsSnoc(start, actions[..k], actions[k]);
  }

  lemma EveryMomentIsSafe(start: World, actions: seq<Action>, k: nat)
    requires Fresh(start) && k <= |actions|
    ensures Safe(At(start, actions, k))
  {
    EveryInterleavingIsSafe(start, actions[..k]);
  }

  /** A handback in progress, or its handover, has had all its answers. */
  ghost predicate InOrder(start: World, actions: seq<Action>, n: nat)
    requires n <= |actions|
  {
    var w := At(start, actions, n);
    && (Stage(w.transition).Some? ==> Answered(start, actions, n, Stage(w.transition).value.1, Stage(w.transition).value.0))
    && (w.handover.Some? ==> Answered(start, actions, n, w.handover.value.revision, 6))
  }

  lemma AnsweredLater(start: World, actions: seq<Action>, n: nat, m: nat, revision: int, stage: nat)
    requires n <= m <= |actions| && Answered(start, actions, n, revision, stage)
    ensures Answered(start, actions, m, revision, stage)
  {
    var k: nat :| k < n && Carries(stage, actions[k]) && AnsweredAt(start, actions, k, revision, stage);
    assert k < m;
  }

  lemma StageIsAnswered(start: World, actions: seq<Action>, n: nat)
    requires n < |actions| && InOrder(start, actions, n) && LockLaw(At(start, actions, n))
    requires Explained(At(start, actions, n), actions[n], At(start, actions, n + 1))
    ensures var t := At(start, actions, n + 1).transition;
            Stage(t).Some? ==> Answered(start, actions, n + 1, Stage(t).value.1, Stage(t).value.0)
  {
    var w, v := At(start, actions, n), At(start, actions, n + 1);
    if Stage(v.transition).Some? {
      var (stage, revision) := Stage(v.transition).value;
      if Stage(v.transition) == Stage(w.transition) {
        AnsweredLater(start, actions, n, n + 1, revision, stage);
      } else {
        assert AnsweredAt(start, actions, n, revision, stage);
      }
    }
  }

  lemma HandoverIsAnswered(start: World, actions: seq<Action>, n: nat)
    requires n < |actions| && InOrder(start, actions, n)
    requires Explained(At(start, actions, n), actions[n], At(start, actions, n + 1))
    ensures var handover := At(start, actions, n + 1).handover;
            handover.Some? ==> Answered(start, actions, n + 1, handover.value.revision, 6)
  {
    var w, v := At(start, actions, n), At(start, actions, n + 1);
    if v.handover.Some? {
      if v.handover == w.handover {
        AnsweredLater(start, actions, n, n + 1, v.handover.value.revision, 6);
      } else {
        assert Answered(start, actions, n, v.handover.value.revision, 5);
        assert AnsweredAt(start, actions, n, v.handover.value.revision, 6);
      }
    }
  }

  lemma StepKeepsOrder(start: World, actions: seq<Action>, n: nat)
    requires Fresh(start) && n < |actions| && InOrder(start, actions, n)
    ensures InOrder(start, actions, n + 1)
  {
    NextMoment(start, actions, n);
    EveryMomentIsSafe(start, actions, n);
    StepIsExplained(At(start, actions, n), actions[n]);
    StageIsAnswered(start, actions, n);
    HandoverIsAnswered(start, actions, n);
  }

  lemma {:induction false} EveryMomentIsInOrder(start: World, actions: seq<Action>, n: nat)
    requires Fresh(start) && n <= |actions|
    ensures InOrder(start, actions, n)
    decreases n
  {
    if n == 0 {
      assert At(start, actions, 0) == start;
    } else {
      EveryMomentIsInOrder(start, actions, n - 1);
      StepKeepsOrder(start, actions, n - 1);
    }
  }

  /** The step that wrote the i-th mark of the history. */
  ghost predicate Wrote(start: World, actions: seq<Action>, k: nat, i: nat)
    requires k < |actions|
  {
    |At(start, actions, k).log| <= i < |At(start, actions, k + 1).log|
  }

  lemma {:induction false} WriterOf(start: World, actions: seq<Action>, n: nat, i: nat) returns (k: nat)
    requires Fresh(start) && n <= |actions| && i < |At(start, actions, n).log|
    ensures k < n && Wrote(start, actions, k, i)
    ensures At(start, actions, k + 1).log <= At(start, actions, n).log
    decreases n
  {
    if n == 0 {
      assert false;
    } else {
      NextMoment(start, actions, n - 1);
      EveryMomentIsSafe(start, actions, n - 1);
      StepIsExplained(At(start, actions, n - 1), actions[n - 1]);
      k := n - 1;
      if i < |At(start, actions, n - 1).log| { k := WriterOf(start, actions, n - 1, i); }
    }
  }

  // ---------------------------------------------------------------- main results

  /** Whatever the interleaving: every revocation of a handback is the answer of a clear page, given while the transition
      held the input lock. */
  lemma RevocationsNeedAClearPage(start: World, actions: seq<Action>, i: nat) returns (k: nat)
    requires Fresh(start) && i < |Steps(start, actions).log| && Steps(start, actions).log[i].Revoked?
    ensures k < |actions| && actions[k].SensitiveChecked? && actions[k].clear
    ensures var w := At(start, actions, k); |w.log| == i && w.transition.CheckingSensitive? && w.input.HeldByTransition?
  {
    assert actions[..|actions|] == actions;
    k := WriterOf(start, actions, |actions|, i);
    NextMoment(start, actions, k);
    EveryMomentIsSafe(start, actions, k);
    StepIsExplained(At(start, actions, k), actions[k]);
    assert MarkExplained(At(start, actions, k), actions[k], i, At(start, actions, k + 1).log[i]);
  }

  /** Without a clear answer nothing is ever revoked for a handback, and no run is admitted on one. */
  lemma NoHandbackWithoutAClearPage(start: World, actions: seq<Action>)
    requires Fresh(start) && forall k | 0 <= k < |actions| && actions[k].SensitiveChecked? :: !actions[k].clear
    ensures forall i | 0 <= i < |Steps(start, actions).log| ::
              !Steps(start, actions).log[i].Revoked? && !Steps(start, actions).log[i].Admitted?
  {
    forall i | 0 <= i < |Steps(start, actions).log|
      ensures !Steps(start, actions).log[i].Revoked? && !Steps(start, actions).log[i].Admitted?
    {
      if Steps(start, actions).log[i].Admitted? {
        HandoversAreBacked(start, actions, i);
        var j, d :| 0 <= j < d < i && Steps(start, actions).log[j] == Revoked(Steps(start, actions).log[i].revision)
                    && Steps(start, actions).log[d] == Drained(Steps(start, actions).log[i].revision);
        var k := RevocationsNeedAClearPage(start, actions, j);
      } else if Steps(start, actions).log[i].Revoked? {
        var k := RevocationsNeedAClearPage(start, actions, i);
      }
    }
  }

  /** Every run admitted on a handover was admitted for a handback that had, one after the other and each in its place,
      every positive answer: clear page, publication, drain, observation, resumption. */
  lemma AdmissionsHaveEveryAnswer(start: World, actions: seq<Action>, i: nat) returns (k: nat)
    requires Fresh(start) && i < |Steps(start, actions).log| && Steps(start, actions).log[i].Admitted?
    ensures k < |actions| && actions[k].Admit? && |At(start, actions, k).log| == i
    ensures Answered(start, actions, k, Steps(start, actions).log[i].revision, 6)
  {
    assert actions[..|actions|] == actions;
    k := WriterOf(start, actions, |actions|, i);
    NextMoment(start, actions, k);
    EveryMomentIsSafe(start, actions, k);
    StepIsExplained(At(start, actions, k), actions[k]);
    assert MarkExplained(At(start, actions, k), actions[k], i, At(start, actions, k + 1).log[i]);
    EveryMomentIsInOrder(start, actions, k);
  }

  /** So every admitted run is backed by a clear page, checked under the input lock in the very step that revoked the
      owner's lease; since then no lease stood and no input was accepted. */
  lemma AdmissionsFollowAClearPage(start: World, actions: seq<Action>, admitted: nat) returns (revoked: nat, k: nat)
    requires Fresh(start) && admitted < |Steps(start, actions).log| && Steps(start, actions).log[admitted].Admitted?
    ensures revoked < admitted && NoControlIn(Steps(start, actions).log, revoked, admitted)
    ensures Steps(start, actions).log[revoked] == Revoked(Steps(start, actions).log[admitted].revision)
    ensures k < |actions| && actions[k].SensitiveChecked? && actions[k].clear
    ensures var w := At(start, actions, k); |w.log| == revoked && w.transition.CheckingSensitive? && w.input.HeldByTransition?
  {
    var log := Steps(start, actions).log;
    HandoversAreBacked(start, actions, admitted);
    var i, d :| 0 <= i < d < admitted && log[i] == Revoked(log[admitted].revision) && log[d] == Drained(log[admitted].revision)
                && NoControlIn(log, i, admitted);
    revoked := i;
    k := RevocationsNeedAClearPage(start, actions, i);
  }

  /** If the page is not clear the handback ends, and nothing has happened: both locks are given back, and store, token,
      owner and everything else stay as they were. */
  lemma UnclearPagesChangeNothing(w: World, e: Env)
    requires w.transition.CheckingSensitive? && w.input == HeldByTransition
    ensures Core(w, SensitiveChecked(false, e)) == w.(transition := Idle, input := Free)
  {
  }
}
