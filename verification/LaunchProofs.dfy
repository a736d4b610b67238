/** One browser at a time, and ownership that survives lost requests and lost replies. */
module LaunchProofs {
  import opened Wrappers
  import opened LaunchModel

  // ---------------------------------------------------------------- the worker

  predicate Distinct(s: seq<Id>) {
    forall i, j | 0 <= i < j < |s| :: s[i] != s[j]
  }

  predicate SameElements(order: seq<Id>, retired: set<Id>) {
    (forall i | 0 <= i < |order| :: order[i] in retired) && (forall id | id in retired :: id in order)
  }

  predicate WorkerLaw(w: Worker) {
    && SameElements(w.order, w.retired) && Distinct(w.order) && |w.order| <= RETIRED_KEPT && w.retired <= w.reaped
    && (w.launch.None? ==> w.chrome.None? && !w.replied && w.procs == {})
    && (w.launch.Some? ==> w.launch.value !in w.retired && w.procs <= {w.launch.value})
    && (w.chrome == Some(false) ==> w.procs == {})
  }

  lemma ReapKeepsLaw(w: Worker, id: Id)
    requires WorkerLaw(w) && w.launch == Some(id)
    ensures WorkerLaw(Reap(w, id))
  {
    var longer := w.order + [id];
    assert forall i | 0 <= i < |w.order| :: longer[i] == w.order[i];
    var order, retired := Remember(w.order, id), (w.retired + {id}) - Forgotten(w.order, id);
    if |longer| > RETIRED_KEPT {
      assert forall i | 0 <= i < |order| :: order[i] == longer[i + 1];
      forall r | r in retired ensures r in order {
        var i :| 0 <= i < |longer| && longer[i] == r;
        assert i > 0 && order[i - 1] == r;
      }
    }
  }

  /** Every request and every death leaves at most one live browser, the launched one, and the bounded record equal
      to its queue. */
  lemma WorkerKeepsLaw(w: Worker, id: Id, luck: Luck)
    requires WorkerLaw(w)
    ensures WorkerLaw(Start(w, id, luck).0) && WorkerLaw(Stop(w, id, luck).0) && WorkerLaw(Status(w, id, luck).0)
    ensures WorkerLaw(Die(w)) && |Start(w, id, luck).0.procs| <= 1
  {
    if w.launch == Some(id) {
      ReapKeepsLaw(w, id);
    } else if w.launch.None? && id !in w.retired {
      var begun := w.(launch := Some(id), chrome := if luck.spawned then Some(true) else None,
                      procs := if luck.spawned then w.procs + {id} else w.procs);
      ReapKeepsLaw(begun, id);
    }
    var procs := Start(w, id, luck).0.procs;
    forall p, q | p in procs && q in procs ensures p == q {}
    AtMostOne(procs);
  }

  lemma AtMostOne(s: set<Id>)
    requires forall p, q | p in s && q in s :: p == q
    ensures |s| <= 1
  {
    if s != {} {
      var p :| p in s;
      assert s == {p};
    }
  }

  const LUCKY := Luck(true, true, true, true)

  /** Retirement is remembered for 128 launches only. An idle worker refuses to start a retired launch exactly while it
      remembers it; and once its record is full, one more launch and stop make it forget the oldest, whose repeated start
      then runs a browser again. What follows therefore rests on one start per launch id, which the client guarantees. */
  lemma ForgottenLaunchesCouldRestart(w: Worker, oldest: Id, x: Id)
    requires WorkerLaw(w) && w.launch.None?
    ensures w.retired <= w.reaped && (Start(w, oldest, LUCKY).1 == Some(Running) <==> oldest !in w.retired)
    ensures |w.order| == RETIRED_KEPT && x !in w.reaped && oldest == w.order[0] ==>
              var next := Stop(Start(w, x, LUCKY).0, x, LUCKY).0;
              oldest in next.reaped && oldest !in next.retired && Start(next, oldest, LUCKY).1 == Some(Running)
  {
    if |w.order| == RETIRED_KEPT && x !in w.reaped && oldest == w.order[0] {
      var begun := Start(w, x, LUCKY).0;
      var next := Stop(begun, x, LUCKY).0;
      assert (w.order + [x])[0] == oldest;
      assert next == Reap(begun, x) && Forgotten(w.order, x) == {oldest};
    }
  }

  // ---------------------------------------------------------------- client and worker together

  predicate AnswersLaw(s: System) {
    forall r | r in s.answers ::
      && (!r.StartReply? && r.state == RetiredState ==> r.id in s.worker.reaped)
      && (r.StartReply? && r.state == RefusedState ==> r.id in s.issued && StartRequest(r.id) !in s.flying && s.worker.launch != Some(r.id))
  }

  ghost predicate StartsLaw(s: System) {
    && s.worker.reaped <= s.issued
    && (forall id | StartRequest(id) in s.flying ::
          id in s.issued && s.flying[StartRequest(id)] == 1 && id !in s.worker.reaped && s.worker.launch != Some(id)
          && s.chrome.Some? && s.chrome.value.id == id)
  }

  /** Whatever the worker has launched is what the client still owns. */
  predicate OwnershipLaw(s: System) {
    && (s.worker.launch.Some? ==> var id := s.worker.launch.value;
          id in s.issued && id !in s.worker.reaped && s.chrome.Some? && s.chrome.value.id == id)
    && (s.chrome.Some? ==> s.chrome.value.id in s.issued && (s.chrome.value.retired ==> s.chrome.value.id in s.worker.reaped))
    && (s.launching.Some? ==> s.launching.value in s.issued && (s.chrome.Some? ==> s.chrome.value.id == s.launching.value))
  }

  ghost predicate Sound(s: System) {
    WorkerLaw(s.worker) && AnswersLaw(s) && StartsLaw(s) && OwnershipLaw(s)
  }

  lemma ClientKeepsSound(s: System, a: Action)
    requires Sound(s) && !a.Deliver? && !a.Launch? && !a.SendStop? && !a.SendStatus?
    ensures Sound(Step(s, a))
  {
    if a.BrowserDies? { WorkerKeepsLaw(s.worker, "", Luck(true, true, true, true)); }
  }

  lemma LaunchKeepsSound(s: System, id: Id, sent: bool)
    requires Sound(s)
    ensures Sound(BeginLaunch(s, id, sent))
  {
    if MayLaunch(s) && id !in s.issued {
      OwnedUntilSettled(s);
      var t := BeginLaunch(s, id, sent);
      assert forall r | r in t.flying :: r in s.flying || r == StartRequest(id);
      assert StartRequest(id) !in s.flying;
    }
  }

  lemma SendKeepsSound(s: System, r: Request)
    requires Sound(s) && !r.StartRequest?
    ensures Sound(s.(flying := s.flying + multiset{r}))
  {
    var t := s.(flying := s.flying + multiset{r});
    assert forall id :: t.flying[StartRequest(id)] == s.flying[StartRequest(id)];
  }

  lemma DeliverStartKeepsSound(s: System, id: Id, luck: Luck)
    requires Sound(s) && StartRequest(id) in s.flying
    ensures Sound(DeliverRequest(s, StartRequest(id), luck))
  {
    var t := DeliverRequest(s, StartRequest(id), luck);
    WorkerKeepsLaw(s.worker, id, luck);
    assert forall i | i != id :: t.flying[StartRequest(i)] == s.flying[StartRequest(i)];
    assert t.flying[StartRequest(id)] == 0;
  }

  lemma DeliverStopKeepsSound(s: System, id: Id, luck: Luck)
    requires Sound(s) && StopRequest(id) in s.flying
    ensures Sound(DeliverRequest(s, StopRequest(id), luck))
  {
    var t := DeliverRequest(s, StopRequest(id), luck);
    WorkerKeepsLaw(s.worker, id, luck);
    assert forall i :: t.flying[StartRequest(i)] == s.flying[StartRequest(i)];
  }

  lemma DeliverStatusKeepsSound(s: System, id: Id, luck: Luck)
    requires Sound(s) && StatusRequest(id) in s.flying
    ensures Sound(DeliverRequest(s, StatusRequest(id), luck))
  {
    var t := DeliverRequest(s, StatusRequest(id), luck);
    WorkerKeepsLaw(s.worker, id, luck);
    assert forall i :: t.flying[StartRequest(i)] == s.flying[StartRequest(i)];
  }

  lemma StepKeepsSound(s: System, a: Action)
    requires Sound(s)
    ensures Sound(Step(s, a))
  {
    match a
    case Launch(id, sent) => LaunchKeepsSound(s, id, sent);
    case SendStop => if s.chrome.Some? { SendKeepsSound(s, StopRequest(s.chrome.value.id)); }
    case SendStatus => if s.chrome.Some? { SendKeepsSound(s, StatusRequest(s.chrome.value.id)); }
    case Deliver(request, luck) =>
      if request in s.flying {
        match request
        case StartRequest(id) => DeliverStartKeepsSound(s, id, luck);
        case StopRequest(id) => DeliverStopKeepsSound(s, id, luck);
        case StatusRequest(id) => DeliverStatusKeepsSound(s, id, luck);
      }
    case _ => ClientKeepsSound(s, a);
  }

  lemma {:induction false} EveryRunIsSound(s: System, actions: seq<Action>)
    requires Sound(s)
    ensures Sound(Steps(s, actions))
    decreases |actions|
  {
    if actions != [] {
      StepKeepsSound(s, actions[0]);
      EveryRunIsSound(Step(s, actions[0]), actions[1..]);
    }
  }

  // ---------------------------------------------------------------- main results

  /** When the client is free to launch, nothing it launched before is alive, launched, or still on its way. */
  lemma OwnedUntilSettled(s: System)
    requires Sound(s) && MayLaunch(s)
    ensures s.worker.launch.None? && s.worker.procs == {} && forall id :: StartRequest(id) !in s.flying
  {
  }

  /** With requests and replies lost or delayed arbitrarily and one start per id: there is at most one live browser and
      it is the one the client owns; a new launch begins only when nothing earlier is alive or can still start. */
  lemma {:induction false} NeverTwoBrowsers(actions: seq<Action>, id: Id, sent: bool)
    ensures var s := Steps(NEW_SYSTEM, actions);
            && |s.worker.procs| <= 1
            && (forall p | p in s.worker.procs :: s.worker.launch == Some(p) && s.chrome.Some? && s.chrome.value.id == p)
            && (BeginLaunch(s, id, sent) != s ==>
                  s.worker.launch.None? && s.worker.procs == {} && forall i :: StartRequest(i) !in s.flying)
  {
    EveryRunIsSound(NEW_SYSTEM, actions);
    var s := Steps(NEW_SYSTEM, actions);
    WorkerKeepsLaw(s.worker, "", Luck(true, true, true, true));
    forall p, q | p in s.worker.procs && q in s.worker.procs ensures p == q {}
    AtMostOne(s.worker.procs);
    if MayLaunch(s) { OwnedUntilSettled(s); }
  }

  /** The handle reports retirement only after the worker has reaped that very launch, and the worker's bounded record
      equals the elements of its queue, at most 128 of them. */
  lemma {:induction false} RetiredMeansReaped(actions: seq<Action>)
    ensures var s := Steps(NEW_SYSTEM, actions);
            && (s.chrome.Some? && s.chrome.value.retired ==>
                  s.chrome.value.id in s.worker.reaped && s.chrome.value.id !in s.worker.procs && s.worker.launch != Some(s.chrome.value.id))
            && (forall id :: id in s.worker.retired <==> id in s.worker.order) && |s.worker.order| <= RETIRED_KEPT
  {
    EveryRunIsSound(NEW_SYSTEM, actions);
  }
}
