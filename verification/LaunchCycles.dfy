/** What each request and each answer of the launch protocol does, and the whole life of one launch. */
module LaunchCycles {
  import opened Wrappers
  import opened LaunchModel
  import opened LaunchProofs

  /** The worker runs this browser, and nothing else. */
  predicate Runs(w: Worker, id: Id) {
    w.launch == Some(id) && w.chrome == Some(true) && w.replied
  }

  /** Nothing runs, and nothing is left to stop. */
  predicate Vacant(w: Worker) {
    w.launch.None? && w.chrome.None? && !w.replied && w.procs == {}
  }

  /** This launch was reaped: nothing of it is left, and the record names it. */
  predicate Reaped(w: Worker, v: Worker, id: Id) {
    Vacant(v) && v.reaped == w.reaped + {id} && v.order != [] && v.order[|v.order| - 1] == id
    && forall i <- w.retired :: i in v.retired || (|w.order| == RETIRED_KEPT && i == w.order[0])
  }

  lemma ReapingIsRecorded(w: Worker, id: Id)
    requires WorkerLaw(w) && w.launch == Some(id)
    ensures Reaped(w, Reap(w, id), id) && id in Reap(w, id).retired
  {
    ReapKeepsLaw(w, id);
    assert (w.order + [id])[|w.order|] == id;
    assert |w.order| == RETIRED_KEPT ==> (w.order + [id])[0] == w.order[0];
  }

  /** A start runs the browser exactly when nothing was launched, the launch was not retired and everything goes well, or
      repeats that it runs. A start that fails half way is refused once what it began has been reaped, and retained until
      then; any other start is refused and changes nothing. */
  lemma StartsRunOrLeaveNothing(w: Worker, id: Id, luck: Luck)
    requires WorkerLaw(w)
    ensures var (v, answer) := Start(w, id, luck);
            var tried := w.launch.None? && id !in w.retired && luck.wellFormed;
            && (answer == Some(Running) <==> (tried && luck.spawned && luck.ready) || (id !in w.retired && Runs(w, id)))
            && (answer == Some(Retained) <==> tried && !(luck.spawned && luck.ready) && !luck.reaps)
            && (answer == Some(RefusedState) <==> answer != Some(Running) && answer != Some(Retained))
            && (answer == Some(Running) ==> Runs(v, id) && v.procs == (if tried then {id} else w.procs) && v.reaped == w.reaped
                                            && v.retired == w.retired && v.order == w.order)
            && (answer == Some(Retained) ==> && v.launch == Some(id) && !v.replied && v.retired == w.retired && v.reaped == w.reaped
                                             && v.order == w.order && v.procs == (if luck.spawned then {id} else {})
                                             && v.chrome == (if luck.spawned then Some(true) else None))
            && (answer == Some(RefusedState) ==> if tried then Reaped(w, v, id) else v == w)
  {
    if w.launch.None? && id !in w.retired && luck.wellFormed && !(luck.spawned && luck.ready) {
      var begun := w.(launch := Some(id), chrome := if luck.spawned then Some(true) else None,
                      procs := if luck.spawned then w.procs + {id} else w.procs);
      ReapingIsRecorded(begun, id);
    }
  }

  /** A stop answers that the launch is retired exactly when it was, or when it is the launched one and has now been
      reaped; it knows no other launch; and while the launched one cannot be reaped it does not answer, and nothing
      changes. */
  lemma StopsReapTheLaunch(w: Worker, id: Id, luck: Luck)
    requires WorkerLaw(w)
    ensures var (v, answer) := Stop(w, id, luck);
            && (answer == Some(RetiredState) <==> id in w.retired || (w.launch == Some(id) && luck.reaps))
            && (answer == Some(UnknownState) <==> id !in w.retired && w.launch != Some(id))
            && (answer.None? <==> id !in w.retired && w.launch == Some(id) && !luck.reaps)
            && (if answer == Some(RetiredState) && id !in w.retired then Reaped(w, v, id) && id in v.retired else v == w)
  {
    if w.launch == Some(id) { ReapingIsRecorded(w, id); }
  }

  /** A status tells a running browser from a retired one and changes nothing; it stops a dead one before it answers. */
  lemma StatusTellsTheTruth(w: Worker, id: Id, luck: Luck)
    requires WorkerLaw(w)
    ensures var (v, answer) := Status(w, id, luck);
            && (answer == Some(Running) <==> w.launch == Some(id) && w.chrome.Some? && w.chrome.value)
            && (if w.launch == Some(id) && w.chrome.Some? && !w.chrome.value then (v, answer) == Stop(w, id, luck)
                else v == w && (answer == Some(RetiredState) <==> id in w.retired)
                            && answer in {Some(Running), Some(RetiredState), Some(UnknownState)})
  {
  }

  /** A browser that died is never reported as running, by a start or a status; the worker still holds its launch, to be
      stopped. */
  lemma DeadBrowsersAreNoticed(s: System, id: Id, luck: Luck)
    requires WorkerLaw(s.worker) && s.worker.launch == Some(id) && s.worker.chrome.Some?
    ensures var dead := Step(s, BrowserDies).worker;
            && Step(s, BrowserDies) == s.(worker := dead)
            && dead == s.worker.(procs := {}, chrome := dead.chrome)
            && Start(dead, id, luck) == (dead, Some(RefusedState)) && Status(dead, id, luck) == Stop(dead, id, luck)
            && Status(dead, id, luck).1 == if luck.reaps then Some(RetiredState) else None
  {
    WorkerKeepsLaw(s.worker, id, luck);
  }

  // ---------------------------------------------------------------- the client

  /** A launch begins exactly when the client owns nothing unretired, under an id never used before; a launch that was
      sent is owned before anything is known of it, and one that was not sent is not. */
  lemma LaunchesAreOwned(s: System, id: Id, sent: bool)
    ensures var v := Step(s, Launch(id, sent));
            var free := s.launching.None? && (s.chrome.Some? ==> s.chrome.value.retired) && id !in s.issued;
            && (!free ==> v == s)
            && (free ==> && v.issued == s.issued + {id} && v.worker == s.worker && v.answers == s.answers
                         && v.launching == (if sent then Some(id) else None)
                         && v.chrome == (if sent then Some(Remote(id, false, false)) else None)
                         && v.flying == (if sent then s.flying + multiset{StartRequest(id)} else s.flying))
  {
  }

  /** A refusal of the launch being waited for releases it, and a running browser is confirmed. No answer, or any other
      one, keeps the launch owned. An answer that was never given does nothing. */
  lemma OnlyRefusalsRelease(s: System, state: State)
    ensures var v := Step(s, StartAnswered(state));
            var told := s.launching.Some? && StartReply(s.launching.value, state) in s.answers;
            && (!told ==> v == s)
            && (told && state == RefusedState ==> v == s.(launching := None, chrome := None))
            && (told && state != RefusedState ==>
                  && v == s.(launching := None, chrome := v.chrome) && (v.chrome.Some? <==> s.chrome.Some?)
                  && (v.chrome.Some? ==> v.chrome.value.id == s.chrome.value.id && v.chrome.value.retired == s.chrome.value.retired
                                         && (v.chrome.value.confirmed <==> s.chrome.value.confirmed || state == Running)))
    ensures Step(s, StartLost) == s.(launching := None)
  {
  }

  /** The owned handle is retired exactly by an answer that says so of its own launch, and forgotten only once it is. */
  lemma OnlyRetirementForgets(s: System)
    ensures var v := Step(s, StopAnswered);
            v == if s.chrome.Some? && StopReply(s.chrome.value.id, RetiredState) in s.answers
                 then s.(chrome := Some(s.chrome.value.(retired := true))) else s
    ensures var v := Step(s, StatusAnswered);
            v == if s.chrome.Some? && StatusReply(s.chrome.value.id, RetiredState) in s.answers
                 then s.(chrome := Some(s.chrome.value.(retired := true))) else s
    ensures Step(s, Forget) == if s.chrome.Some? && s.chrome.value.retired then s.(chrome := None) else s
    ensures s.chrome.Some? ==>
              && Step(s, SendStop) == s.(flying := s.flying + multiset{StopRequest(s.chrome.value.id)})
              && Step(s, SendStatus) == s.(flying := s.flying + multiset{StatusRequest(s.chrome.value.id)})
    ensures s.chrome.None? ==> Step(s, SendStop) == s && Step(s, SendStatus) == s
  {
  }

  /** From the launch to its confirmation: its browser, and no other, is alive, and the client may not launch another. */
  lemma LaunchesRun(s: System, id: Id) returns (running: System)
    requires Sound(s) && s.launching.None? && (s.chrome.Some? ==> s.chrome.value.retired) && id !in s.issued
    ensures running == Step(Step(Step(s, Launch(id, true)), Deliver(StartRequest(id), LUCKY)), StartAnswered(Running))
    ensures Sound(running) && running.chrome == Some(Remote(id, true, false)) && running.launching.None?
    ensures Runs(running.worker, id) && running.worker.procs == {id} && running.flying == s.flying && !MayLaunch(running)
  {
    OwnedUntilSettled(s);
    assert id !in s.worker.retired;
    var begun := Step(s, Launch(id, true));
    var started := Step(begun, Deliver(StartRequest(id), LUCKY));
    running := Step(started, StartAnswered(Running));
    StartsRunOrLeaveNothing(s.worker, id, LUCKY);
    assert started.flying == s.flying;
    StepKeepsSound(s, Launch(id, true));
    StepKeepsSound(begun, Deliver(StartRequest(id), LUCKY));
    StepKeepsSound(started, StartAnswered(Running));
  }

  /** From the stop of an owned launch to its end: it is reaped and forgotten, nothing is alive, and the client may launch
      again. */
  lemma LaunchesRetire(s: System, id: Id) returns (gone: System)
    requires Sound(s) && s.chrome == Some(Remote(id, true, false)) && s.launching.None? && Runs(s.worker, id)
    ensures gone == Step(Step(Step(Step(s, SendStop), Deliver(StopRequest(id), LUCKY)), StopAnswered), Forget)
    ensures gone.chrome.None? && MayLaunch(gone) && Vacant(gone.worker) && id in gone.worker.reaped && gone.flying == s.flying
  {
    var asked := Step(s, SendStop);
    var stopped := Step(asked, Deliver(StopRequest(id), LUCKY));
    StopsReapTheLaunch(s.worker, id, LUCKY);
    assert stopped.flying == s.flying;
    gone := Step(Step(stopped, StopAnswered), Forget);
  }

  /** If the answer to the stop was lost, a status of the reaped launch retires the handle just as well. */
  lemma LostStopsAreAskedAgain(s: System, id: Id, confirmed: bool, luck: Luck) returns (gone: System)
    requires Sound(s) && s.chrome == Some(Remote(id, confirmed, false)) && id in s.worker.retired
    ensures gone == Step(Step(Step(Step(s, SendStatus), Deliver(StatusRequest(id), luck)), StatusAnswered), Forget)
    ensures gone.chrome.None? && gone.worker == s.worker && gone.flying == s.flying
  {
    var asked := Step(s, SendStatus);
    var told := Step(asked, Deliver(StatusRequest(id), luck));
    StatusTellsTheTruth(s.worker, id, luck);
    assert told.flying == s.flying && StatusReply(id, RetiredState) in told.answers;
    gone := Step(Step(told, StatusAnswered), Forget);
  }
}
