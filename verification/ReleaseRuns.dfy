/** What a release run does from its first step to its last, exactly when a step stops it, and what that leaves. */
module ReleaseRuns {
  import opened Wrappers
  import opened ReleaseModel
  import opened ReleaseProofs

  /** A run begins exactly within one to three attempts of authority, alone, and not after an integrity stop. To apply, it
      needs an attempt left and, if one was made already, a diagnosed failure and a reason; a completed release is
      verified instead. */
  lemma RunsBeginOnAuthority(w: World, verb: Verb, limit: nat, reason: bool)
    ensures var v, j := Act(w, Begin(verb, limit, reason)), Loaded(w.disk);
            var applies := verb == Apply && j.phase != Verified;
            var begins := && w.memory.None? && 1 <= limit <= 3 && !j.integrityStop
                          && (applies ==> j.attempts < limit && (j.attempts == 0 || (j.retryable && reason)));
            v == if begins then w.(memory := Some(Memory(j, if applies then Apply else Verify, j.phase == Verified, Inspecting))) else w
  {
  }

  /** Why the next step stops the run, and whether the failure is diagnosed as retryable. */
  function Hindrance(m: Memory, d: Disk): Option<bool> {
    match m.step
    case Inspecting =>
      if m.verb == Verify && !(m.state.ownerBefore.Some? && m.state.snapshot.Some? && d.unit == Candidate) then Some(false) else None
    case Quieting => if d.facts.busy then Some(true) else None
    case Inventorying =>
      if d.facts.busy then Some(true) else if m.state.ownerBefore in {None, Some(d.facts)} then None else Some(false)
    case Bracketing(before, _) => if before == d.facts then None else Some(false)
    case Checking =>
      if m.state.attempts in d.snapshots && m.state.snapshot == Some(d.snapshots[m.state.attempts]) then None else Some(false)
    case Confirming => if m.completed || m.state.ownerBefore == Some(d.facts) then None else Some(false)
    case _ => None
  }

  /** A hindered run ends: the journal keeps what the run knew, and whether it may be retried; unit, snapshots, service
      and owner data are not touched. Without a hindrance no step ends the run but its report. */
  lemma HinderedRunsStop(w: World, digest: nat)
    requires w.memory.Some?
    ensures var v, m := Act(w, Advance(Fine, digest)), w.memory.value;
            match Hindrance(m, w.disk)
            case Some(retryable) =>
              var saved := m.state.(retryable := retryable, integrityStop := m.state.integrityStop || !retryable);
              v == World(w.disk.(journal := Some(saved)), None)
            case None => v.memory.None? ==> m.step == Reporting && v.disk == w.disk
  {
  }

  /** A failure of the step itself is saved the same way; a service that was stopped all the same is in the history. A
      crash saves nothing, and the owner's writes touch nothing but the owner's data. */
  lemma FailuresAreSaved(w: World, digest: nat, retryable: bool)
    requires w.memory.Some?
    ensures var m := w.memory.value;
            var saved := m.state.(retryable := retryable, integrityStop := m.state.integrityStop || !retryable);
            && Act(w, Advance(if retryable then Retryable else Refused, digest)) == World(w.disk.(journal := Some(saved)), None)
            && (m.step == Stopping ==>
                  Act(w, StopThenFail(retryable))
                  == World(w.disk.(journal := Some(saved), history := w.disk.history + [Stopped(m.state.attempts)]), None))
            && Act(w, Crash) == World(w.disk, None)
            && forall facts :: Act(w, OwnerWrites(facts)) == World(w.disk.(facts := facts), w.memory)
  {
  }

  function Next(w: World, digest: nat): World {
    Act(w, Advance(Fine, digest))
  }

  function Advanced(w: World, digest: nat, n: nat): World
    decreases n
  {
    if n == 0 then w else Advanced(Next(w, digest), digest, n - 1)
  }

  /** The applying run at this step, with what it knows and what is on disk. */
  function Applying(d: Disk, state: Journal, step: Step): World {
    World(d, Some(Memory(state, Apply, false, step)))
  }

  lemma Ahead(w: World, digest: nat, n: nat, v: World)
    requires n > 0 && v == Next(w, digest)
    ensures Advanced(w, digest, n) == Advanced(v, digest, n - 1)
  {
  }

  lemma ServiceIsStopped(d: Disk, j: Journal, digest: nat, n: nat)
    requires !d.facts.busy && n >= 6
    ensures var state := j.(phase := ApiStopped, attempts := j.attempts + 1, retryable := false);
            Advanced(Applying(d, j, Inspecting), digest, n)
            == Advanced(Applying(d.(journal := Some(state), history := d.history + [Stopped(j.attempts + 1)]), state, Inventorying),
                        digest, n - 6)
  {
    var s := j.(attempts := j.attempts + 1, retryable := false);
    var counted, quiet, staged := s.(phase := PreflightStarted), s.(phase := PreflightComplete), s.(phase := Staged);
    var stopped := d.(journal := Some(staged), history := d.history + [Stopped(s.attempts)]);
    Ahead(Applying(d, j, Inspecting), digest, n, Applying(d, j, Counting));
    Ahead(Applying(d, j, Counting), digest, n - 1, Applying(d.(journal := Some(counted)), counted, Quieting));
    Ahead(Applying(d.(journal := Some(counted)), counted, Quieting), digest, n - 2, Applying(d.(journal := Some(quiet)), quiet, Staging));
    Ahead(Applying(d.(journal := Some(quiet)), quiet, Staging), digest, n - 3, Applying(d.(journal := Some(staged)), staged, Stopping));
    Ahead(Applying(d.(journal := Some(staged)), staged, Stopping), digest, n - 4, Applying(stopped, staged, SavingStopped));
    var saved := s.(phase := ApiStopped);
    Ahead(Applying(stopped, staged, SavingStopped), digest, n - 5, Applying(stopped.(journal := Some(saved)), saved, Inventorying));
  }

  lemma SnapshotIsBracketed(d: Disk, s: Journal, digest: nat, n: nat)
    requires !d.facts.busy && s.ownerBefore in {None, Some(d.facts)} && n >= 3
    ensures var state := s.(ownerBefore := Some(d.facts), phase := SnapshotVerified, snapshot := Some(digest));
            Advanced(Applying(d, s, Inventorying), digest, n)
            == Advanced(Applying(d.(journal := Some(state), snapshots := d.snapshots[s.attempts := digest],
                                    history := d.history + [Bracketed(s.attempts, d.facts, d.facts)]), state, Publishing), digest, n - 3)
  {
    var known := s.(ownerBefore := Some(d.facts));
    var kept := d.(snapshots := d.snapshots[s.attempts := digest]);
    Ahead(Applying(d, s, Inventorying), digest, n, Applying(d, known, Snapshotting(d.facts)));
    Ahead(Applying(d, known, Snapshotting(d.facts)), digest, n - 1, Applying(kept, known, Bracketing(d.facts, digest)));
    var state := known.(phase := SnapshotVerified, snapshot := Some(digest));
    Ahead(Applying(kept, known, Bracketing(d.facts, digest)), digest, n - 2,
          Applying(kept.(journal := Some(state), history := d.history + [Bracketed(s.attempts, d.facts, d.facts)]), state, Publishing));
  }

  lemma CandidateIsVerified(d: Disk, s: Journal, digest: nat, n: nat)
    requires s.ownerBefore == Some(d.facts) && s.attempts in d.snapshots && s.snapshot == Some(d.snapshots[s.attempts])
    requires n == 6
    ensures Advanced(Applying(d, s, Publishing), digest, n)
            == World(d.(journal := Some(s.(phase := Verified)), unit := Candidate,
                        history := d.history + [Switched(s.attempts)] + [FirstVerified(d.facts)]), None)
  {
    var published, started, verified := s.(phase := CandidatePublished), s.(phase := CandidateStarted), s.(phase := Verified);
    var switched := d.(unit := Candidate, history := d.history + [Switched(s.attempts)]);
    var done := switched.(journal := Some(verified), history := switched.history + [FirstVerified(d.facts)]);
    Ahead(Applying(d, s, Publishing), digest, n, Applying(switched, s, SavingPublished));
    Ahead(Applying(switched, s, SavingPublished), digest, n - 1, Applying(switched.(journal := Some(published)), published, Starting));
    Ahead(Applying(switched.(journal := Some(published)), published, Starting), digest, n - 2,
          Applying(switched.(journal := Some(started)), started, Checking));
    Ahead(Applying(switched.(journal := Some(started)), started, Checking), digest, n - 3,
          Applying(switched.(journal := Some(started)), started, Confirming));
    Ahead(Applying(switched.(journal := Some(started)), started, Confirming), digest, n - 4, Applying(done, verified, Reporting));
    Ahead(Applying(done, verified, Reporting), digest, n - 5, World(done, None));
  }

  /** A run that begins to apply and that nothing hinders verifies the release: one stop, one snapshot between two equal
      inventories, one switch, and the owner's data as it was before. */
  lemma UnhinderedRunsVerify(d: Disk, j: Journal, digest: nat, steps: nat)
    requires steps == 15 && !d.facts.busy && j.ownerBefore in {None, Some(d.facts)}
    ensures var n, state := j.attempts + 1, j.(phase := Verified, attempts := j.attempts + 1, retryable := false,
                                              ownerBefore := Some(d.facts), snapshot := Some(digest));
            Advanced(Applying(d, j, Inspecting), digest, steps)
            == World(Disk(Some(state), Candidate, d.snapshots[n := digest], d.facts,
                          d.history + [Stopped(n)] + [Bracketed(n, d.facts, d.facts)] + [Switched(n)] + [FirstVerified(d.facts)]), None)
  {
    var n := j.attempts + 1;
    ServiceIsStopped(d, j, digest, steps);
    var s := j.(phase := ApiStopped, attempts := n, retryable := false);
    var stopped := d.(journal := Some(s), history := d.history + [Stopped(n)]);
    SnapshotIsBracketed(stopped, s, digest, steps - 6);
    var t := s.(ownerBefore := Some(d.facts), phase := SnapshotVerified, snapshot := Some(digest));
    var taken := stopped.(journal := Some(t), snapshots := d.snapshots[n := digest],
                          history := stopped.history + [Bracketed(n, d.facts, d.facts)]);
    CandidateIsVerified(taken, t, digest, steps - 9);
  }

  /** A verified release whose snapshot and unit are in place is verified again by either verb, whatever the owner has
      written since, and nothing on disk changes. */
  lemma VerifyingAgainChangesNothing(w: World, verb: Verb, limit: nat, reason: bool, digest: nat)
    requires w.memory.None? && 1 <= limit <= 3 && w.disk.journal.Some? && w.disk.unit == Candidate
    requires var j := w.disk.journal.value;
             && j.phase == Verified && !j.integrityStop && j.ownerBefore.Some?
             && j.attempts in w.disk.snapshots && j.snapshot == Some(w.disk.snapshots[j.attempts])
    ensures Advanced(Act(w, Begin(verb, limit, reason)), digest, 4) == w
  {
    var d, j := w.disk, w.disk.journal.value;
    var at := (step: Step) => World(d, Some(Memory(j, Verify, true, step)));
    Ahead(at(Inspecting), digest, 4, at(Checking));
    Ahead(at(Checking), digest, 3, at(Confirming));
    assert j.(phase := Verified) == j;
    Ahead(at(Confirming), digest, 2, at(Reporting));
    Ahead(at(Reporting), digest, 1, w);
  }
}
