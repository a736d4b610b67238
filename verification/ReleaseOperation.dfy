/** The release operation as an object: what is on disk, and the journal a running operation holds in memory. Every method
    is the stretch of the operation between two points where a crash matters. */
module ReleaseOperations {
  import opened Wrappers
  import opened ReleaseModel

  class Release {
    var journal: Option<Journal>
    var unit: Unit
    var snapshots: map<nat, nat>
    var facts: Facts
    ghost var history: seq<Event>
    var running: bool
    var state: Journal
    var verb: Verb
    var completed: bool
    var step: Step

    ghost function View(): World
      reads this
    {
      World(Disk(journal, unit, snapshots, facts, history), if running then Some(Memory(state, verb, completed, step)) else None)
    }

    constructor (facts: Facts)
      ensures View() == World(Disk(None, Baseline, map[], facts, []), None)
    {
      journal, unit, snapshots, this.facts, history := None, Baseline, map[], facts, [];
      running, state, verb, completed, step := false, FRESH_JOURNAL, Apply, false, Inspecting;
    }

    method Begin(asked: Verb, limit: nat, reason: bool)
      modifies this
      ensures View() == BeginRun(old(View()), asked, limit, reason)
    {
      if running || !(1 <= limit <= MAX_ATTEMPTS) { return; }
      var saved := if journal.Some? then journal.value else FRESH_JOURNAL;
      if saved.integrityStop { return; }
      var done := saved.phase == Verified;
      var actual := asked;
      if asked == Apply && done { actual := Verify; }
      if actual == Apply && saved.attempts > 0 {
        if !saved.retryable || !reason { return; }
      }
      if actual == Apply && saved.attempts >= limit { return; }
      running, state, verb, completed, step := true, saved, actual, done, Inspecting;
    }

    method Save(phase: Phase, next: Step)
      requires running
      modifies this
      ensures View() == ReleaseModel.Save(old(View()), old(state).(phase := phase), next)
    {
      state := state.(phase := phase);
      journal := Some(state);
      step := next;
    }

    /** The handler of every exception after the first receipt. */
    method Fail(retryable: bool)
      requires running
      modifies this
      ensures View() == ReleaseModel.Fail(old(View()), retryable)
    {
      state := state.(retryable := retryable);
      if !retryable { state := state.(integrityStop := true); }
      journal := Some(state);
      running := false;
    }

    method Crash()
      modifies this
      ensures View() == Act(old(View()), Action.Crash)
    {
      running := false;
    }

    method Inspect(digest: nat)
      requires running && step == Inspecting
      modifies this
      ensures View() == Proceed(old(View()), digest)
    {
      if verb == Apply {
        step := Counting;
      } else if state.ownerBefore.None? || state.snapshot.None? || unit != Candidate {
        Fail(false);
      } else {
        step := Checking;
      }
    }

    /** Attempts are counted, durably, before anything can be stopped. */
    method CountAttempt(digest: nat)
      requires running && step == Counting
      modifies this
      ensures View() == Proceed(old(View()), digest)
    {
      state := state.(attempts := state.attempts + 1, retryable := false);
      Save(PreflightStarted, Quieting);
    }

    method Preflight(digest: nat)
      requires running && step == Quieting
      modifies this
      ensures View() == Proceed(old(View()), digest)
    {
      if facts.busy { Fail(true); } else { Save(PreflightComplete, Staging); }
    }

    method Stage(digest: nat)
      requires running && step == Staging
      modifies this
      ensures View() == Proceed(old(View()), digest)
    {
      Save(Staged, Stopping);
    }

    method StopService(digest: nat)
      requires running && step == Stopping
      modifies this
      ensures View() == Proceed(old(View()), digest)
    {
      history := history + [Stopped(state.attempts)];
      step := SavingStopped;
    }

    method SaveStopped(digest: nat)
      requires running && step == SavingStopped
      modifies this
      ensures View() == Proceed(old(View()), digest)
    {
      Save(ApiStopped, Inventorying);
    }

    /** A retry compares with the recorded baseline instead of replacing it. */
    method TakeInventory(digest: nat)
      requires running && step == Inventorying
      modifies this
      ensures View() == Proceed(old(View()), digest)
    {
      var before := facts;
      if before.busy { Fail(true); return; }
      if state.ownerBefore.Some? {
        if state.ownerBefore.value != before { Fail(false); return; }
      } else {
        state := state.(ownerBefore := Some(before));
      }
      step := Snapshotting(before);
    }

    method TakeSnapshot(digest: nat)
      requires running && step.Snapshotting?
      modifies this
      ensures View() == Proceed(old(View()), digest)
    {
      snapshots := snapshots[state.attempts := digest];
      step := Bracketing(step.before, digest);
    }

    method CheckBracket(digest: nat)
      requires running && step.Bracketing?
      modifies this
      ensures View() == Proceed(old(View()), digest)
    {
      if step.before != facts { Fail(false); return; }
      history := history + [Bracketed(state.attempts, step.before, facts)];
      state := state.(snapshot := Some(step.digest));
      Save(SnapshotVerified, Publishing);
    }

    method Publish(digest: nat)
      requires running && step == Publishing
      modifies this
      ensures View() == Proceed(old(View()), digest)
    {
      unit := Candidate;
      history := history + [Switched(state.attempts)];
      step := SavingPublished;
    }

    method SavePublished(digest: nat)
      requires running && step == SavingPublished
      modifies this
      ensures View() == Proceed(old(View()), digest)
    {
      Save(CandidatePublished, Starting);
    }

    method StartCandidate(digest: nat)
      requires running && step == Starting
      modifies this
      ensures View() == Proceed(old(View()), digest)
    {
      Save(CandidateStarted, Checking);
    }

    method CheckSnapshot(digest: nat)
      requires running && step == Checking
      modifies this
      ensures View() == Proceed(old(View()), digest)
    {
      if state.attempts !in snapshots { Fail(false); return; }
      if Some(snapshots[state.attempts]) != state.snapshot { Fail(false); return; }
      step := Confirming;
    }

    /** The first verification compares the owner's data with the baseline; later ones let the data evolve. */
    method Confirm(digest: nat)
      requires running && step == Confirming
      modifies this
      ensures View() == Proceed(old(View()), digest)
    {
      if !completed {
        if state.ownerBefore != Some(facts) { Fail(false); return; }
        history := history + [FirstVerified(facts)];
      }
      Save(Verified, Reporting);
    }

    method Report(digest: nat)
      requires running && step == Reporting
      modifies this
      ensures View() == Proceed(old(View()), digest)
    {
      running := false;
    }
  }
}
