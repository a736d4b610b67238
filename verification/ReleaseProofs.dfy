/** Safety of the release over any sequence of apply and verify runs, with a crash at any step. */
module ReleaseProofs {
  import opened Wrappers
  import opened ReleaseModel

  function Stops(history: seq<Event>): nat {
    if history == [] then 0 else Stops(history[..|history| - 1]) + (if history[|history| - 1].Stopped? then 1 else 0)
  }

  /** In one attempt the service has not yet been stopped before this step. */
  predicate BeforeStop(s: Step) {
    s.Quieting? || s.Staging? || s.Stopping?
  }

  predicate AfterBracket(s: Step) {
    s.Publishing? || s.SavingPublished?
  }

  predicate HasBaseline(s: Step) {
    s.Snapshotting? || s.Bracketing? || AfterBracket(s) || s.Starting?
  }

  /** A snapshot of this attempt was bracketed by two equal inventories. */
  predicate HasBracket(history: seq<Event>, attempt: nat) {
    history != [] &&
    var last := history[|history| - 1];
    (last.Bracketed? && last.attempt == attempt && last.before == last.after) || HasBracket(history[..|history| - 1], attempt)
  }

  /** Every switch of the unit follows a snapshot, in the same attempt, with equal inventories on both sides. */
  predicate SwitchLaw(history: seq<Event>) {
    history == [] ||
    var front, last := history[..|history| - 1], history[|history| - 1];
    SwitchLaw(front) && (last.Switched? ==> HasBracket(front, last.attempt))
  }

  predicate FitsBaseline(e: Event, baseline: Option<Facts>) {
    && (e.Bracketed? ==> baseline == Some(e.before) && e.before == e.after)
    && (e.FirstVerified? ==> baseline == Some(e.facts))
  }

  /** All inventories that ever bracketed a snapshot, or first verified the release, are the recorded baseline. */
  predicate BaselineLaw(history: seq<Event>, baseline: Option<Facts>) {
    history == [] ||
    (BaselineLaw(history[..|history| - 1], baseline) && FitsBaseline(history[|history| - 1], baseline))
  }

  predicate HasFirstVerified(history: seq<Event>) {
    history != [] && (history[|history| - 1].FirstVerified? || HasFirstVerified(history[..|history| - 1]))
  }

  /** What the disk alone guarantees. */
  predicate DiskLaw(d: Disk, limit: nat) {
    var saved := Loaded(d);
    && SwitchLaw(d.history) && BaselineLaw(d.history, saved.ownerBefore)
    && (saved.phase == Verified ==> HasFirstVerified(d.history))
    && Stops(d.history) <= saved.attempts <= limit
  }

  /** What a running release knows beyond the disk. */
  predicate MemoryLaw(m: Memory, d: Disk, limit: nat) {
    var saved := Loaded(d);
    && m.state.attempts == saved.attempts && (saved.ownerBefore.Some? ==> m.state.ownerBefore == saved.ownerBefore)
    && (m.step.Counting? || m.step.Inspecting? ==> m.verb == Apply ==> saved.attempts < limit)
    && (BeforeStop(m.step) ==> Stops(d.history) < saved.attempts)
    && (AfterBracket(m.step) ==> HasBracket(d.history, m.state.attempts))
    && (HasBaseline(m.step) ==> m.state.ownerBefore.Some?)
    && (m.step.Snapshotting? || m.step.Bracketing? ==> m.state.ownerBefore == Some(m.step.before))
    && (m.state.phase == Verified ==> saved.phase == Verified)
    && (m.completed ==> saved.phase == Verified && m.verb == Verify)
    && (m.verb == Verify ==> m.step.Inspecting? || m.step.Checking? || m.step.Confirming? || m.step.Reporting?)
    && !m.state.integrityStop
  }

  predicate Sound(w: World, limit: nat) {
    && DiskLaw(w.disk, limit)
    && (w.memory.Some? ==> MemoryLaw(w.memory.value, w.disk, limit))
  }

  /** A history that names no baseline yet fits any. */
  lemma {:induction false} NoBaselineYet(history: seq<Event>, saved: Option<Facts>, next: Option<Facts>)
    requires BaselineLaw(history, saved) && (saved.Some? ==> next == saved)
    ensures BaselineLaw(history, next)
    decreases |history|
  {
    if history == [] {
    } else {
      NoBaselineYet(history[..|history| - 1], saved, next);
    }
  }

  lemma FailKeepsSound(w: World, retryable: bool, limit: nat)
    requires Sound(w, limit) && w.memory.Some?
    ensures Sound(Fail(w, retryable), limit)
  {
    NoBaselineYet(w.disk.history, Loaded(w.disk).ownerBefore, w.memory.value.state.ownerBefore);
  }

  /** Recording an event the laws allow. */
  lemma RecordKeepsLaws(history: seq<Event>, e: Event, baseline: Option<Facts>)
    requires SwitchLaw(history) && BaselineLaw(history, baseline) && FitsBaseline(e, baseline)
    requires e.Switched? ==> HasBracket(history, e.attempt)
    ensures SwitchLaw(history + [e]) && BaselineLaw(history + [e], baseline)
    ensures forall attempt :: HasBracket(history, attempt) ==> HasBracket(history + [e], attempt)
    ensures e.Bracketed? ==> HasBracket(history + [e], e.attempt)
    ensures HasFirstVerified(history) || e.FirstVerified? ==> HasFirstVerified(history + [e])
    ensures Stops(history + [e]) == Stops(history) + (if e.Stopped? then 1 else 0)
  {
    assert (history + [e])[..|history|] == history;
  }

  /** Steps that only save the journal under a new phase. */
  lemma SavingKeepsSound(w: World, digest: nat, limit: nat)
    requires Sound(w, limit) && w.memory.Some?
    requires w.memory.value.step in {Counting, Quieting, Staging, SavingStopped, SavingPublished, Starting}
    ensures Sound(Proceed(w, digest), limit)
  {
    NoBaselineYet(w.disk.history, Loaded(w.disk).ownerBefore, w.memory.value.state.ownerBefore);
    if w.memory.value.step == Quieting && w.disk.facts.busy { FailKeepsSound(w, true, limit); }
  }

  lemma CheckingKeepsSound(w: World, digest: nat, limit: nat)
    requires Sound(w, limit) && w.memory.Some?
    requires w.memory.value.step.Inspecting? || w.memory.value.step.Inventorying? || w.memory.value.step.Snapshotting?
          || w.memory.value.step.Checking? || w.memory.value.step.Reporting?
    ensures Sound(Proceed(w, digest), limit)
  {
    FailKeepsSound(w, true, limit);
    FailKeepsSound(w, false, limit);
  }

  lemma StopKeepsSound(w: World, digest: nat, limit: nat)
    requires Sound(w, limit) && w.memory.Some? && w.memory.value.step.Stopping?
    ensures Sound(Proceed(w, digest), limit)
    ensures forall retryable :: Sound(Fail(Record(w, Stopped(w.memory.value.state.attempts)), retryable), limit)
  {
    RecordKeepsLaws(w.disk.history, Stopped(w.memory.value.state.attempts), Loaded(w.disk).ownerBefore);
    var stopped := Proceed(w, digest);
    assert Sound(stopped, limit);
    forall retryable ensures Sound(Fail(Record(w, Stopped(w.memory.value.state.attempts)), retryable), limit) {
      FailKeepsSound(stopped, retryable, limit);
    }
  }

  lemma BracketKeepsSound(w: World, digest: nat, limit: nat)
    requires Sound(w, limit) && w.memory.Some? && w.memory.value.step.Bracketing?
    ensures Sound(Proceed(w, digest), limit)
  {
    var m := w.memory.value;
    if m.step.before == w.disk.facts {
      NoBaselineYet(w.disk.history, Loaded(w.disk).ownerBefore, m.state.ownerBefore);
      RecordKeepsLaws(w.disk.history, Bracketed(m.state.attempts, m.step.before, w.disk.facts), m.state.ownerBefore);
    } else {
      FailKeepsSound(w, false, limit);
    }
  }

  lemma SwitchKeepsSound(w: World, digest: nat, limit: nat)
    requires Sound(w, limit) && w.memory.Some? && w.memory.value.step.Publishing?
    ensures Sound(Proceed(w, digest), limit)
  {
    RecordKeepsLaws(w.disk.history, Switched(w.memory.value.state.attempts), Loaded(w.disk).ownerBefore);
  }

  lemma FirstConfirmKeepsSound(w: World, digest: nat, limit: nat)
    requires Sound(w, limit) && w.memory.Some? && w.memory.value.step.Confirming? && !w.memory.value.completed
    requires Some(w.disk.facts) == w.memory.value.state.ownerBefore
    ensures Sound(Proceed(w, digest), limit)
  {
    var m := w.memory.value;
    NoBaselineYet(w.disk.history, Loaded(w.disk).ownerBefore, m.state.ownerBefore);
    RecordKeepsLaws(w.disk.history, FirstVerified(w.disk.facts), m.state.ownerBefore);
  }

  lemma LaterConfirmKeepsSound(w: World, digest: nat, limit: nat)
    requires Sound(w, limit) && w.memory.Some? && w.memory.value.step.Confirming? && w.memory.value.completed
    ensures Sound(Proceed(w, digest), limit)
  {
    NoBaselineYet(w.disk.history, Loaded(w.disk).ownerBefore, w.memory.value.state.ownerBefore);
  }

  lemma ConfirmKeepsSound(w: World, digest: nat, limit: nat)
    requires Sound(w, limit) && w.memory.Some? && w.memory.value.step.Confirming?
    ensures Sound(Proceed(w, digest), limit)
  {
    if w.memory.value.completed {
      LaterConfirmKeepsSound(w, digest, limit);
    } else if Some(w.disk.facts) == w.memory.value.state.ownerBefore {
      FirstConfirmKeepsSound(w, digest, limit);
    } else {
      FailKeepsSound(w, false, limit);
    }
  }

  lemma ProceedKeepsSound(w: World, digest: nat, limit: nat)
    requires Sound(w, limit) && w.memory.Some?
    ensures Sound(Proceed(w, digest), limit)
  {
    var step := w.memory.value.step;
    if step.Stopping? { StopKeepsSound(w, digest, limit); }
    else if step.Bracketing? { BracketKeepsSound(w, digest, limit); }
    else if step.Publishing? { SwitchKeepsSound(w, digest, limit); }
    else if step.Confirming? { ConfirmKeepsSound(w, digest, limit); }
    else if step.Inspecting? || step.Inventorying? || step.Snapshotting? || step.Checking? || step.Reporting? {
      CheckingKeepsSound(w, digest, limit);
    } else { SavingKeepsSound(w, digest, limit); }
  }

  /** No authority over the run allows more than this many attempts. */
  predicate Within(a: Action, limit: nat) {
    a.Begin? && 1 <= a.limit <= MAX_ATTEMPTS ==> a.limit <= limit
  }

  lemma ActKeepsSound(w: World, a: Action, limit: nat)
    requires Sound(w, limit) && Within(a, limit)
    ensures Sound(Act(w, a), limit)
  {
    match a
    case Advance(luck, digest) =>
      if w.memory.Some? {
        if luck == Fine { ProceedKeepsSound(w, digest, limit); } else { FailKeepsSound(w, luck == Retryable, limit); }
      }
    case StopThenFail(retryable) =>
      if w.memory.Some? && w.memory.value.step == Stopping { StopKeepsSound(w, 0, limit); }
    case _ =>
  }

  /** Nothing was released yet: no journal, the baseline unit, no history. */
  function Untouched(facts: Facts): World {
    World(Disk(None, Baseline, map[], facts, []), None)
  }

  lemma {:induction false} ActsKeepSound(w: World, actions: seq<Action>, limit: nat)
    requires Sound(w, limit) && forall k | 0 <= k < |actions| :: Within(actions[k], limit)
    ensures Sound(Acts(w, actions), limit)
    decreases |actions|
  {
    if actions == [] {
    } else {
      ActKeepsSound(w, actions[0], limit);
      ActsKeepSound(Act(w, actions[0]), actions[1..], limit);
    }
  }

  /** Whatever runs, crashes and owner writes happen, the service is stopped at most as often as the most generous
      authority allows, and never more than three times. */
  lemma StopsAreBounded(facts: Facts, actions: seq<Action>, limit: nat)
    requires forall k | 0 <= k < |actions| :: Within(actions[k], limit)
    ensures Stops(Acts(Untouched(facts), actions).disk.history) <= Min(limit, MAX_ATTEMPTS)
  {
    assert Sound(Untouched(facts), 0);
    ActsKeepSound(Untouched(facts), actions, limit);
    ActsKeepSound(Untouched(facts), actions, MAX_ATTEMPTS);
  }

  lemma {:induction false} BracketWitness(history: seq<Event>, attempt: nat, baseline: Option<Facts>) returns (j: nat)
    requires HasBracket(history, attempt) && BaselineLaw(history, baseline)
    ensures j < |history| && history[j].Bracketed? && history[j].attempt == attempt
    ensures history[j].before == history[j].after && baseline == Some(history[j].before)
    decreases |history|
  {
    var front, last := history[..|history| - 1], history[|history| - 1];
    if last.Bracketed? && last.attempt == attempt && last.before == last.after {
      j := |front|;
    } else {
      j := BracketWitness(front, attempt, baseline);
    }
  }

  lemma {:induction false} SwitchWitness(history: seq<Event>, k: nat, baseline: Option<Facts>) returns (j: nat)
    requires SwitchLaw(history) && BaselineLaw(history, baseline) && k < |history| && history[k].Switched?
    ensures j < k && history[j].Bracketed? && history[j].attempt == history[k].attempt
    ensures history[j].before == history[j].after && baseline == Some(history[j].before)
    decreases |history|
  {
    var front := history[..|history| - 1];
    if k == |front| {
      j := BracketWitness(front, history[k].attempt, baseline);
    } else {
      j := SwitchWitness(front, k, baseline);
    }
  }

  lemma {:induction false} VerificationWitness(history: seq<Event>, baseline: Option<Facts>) returns (k: nat)
    requires HasFirstVerified(history) && BaselineLaw(history, baseline)
    ensures k < |history| && history[k].FirstVerified? && baseline == Some(history[k].facts)
    decreases |history|
  {
    var front := history[..|history| - 1];
    if history[|front|].FirstVerified? {
      k := |front|;
    } else {
      k := VerificationWitness(front, baseline);
    }
  }

  /** The unit is only ever switched after, in the same attempt, a snapshot was bracketed by two equal inventories, and
      those inventories are the baseline still recorded. */
  lemma SwitchesAreBracketed(facts: Facts, actions: seq<Action>, k: nat)
    requires var h := Acts(Untouched(facts), actions).disk.history; k < |h| && h[k].Switched?
    ensures var d := Acts(Untouched(facts), actions).disk;
            exists j :: 0 <= j < k && d.history[j].Bracketed? && d.history[j].attempt == d.history[k].attempt
              && d.history[j].before == d.history[j].after && Loaded(d).ownerBefore == Some(d.history[j].before)
  {
    ActsKeepSound(Untouched(facts), actions, MAX_ATTEMPTS);
    var d := Acts(Untouched(facts), actions).disk;
    var j := SwitchWitness(d.history, k, Loaded(d).ownerBefore);
  }

  /** The journal says verified only when a verification found the owner's data equal to the recorded baseline. */
  lemma VerifiedMeansRetained(facts: Facts, actions: seq<Action>)
    requires Loaded(Acts(Untouched(facts), actions).disk).phase == Verified
    ensures var d := Acts(Untouched(facts), actions).disk;
            exists k :: 0 <= k < |d.history| && d.history[k].FirstVerified? && Loaded(d).ownerBefore == Some(d.history[k].facts)
  {
    ActsKeepSound(Untouched(facts), actions, MAX_ATTEMPTS);
    var d := Acts(Untouched(facts), actions).disk;
    var k := VerificationWitness(d.history, Loaded(d).ownerBefore);
  }

  /** A recorded baseline is what any running release also holds. */
  predicate BaselineHeld(w: World, before: Facts) {
    Loaded(w.disk).ownerBefore == Some(before) && (w.memory.Some? ==> w.memory.value.state.ownerBefore == Some(before))
  }

  lemma ActKeepsBaseline(w: World, a: Action, before: Facts)
    requires BaselineHeld(w, before)
    ensures BaselineHeld(Act(w, a), before)
  {
    if a.Advance? && w.memory.Some? && a.luck == Fine {
      match w.memory.value.step
      case Inventorying =>
      case _ =>
    }
  }

  /** Once recorded, the baseline is never replaced, by any later run. */
  lemma {:induction false} BaselineIsForever(w: World, actions: seq<Action>, before: Facts)
    requires BaselineHeld(w, before)
    ensures BaselineHeld(Acts(w, actions), before)
    decreases |actions|
  {
    if actions == [] {
    } else {
      ActKeepsBaseline(w, actions[0], before);
      BaselineIsForever(Act(w, actions[0]), actions[1..], before);
    }
  }

  /** After an integrity stop no apply or verify run begins, so nothing about the release changes any more. */
  lemma {:induction false} IntegrityStopIsFinal(w: World, actions: seq<Action>)
    requires w.memory.None? && Loaded(w.disk).integrityStop
    ensures Acts(w, actions).memory.None?
    ensures Acts(w, actions).disk.(facts := w.disk.facts) == w.disk
    decreases |actions|
  {
    if actions == [] {
    } else {
      IntegrityStopIsFinal(Act(w, actions[0]), actions[1..]);
    }
  }

  /** So whatever a run was doing, its first undiagnosed failure freezes journal, unit, snapshots and service for good. */
  lemma UndiagnosedFailuresFreeze(w: World, actions: seq<Action>)
    requires w.memory.Some?
    ensures Acts(Fail(w, false), actions).disk.(facts := w.disk.facts) == Fail(w, false).disk
  {
    IntegrityStopIsFinal(Fail(w, false), actions);
  }

  /** From the first journal that names a baseline on, across crashes and retries, every journal names the same one. */
  lemma BaselineIsNeverRetaken(facts: Facts, earlier: seq<Action>, later: seq<Action>, before: Facts)
    requires Loaded(Acts(Untouched(facts), earlier).disk).ownerBefore == Some(before)
    ensures Loaded(Acts(Acts(Untouched(facts), earlier), later).disk).ownerBefore == Some(before)
  {
    ActsKeepSound(Untouched(facts), earlier, MAX_ATTEMPTS);
    BaselineIsForever(Acts(Untouched(facts), earlier), later, before);
  }
}
