/** The release operation as a sequence of persisted steps. What is on disk survives a crash between any two steps;
    the journal being edited in memory does not, until it is saved. */
module ReleaseModel {
  import opened Wrappers

  datatype Phase =
    | Prepared | PreflightStarted | PreflightComplete | Staged | ApiStopped | SnapshotVerified | CandidatePublished
    | CandidateStarted | Verified

  datatype Unit = Baseline | Candidate

  /** An inventory of the owner's data, with whether owner work is active. */
  datatype Facts = Facts(content: nat, busy: bool)

  datatype Journal = Journal(phase: Phase, attempts: nat, retryable: bool, integrityStop: bool, ownerBefore: Option<Facts>,
                             snapshot: Option<nat>)

  /** History of what was done to the service, its data and its unit file. */
  datatype Event =
    | Stopped(attempt: nat)
    | Bracketed(attempt: nat, before: Facts, after: Facts)
    | Switched(attempt: nat)
    | FirstVerified(facts: Facts)

  datatype Disk = Disk(journal: Option<Journal>, unit: Unit, snapshots: map<nat, nat>, facts: Facts, history: seq<Event>)

  datatype Verb = Apply | Verify

  datatype Step =
    | Inspecting | Counting | Quieting | Staging | Stopping | SavingStopped | Inventorying
    | Snapshotting(before: Facts) | Bracketing(before: Facts, digest: nat) | Publishing | SavingPublished | Starting
    | Checking | Confirming | Reporting

  datatype Memory = Memory(state: Journal, verb: Verb, completed: bool, step: Step)

  datatype World = World(disk: Disk, memory: Option<Memory>)

  /** How the outside part of a step went: fine, a refusal (or any unexpected failure), or a diagnosed retryable one. */
  datatype Luck = Fine | Refused | Retryable

  datatype Action =
    | Begin(verb: Verb, limit: nat, reason: bool)
    | Advance(luck: Luck, digest: nat)
    | StopThenFail(retryable: bool)
    | Crash
    | OwnerWrites(facts: Facts)

  const MAX_ATTEMPTS := 3

  const FRESH_JOURNAL := Journal(Prepared, 0, false, false, None, None)

  function Loaded(d: Disk): Journal {
    if d.journal.Some? then d.journal.value else FRESH_JOURNAL
  }

  /** Refusals before anything is journalled. A completed release is verified again instead of applied. */
  function BeginRun(w: World, verb: Verb, limit: nat, reason: bool): World {
    var state := Loaded(w.disk);
    var completed := state.phase == Verified;
    var actual := if verb == Apply && completed then Verify else verb;
    if w.memory.Some? || !(1 <= limit <= MAX_ATTEMPTS) || state.integrityStop then w
    else if actual == Apply && state.attempts > 0 && (!state.retryable || !reason) then w
    else if actual == Apply && state.attempts >= limit then w
    else w.(memory := Some(Memory(state, actual, completed, Inspecting)))
  }

  function Save(w: World, state: Journal, next: Step): World
    requires w.memory.Some?
  {
    World(w.disk.(journal := Some(state)), Some(w.memory.value.(state := state, step := next)))
  }

  /** A failed run saves what it knows and ends; anything but a diagnosed failure stops the release for good. */
  function Fail(w: World, retryable: bool): World
    requires w.memory.Some?
  {
    var state := w.memory.value.state.(retryable := retryable, integrityStop := w.memory.value.state.integrityStop || !retryable);
    World(w.disk.(journal := Some(state)), None)
  }

  function Record(w: World, e: Event): World {
    w.(disk := w.disk.(history := w.disk.history + [e]))
  }

  function GoOn(w: World, next: Step): World
    requires w.memory.Some?
  {
    w.(memory := Some(w.memory.value.(step := next)))
  }

  function Proceed(w: World, digest: nat): World
    requires w.memory.Some?
  {
    var m, d := w.memory.value, w.disk;
    var s := m.state;
    match m.step
    case Inspecting =>
      if m.verb == Apply then GoOn(w, Counting)
      else if s.ownerBefore.None? || s.snapshot.None? || d.unit != Candidate then Fail(w, false)
      else GoOn(w, Checking)
    case Counting => Save(w, s.(phase := PreflightStarted, attempts := s.attempts + 1, retryable := false), Quieting)
    case Quieting => if d.facts.busy then Fail(w, true) else Save(w, s.(phase := PreflightComplete), Staging)
    case Staging => Save(w, s.(phase := Staged), Stopping)
    case Stopping => GoOn(Record(w, Stopped(s.attempts)), SavingStopped)
    case SavingStopped => Save(w, s.(phase := ApiStopped), Inventorying)
    case Inventorying =>
      if d.facts.busy then Fail(w, true)
      else if s.ownerBefore.Some? && s.ownerBefore.value != d.facts then Fail(w, false)
      else w.(memory := Some(m.(state := s.(ownerBefore := Some(d.facts)), step := Snapshotting(d.facts))))
    case Snapshotting(before) => GoOn(w.(disk := d.(snapshots := d.snapshots[s.attempts := digest])), Bracketing(before, digest))
    case Bracketing(before, taken) =>
      if before != d.facts then Fail(w, false)
      else Save(Record(w, Bracketed(s.attempts, before, d.facts)), s.(phase := SnapshotVerified, snapshot := Some(taken)), Publishing)
    case Publishing => GoOn(Record(w.(disk := d.(unit := Candidate)), Switched(s.attempts)), SavingPublished)
    case SavingPublished => Save(w, s.(phase := CandidatePublished), Starting)
    case Starting => Save(w, s.(phase := CandidateStarted), Checking)
    case Checking =>
      if s.attempts !in d.snapshots || Some(d.snapshots[s.attempts]) != s.snapshot then Fail(w, false) else GoOn(w, Confirming)
    case Confirming =>
      if !m.completed && Some(d.facts) != s.ownerBefore then Fail(w, false)
      else
        var saved := Save(w, s.(phase := Verified), Reporting);
        if m.completed then saved else Record(saved, FirstVerified(d.facts))
    case Reporting => w.(memory := None)
  }

  function Act(w: World, a: Action): World {
    match a
    case Begin(verb, limit, reason) => BeginRun(w, verb, limit, reason)
    case Advance(luck, digest) =>
      if w.memory.None? then w
      else if luck == Refused then Fail(w, false)
      else if luck == Retryable then Fail(w, true)
      else Proceed(w, digest)
    case StopThenFail(retryable) =>
      if w.memory.None? || w.memory.value.step != Stopping then w
      else Fail(Record(w, Stopped(w.memory.value.state.attempts)), retryable)
    case Crash => w.(memory := None)
    case OwnerWrites(facts) => w.(disk := w.disk.(facts := facts))
  }

  function Acts(w: World, actions: seq<Action>): World
    decreases |actions|
  {
    if actions == [] then w else Acts(Act(w, actions[0]), actions[1..])
  }
}
