/** The durable ownership state of one shared browser per conversation, and every
    transition of it as a function of the stored row.

    A transition either commits a new row or is rejected; a rejection rolls the whole
    transaction back, including the lazy expiry done while loading, so it leaves the
    stored row exactly as it was. */
module ControlModel {
  import opened Wrappers

  type Id = string
  type Time = real

  datatype Mode = Agent | TakeoverPending | Human | Paused | Recovering

  datatype Outcome = Reserved | Applied | Rejected | Uncertain

  datatype BrowserIdentity = BrowserIdentity(conversation: Id, session: Id, generation: Id)

  datatype OwnerBinding = OwnerBinding(principal: Id, digest: string, bindingRevision: int, tab: Id)

  datatype RunBinding = RunBinding(run: Id, session: Id, dispatchKey: Id)

  datatype HumanLease = HumanLease(id: Id, owner: OwnerBinding, request: Id, requestRevision: int,
                                   expires: Time, authExpires: Time, observing: bool, epoch: nat)

  datatype ActiveCommand =
    | AgentCommand(id: Id, run: RunBinding)
    | HumanCommand(id: Id, lease: Id, sequence: int)

  datatype InputReceipt = InputReceipt(lease: Id, sequence: int, command: Id, outcome: Outcome)

  datatype Page = Page(url: string, title: string)

  datatype ControlState = ControlState(
    identity: BrowserIdentity, principal: Id, mode: Mode, revision: int,
    admitted: Option<RunBinding>, active: Option<ActiveCommand>, lease: Option<HumanLease>,
    takeoverAfter: Option<Id>, lastSequence: int, lastInput: Option<InputReceipt>, retired: bool,
    currentPage: Option<Page>, previousPage: Option<Page>)

  datatype InputAck = InputAck(identity: BrowserIdentity, sequence: int, outcome: Outcome, execute: bool,
                               command: Id, revision: int)

  datatype FenceObservation = FenceObservation(identity: BrowserIdentity, preceding: Option<Id>, quiescent: bool)

  datatype HumanReturn = HumanReturn(identity: BrowserIdentity, owner: OwnerBinding, revision: int, quiescent: bool)

  datatype Retirement = Retirement(identity: BrowserIdentity, processGone: bool, channelClosed: bool)

  datatype RunTerminal = RunTerminal(run: Id, session: Id, status: string)

  datatype ControlError =
    | InvalidBinding | InvalidOutcome | InvalidPageContext | ClockUnavailable
    | MaintenanceUnknown | MaintenanceHeld | BrowserUnknown | StaleBrowser | OwnerMismatch
    | ControlLeaseUnavailable | StaleControl | RunMismatch | NativeSessionAlreadyBound | BrowserRetired
    | PreviousGenerationUnresolved | QuiescenceUnproven | BrowserControlBusy | BrowserControlBlocked
    | PreviousRunNotTerminal | CommandMismatch | AuthenticationExpired | StaleInput | InputSequenceMismatch
    | AckConflict | BrowserObservationDenied | RetirementUnproven

  /** What one call observes of the outside world. A clock reading of None is an unavailable clock and
      `held` of None an unknown maintenance hold; `uuid` is the identifier drawn by uuid4. The clock is
      read again at each use: `earlier` before the transaction, `now` while loading, then `later`, `latest`. */
  datatype Env = Env(held: Option<bool>, earlier: Option<Time>, now: Option<Time>, later: Option<Time>,
                     latest: Option<Time>, uuid: Id, leaseSeconds: Time)

  type Store = map<Id, ControlState>

  datatype Reply =
    | StateReply(state: ControlState)
    | AckReply(ack: InputAck)
    | CommandReply(command: ActiveCommand)
    | NoReply

  type RowResult = Result<(ControlState, Reply), ControlError>

  datatype Op =
    | Bind(id: BrowserIdentity, run: Option<RunBinding>, principal: Id)
    | RecoverStartup
    | OnRow(id: BrowserIdentity, row: RowOp)

  datatype RowOp =
    | Read
    | RecordPage(current: Option<Page>, previous: Option<Page>)
    | AdmitRun(owner: OwnerBinding, newRun: RunBinding, leaseId: Option<Id>, revision: int,
               ended: Option<RunTerminal>, handover: Option<HumanReturn>)
    | ReserveAgent(agentRun: RunBinding, command: Id)
    | CompleteAgent(agentRun: RunBinding, command: Id, outcome: Outcome)
    | RequestTakeover(owner: OwnerBinding, request: Id, revision: int, authExpires: Option<Time>)
    | ConfirmTakeover(revision: int, observation: FenceObservation)
    | ReserveInput(owner: OwnerBinding, lease: Id, revision: int, sequence: int)
    | CompleteInput(lease: Id, sequence: int, command: Id, outcome: Outcome)
    | Heartbeat(owner: OwnerBinding, lease: Id, revision: int, renewed: Option<Time>)
    | ObservationMode(owner: OwnerBinding, lease: Id, revision: int, observe: bool)
    | AuthorizeObservation(owner: OwnerBinding, lease: Id, epoch: int)
    | BeginReturn(owner: OwnerBinding, lease: Id, revision: int)
    | Presence(owner: OwnerBinding, revision: int)
    | BeginClose(owner: OwnerBinding, revision: int, ended: Option<RunTerminal>)
    | Pause(owner: OwnerBinding)
    | Retire(observed: Retirement)

  const TERMINAL_STATUSES: set<string> := {"completed", "failed", "cancelled", "interrupted"}

  predicate IsIdentifier(s: string) {
    1 <= |s| <= 512
  }

  predicate IsPage(p: Page) {
    |p.url| <= 2048 && |p.title| <= 2048
  }

  /** The maintenance hold is checked inside the transaction; an unknown answer is a refusal. */
  function Admission(e: Env): Option<ControlError> {
    match e.held
    case None => Some(MaintenanceUnknown)
    case Some(held) => if held then Some(MaintenanceHeld) else None
  }

  /** Calls that need no maintenance admission. */
  predicate Exempt(op: RowOp) {
    op.Read? || op.RecordPage? || op.CompleteAgent? || op.CompleteInput? || op.BeginReturn? || op.Pause? || op.Retire?
  }

  function Expired(s: ControlState): ControlState {
    s.(mode := if s.active.Some? && s.active.value.HumanCommand? then Recovering else Paused,
       revision := s.revision + 1, lease := None)
  }

  /** Lazy expiry: the clock is read only when there is a lease to expire. */
  function Expire(s: ControlState, e: Env): Result<ControlState, ControlError> {
    if s.lease.None? then Success(s)
    else if e.now.None? then Failure(ClockUnavailable)
    else if s.lease.value.expires <= e.now.value then Success(Expired(s))
    else Success(s)
  }

  function Load(store: Store, e: Env, id: BrowserIdentity): Result<ControlState, ControlError> {
    if id.conversation !in store then Failure(BrowserUnknown)
    else if store[id.conversation].identity != id then Failure(StaleBrowser)
    else Expire(store[id.conversation], e)
  }

  function LeaseError(s: ControlState, owner: OwnerBinding, lease: Option<Id>, revision: int): Option<ControlError> {
    if owner.principal != s.principal then Some(OwnerMismatch)
    else if s.retired || s.mode != Human || s.lease.None? || s.lease.value.owner != owner || lease != Some(s.lease.value.id)
      then Some(ControlLeaseUnavailable)
    else if revision != s.revision then Some(StaleControl)
    else None
  }

  predicate ProvesEnd(ended: Option<RunTerminal>, prior: RunBinding) {
    && ended.Some? && ended.value.run == prior.run && ended.value.session == prior.session
    && ended.value.status in TERMINAL_STATUSES
  }

  predicate ProvesReturn(s: ControlState, owner: OwnerBinding, revision: int, handover: Option<HumanReturn>) {
    && handover.Some? && handover.value.identity == s.identity && handover.value.owner == owner
    && handover.value.revision == revision && handover.value.quiescent
  }

  function AdmitError(s: ControlState, op: RowOp): Option<ControlError>
    requires op.AdmitRun?
  {
    var authority :=
      if s.mode == Human then LeaseError(s, op.owner, op.leaseId, op.revision)
      else if s.mode == Agent && op.leaseId.None? then
        if op.owner.principal != s.principal then Some(OwnerMismatch)
        else if s.retired || s.revision != op.revision then Some(StaleControl) else None
      else if s.mode == Paused && op.leaseId.None? then
        if op.owner.principal != s.principal then Some(OwnerMismatch)
        else if s.retired || s.revision != op.revision || !ProvesReturn(s, op.owner, op.revision, op.handover)
          then Some(QuiescenceUnproven) else None
      else Some(ControlLeaseUnavailable);
    if authority.Some? then authority
    else if s.active.Some? then Some(BrowserControlBusy)
    else if s.admitted.Some? && (op.newRun.run == s.admitted.value.run
                                 || op.newRun.dispatchKey == s.admitted.value.dispatchKey
                                 || !ProvesEnd(op.ended, s.admitted.value)) then Some(PreviousRunNotTerminal)
    else if s.admitted.None? && op.ended.Some? then Some(RunMismatch)
    else None
  }

  function AdmitRun(s: ControlState, op: RowOp): RowResult
    requires op.AdmitRun?
  {
    var error := AdmitError(s, op);
    if error.Some? then Failure(error.value) else
    var t := s.(mode := Agent, revision := s.revision + 1, admitted := Some(op.newRun), lease := None, takeoverAfter := None);
    Success((t, StateReply(t)))
  }

  function ReserveAgent(s: ControlState, run: RunBinding, command: Id): RowResult {
    if s.retired || s.admitted != Some(run) then Failure(RunMismatch)
    else if s.mode != Agent || s.active.Some? then Failure(BrowserControlBlocked)
    else Success((s.(active := Some(AgentCommand(command, run))), CommandReply(AgentCommand(command, run))))
  }

  function CompleteAgent(s: ControlState, run: RunBinding, command: Id, outcome: Outcome): RowResult {
    if s.active != Some(AgentCommand(command, run)) || s.admitted != Some(run) then Failure(CommandMismatch)
    else
      var t := if outcome == Applied then s.(active := None)
               else s.(mode := Recovering, revision := s.revision + 1, lease := None);
      Success((t, StateReply(t)))
  }

  function MinTime(a: Time, b: Time): Time {
    if a <= b then a else b
  }

  function RequestTakeover(s: ControlState, e: Env, op: RowOp): RowResult
    requires op.RequestTakeover? && op.authExpires.Some? && e.earlier.Some?
  {
    if op.owner.principal != s.principal then Failure(OwnerMismatch)
    else if s.lease.Some? then
      if s.lease.value.owner == op.owner && s.lease.value.request == op.request
         && s.lease.value.requestRevision == op.revision then Success((s, StateReply(s)))
      else Failure(BrowserControlBusy)
    else if s.revision != op.revision then Failure(StaleControl)
    else if s.retired || s.mode !in {Agent, Paused} then Failure(BrowserControlBlocked)
    else
      var lease := HumanLease(e.uuid, op.owner, op.request, op.revision,
                              MinTime(e.earlier.value + e.leaseSeconds, op.authExpires.value), op.authExpires.value, false, 0);
      var t := s.(mode := TakeoverPending, revision := s.revision + 1, lease := Some(lease),
                  takeoverAfter := if s.active.Some? then Some(s.active.value.id) else None, lastSequence := 0);
      Success((t, StateReply(t)))
  }

  function ConfirmTakeover(s: ControlState, revision: int, o: FenceObservation): RowResult {
    if s.mode != TakeoverPending || s.lease.None? || s.active.Some? || s.revision != revision
       || o.identity != s.identity || !o.quiescent || o.preceding != s.takeoverAfter then Failure(QuiescenceUnproven)
    else
      var t := s.(mode := Human, revision := s.revision + 1, takeoverAfter := None);
      Success((t, StateReply(t)))
  }

  function Ack(s: ControlState, r: InputReceipt, execute: bool): InputAck {
    InputAck(s.identity, r.sequence, r.outcome, execute, r.command, s.revision)
  }

  function ReserveInput(s: ControlState, e: Env, owner: OwnerBinding, lease: Id, revision: int, sequence: int): RowResult {
    var error := LeaseError(s, owner, Some(lease), revision);
    if error.Some? then Failure(error.value)
    else if s.lastInput.Some? && s.lastInput.value.lease == lease && s.lastInput.value.sequence == sequence then
      Success((s, AckReply(Ack(s, s.lastInput.value, false))))
    else if sequence <= s.lastSequence then Failure(StaleInput)
    else if sequence != s.lastSequence + 1 then Failure(InputSequenceMismatch)
    else if s.active.Some? then Failure(BrowserControlBusy)
    else
      var receipt := InputReceipt(lease, sequence, e.uuid, Reserved);
      var t := s.(active := Some(HumanCommand(e.uuid, lease, sequence)), lastSequence := sequence, lastInput := Some(receipt));
      Success((t, AckReply(Ack(t, receipt, true))))
  }

  function CompleteInput(s: ControlState, lease: Id, sequence: int, command: Id, outcome: Outcome): RowResult {
    if s.lastInput.None? || s.lastInput.value.lease != lease || s.lastInput.value.sequence != sequence
       || s.lastInput.value.command != command then Failure(CommandMismatch)
    else if s.lastInput.value.outcome in {Applied, Rejected} then
      if s.lastInput.value.outcome != outcome then Failure(AckConflict)
      else Success((s, AckReply(Ack(s, s.lastInput.value, false))))
    else if s.active != Some(HumanCommand(command, lease, sequence)) then Failure(CommandMismatch)
    else
      var receipt := s.lastInput.value.(outcome := outcome);
      var t := if outcome == Uncertain
               then s.(lastInput := Some(receipt), mode := Recovering, revision := s.revision + 1, lease := None)
               else s.(lastInput := Some(receipt), active := None);
      Success((t, AckReply(Ack(t, receipt, false))))
  }

  function Heartbeat(s: ControlState, e: Env, op: RowOp): RowResult
    requires op.Heartbeat?
  {
    var error := LeaseError(s, op.owner, Some(op.lease), op.revision);
    if error.Some? then Failure(error.value)
    else if op.renewed.Some? && e.later.None? then Failure(ClockUnavailable)
    else if op.renewed.Some? && op.renewed.value <= e.later.value then Failure(AuthenticationExpired)
    else if e.latest.None? then Failure(ClockUnavailable)
    else
      var auth := if op.renewed.Some? then op.renewed.value else s.lease.value.authExpires;
      var t := s.(lease := Some(s.lease.value.(authExpires := auth, expires := MinTime(e.latest.value + e.leaseSeconds, auth))));
      Success((t, StateReply(t)))
  }

  function ObservationMode(s: ControlState, owner: OwnerBinding, lease: Id, revision: int, observe: bool): RowResult {
    var error := LeaseError(s, owner, Some(lease), revision);
    if error.Some? then Failure(error.value)
    else if s.lease.value.observing == observe then Success((s, StateReply(s)))
    else
      var t := s.(lease := Some(s.lease.value.(observing := observe, epoch := s.lease.value.epoch + 1)), revision := s.revision + 1);
      Success((t, StateReply(t)))
  }

  function AuthorizeObservation(s: ControlState, owner: OwnerBinding, lease: Id, epoch: int): RowResult {
    if owner.principal != s.principal then Failure(OwnerMismatch)
    else if s.retired || s.mode != Human || s.lease.None? || s.lease.value.owner != owner || s.lease.value.id != lease
            || !s.lease.value.observing || s.lease.value.epoch != epoch then Failure(BrowserObservationDenied)
    else Success((s, StateReply(s)))
  }

  function PausedNow(s: ControlState): ControlState {
    s.(mode := Paused, revision := s.revision + 1, lease := None)
  }

  function BeginReturn(s: ControlState, owner: OwnerBinding, lease: Id, revision: int): RowResult {
    var error := LeaseError(s, owner, Some(lease), revision);
    if error.Some? then Failure(error.value) else Success((PausedNow(s), StateReply(PausedNow(s))))
  }

  function Presence(s: ControlState, owner: OwnerBinding, revision: int): RowResult {
    if owner.principal != s.principal then Failure(OwnerMismatch)
    else if s.retired || s.mode !in {Agent, Paused} || s.revision != revision then Failure(StaleControl)
    else Success((s, StateReply(s)))
  }

  function BeginClose(s: ControlState, owner: OwnerBinding, revision: int, ended: Option<RunTerminal>): RowResult {
    if owner.principal != s.principal then Failure(OwnerMismatch)
    else if s.retired || s.mode !in {Agent, Paused} || s.revision != revision || s.active.Some? then Failure(BrowserControlBusy)
    else if s.admitted.Some? && !ProvesEnd(ended, s.admitted.value) then Failure(PreviousRunNotTerminal)
    else Success((PausedNow(s), StateReply(PausedNow(s))))
  }

  function Pause(s: ControlState, owner: OwnerBinding): RowResult {
    if owner.principal != s.principal then Failure(OwnerMismatch)
    else if s.lease.None? || s.lease.value.owner != owner then Failure(ControlLeaseUnavailable)
    else Success((PausedNow(s), StateReply(PausedNow(s))))
  }

  /** A receipt that can no longer be resolved positively. */
  function Unresolved(r: Option<InputReceipt>): Option<InputReceipt> {
    if r.Some? && r.value.outcome == Reserved then Some(r.value.(outcome := Uncertain)) else r
  }

  function Retire(s: ControlState): RowResult {
    if s.retired then Success((s, StateReply(s))) else
    var t := s.(mode := Paused, revision := s.revision + 1, admitted := None, active := None, lease := None,
                takeoverAfter := None, lastInput := Unresolved(s.lastInput), retired := true, currentPage := None,
                previousPage := if s.currentPage.Some? then s.currentPage else s.previousPage);
    Success((t, StateReply(t)))
  }

  function RecordPage(s: ControlState, current: Option<Page>, previous: Option<Page>): RowResult {
    if s.retired then Failure(BrowserRetired) else Success((s.(currentPage := current, previousPage := previous), NoReply))
  }

  /** Argument checks made before the transaction opens. */
  function ArgumentError(id: BrowserIdentity, op: RowOp, e: Env): Option<ControlError> {
    match op
    case RecordPage(current, previous) =>
      if (current.Some? && !IsPage(current.value)) || (previous.Some? && !IsPage(previous.value))
        then Some(InvalidPageContext) else None
    case AdmitRun(_, run, _, _, _, _) => if run.session != id.session then Some(RunMismatch) else None
    case ReserveAgent(_, command) => if IsIdentifier(command) then None else Some(InvalidBinding)
    case CompleteAgent(_, _, outcome) => if outcome in {Applied, Uncertain} then None else Some(InvalidOutcome)
    case RequestTakeover(_, request, revision, auth) =>
      if !IsIdentifier(request) || revision < 1 then Some(InvalidBinding)
      else if e.earlier.None? then Some(ClockUnavailable)
      else if auth.None? || auth.value <= e.earlier.value then Some(AuthenticationExpired) else None
    case ReserveInput(_, _, _, sequence) => if sequence < 1 then Some(InvalidBinding) else None
    case CompleteInput(_, sequence, _, outcome) =>
      if sequence < 1 then Some(InvalidBinding) else if outcome == Reserved then Some(InvalidOutcome) else None
    case Retire(o) => if o.identity == id && o.processGone && o.channelClosed then None else Some(RetirementUnproven)
    case _ => None
  }

  /** One call on a row that has just been loaded. */
  function RowStep(s: ControlState, e: Env, op: RowOp): RowResult
    requires op.RequestTakeover? ==> op.authExpires.Some? && e.earlier.Some?
  {
    match op
    case Read => Success((s, StateReply(s)))
    case RecordPage(current, previous) => RecordPage(s, current, previous)
    case AdmitRun(_, _, _, _, _, _) => AdmitRun(s, op)
    case ReserveAgent(run, command) => ReserveAgent(s, run, command)
    case CompleteAgent(run, command, outcome) => CompleteAgent(s, run, command, outcome)
    case RequestTakeover(_, _, _, _) => RequestTakeover(s, e, op)
    case ConfirmTakeover(revision, observation) => ConfirmTakeover(s, revision, observation)
    case ReserveInput(owner, lease, revision, sequence) => ReserveInput(s, e, owner, lease, revision, sequence)
    case CompleteInput(lease, sequence, command, outcome) => CompleteInput(s, lease, sequence, command, outcome)
    case Heartbeat(_, _, _, _) => Heartbeat(s, e, op)
    case ObservationMode(owner, lease, revision, observe) => ObservationMode(s, owner, lease, revision, observe)
    case AuthorizeObservation(owner, lease, epoch) => AuthorizeObservation(s, owner, lease, epoch)
    case BeginReturn(owner, lease, revision) => BeginReturn(s, owner, lease, revision)
    case Presence(owner, revision) => Presence(s, owner, revision)
    case BeginClose(owner, revision, ended) => BeginClose(s, owner, revision, ended)
    case Pause(owner) => Pause(s, owner)
    case Retire(_) => Retire(s)
  }

  function ApplyRow(store: Store, e: Env, id: BrowserIdentity, op: RowOp): Result<(Store, Reply), ControlError> {
    var invalid := ArgumentError(id, op, e);
    if invalid.Some? then Failure(invalid.value)
    else if !Exempt(op) && Admission(e).Some? then Failure(Admission(e).value)
    else
      var s :- Load(store, e, id);
      var r :- RowStep(s, e, op);
      Success((store[id.conversation := r.0], r.1))
  }

  predicate SessionClaimed(store: Store, id: BrowserIdentity) {
    exists c | c in store :: !store[c].retired && store[c].identity.session == id.session && c != id.conversation
  }

  function Bound(id: BrowserIdentity, run: Option<RunBinding>, principal: Id, revision: int, previous: Option<Page>): ControlState {
    ControlState(id, principal, if run.Some? then Agent else Paused, revision, run, None, None, None, 0, None, false, None, previous)
  }

  function BindBrowser(store: Store, e: Env, id: BrowserIdentity, run: Option<RunBinding>, principal: Id): Result<(Store, Reply), ControlError> {
    if !IsIdentifier(principal) then Failure(InvalidBinding)
    else if run.Some? && run.value.session != id.session then Failure(RunMismatch)
    else if Admission(e).Some? then Failure(Admission(e).value)
    else if SessionClaimed(store, id) then Failure(NativeSessionAlreadyBound)
    else if id.conversation !in store then
      var t := Bound(id, run, principal, 1, None);
      Success((store[id.conversation := t], StateReply(t)))
    else
      var s :- Expire(store[id.conversation], e);
      if s.identity == id then
        if s.retired then Failure(BrowserRetired)
        else if s.admitted != run || s.principal != principal then Failure(RunMismatch)
        else Success((store[id.conversation := s], StateReply(s)))
      else if !s.retired then Failure(PreviousGenerationUnresolved)
      else if s.principal != principal then Failure(OwnerMismatch)
      else
        var t := Bound(id, run, principal, s.revision + 1, s.previousPage);
        Success((store[id.conversation := t], StateReply(t)))
  }

  /** A restart finds a row: unfinished work becomes uncertain, live authority is paused. */
  function Recovered(s: ControlState): ControlState {
    if s.retired then s
    else if s.active.Some? then
      s.(mode := Recovering, revision := s.revision + 1, lease := None, lastInput := Unresolved(s.lastInput))
    else if s.mode in {Agent, Human, TakeoverPending} then PausedNow(s)
    else s
  }

  function Apply(store: Store, e: Env, op: Op): Result<(Store, Reply), ControlError> {
    match op
    case Bind(id, run, principal) => BindBrowser(store, e, id, run, principal)
    case RecoverStartup => Success((map c | c in store :: Recovered(store[c]), NoReply))
    case OnRow(id, row) => ApplyRow(store, e, id, row)
  }

  /** The committed store after a call: a rejected call changes nothing. */
  function Exec(store: Store, e: Env, op: Op): Store {
    var r := Apply(store, e, op);
    if r.Success? then r.value.0 else store
  }

  datatype Event = Event(env: Env, op: Op)

  /** Any finite history of calls, whoever makes them. */
  function Run(store: Store, events: seq<Event>): Store
    decreases |events|
  {
    if events == [] then store else Run(Exec(store, events[0].env, events[0].op), events[1..])
  }
}
