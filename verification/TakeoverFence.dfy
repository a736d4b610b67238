/** The fence of a takeover over everything that happens between its request and its confirmation. */
module TakeoverFence {
  import opened Wrappers
  import opened ControlModel
  import opened ControlProofs
  import opened ControlLedger
  import Observation

  /** A takeover of this lease is pending behind the given command. */
  predicate PendingBehind(s: ControlState, lease: Id, command: Option<Id>) {
    s.mode == TakeoverPending && s.lease.Some? && s.lease.value.id == lease ==> s.takeoverAfter == command
  }

  /** While a lease stands, no call changes the command that its takeover waits for. */
  lemma StepKeepsTheFence(s: ControlState, e: Env, op: RowOp, lease: Id, command: Option<Id>)
    requires Ready(e, op) && RowStep(s, e, op).Success? && Consistent(s) && lease != e.uuid && PendingBehind(s, lease, command)
    ensures PendingBehind(RowStep(s, e, op).value.0, lease, command)
  {
  }

  lemma RowCallKeepsTheFence(store: Store, e: Env, id: BrowserIdentity, op: RowOp, lease: Id, command: Option<Id>)
    requires StoreConsistent(store) && ApplyRow(store, e, id, op).Success? && lease != e.uuid
    requires PendingBehind(store[id.conversation], lease, command)
    ensures PendingBehind(ApplyRow(store, e, id, op).value.0[id.conversation], lease, command)
  {
    var s := Load(store, e, id).value;
    ExpiryAdvances(store[id.conversation], e);
    StepKeepsTheFence(s, e, op, lease, command);
  }

  lemma OtherCallKeepsTheFence(store: Store, e: Env, op: Op, c: Id, lease: Id, command: Option<Id>)
    requires !op.OnRow? && c in store && PendingBehind(store[c], lease, command)
    ensures c in Exec(store, e, op) && PendingBehind(Exec(store, e, op)[c], lease, command)
  {
  }

  lemma CallKeepsTheFence(tr: Traced, e: Env, op: Op, c: Id, lease: Id, command: Option<Id>)
    requires Sound(tr) && e.uuid !in tr.ledger.used && lease in tr.ledger.used && c in tr.store
    requires PendingBehind(tr.store[c], lease, command)
    ensures c in Exec(tr.store, e, op) && PendingBehind(Exec(tr.store, e, op)[c], lease, command)
  {
    if Apply(tr.store, e, op).Failure? {
    } else if !op.OnRow? {
      OtherCallKeepsTheFence(tr.store, e, op, c, lease, command);
    } else {
      var after := ApplyRow(tr.store, e, op.id, op.row).value.0;
      assert after == tr.store[op.id.conversation := after[op.id.conversation]];
      if op.id.conversation == c { RowCallKeepsTheFence(tr.store, e, op.id, op.row, lease, command); }
    }
  }

  lemma {:induction false} HistoriesKeepTheFence(tr: Traced, events: seq<Event>, c: Id, lease: Id, command: Option<Id>)
    requires Sound(tr) && AllFresh(tr.ledger.used, events) && lease in tr.ledger.used && c in tr.store
    requires PendingBehind(tr.store[c], lease, command)
    ensures c in Run(tr.store, events) && PendingBehind(Run(tr.store, events)[c], lease, command)
    decreases |events|
  {
    if events == [] {
    } else {
      var e, op := events[0].env, events[0].op;
      CallKeepsTheFence(tr, e, op, c, lease, command);
      TrackKeepsSound(tr, e, op);
      HistoriesKeepTheFence(Track(tr, e, op), events[1..], c, lease, command);
    }
  }

  /** The command outstanding in a row. */
  function Outstanding(s: ControlState): Option<Id> {
    match s.active
    case Some(AgentCommand(id, _)) => Some(id)
    case Some(HumanCommand(id, _, _)) => Some(id)
    case None => None
  }

  /** Whatever happened since the request that opened a lease: its takeover is confirmed only by an observation of the
      browser as quiescent directly behind the command that was outstanding when the lease was requested, and once nothing
      is outstanding. */
  lemma TakeoversAreFenced(tr: Traced, e: Env, id: BrowserIdentity, request: RowOp, events: seq<Event>, f: Env, revision: int,
                           o: FenceObservation)
    requires Sound(tr) && e.uuid !in tr.ledger.used && AllFresh(tr.ledger.used + {e.uuid}, events)
    requires Opens(tr.store, e, OnRow(id, request)).Some?
    requires var later := Run(Exec(tr.store, e, OnRow(id, request)), events);
             Observation.Holds(later, id.conversation, e.uuid) && ApplyRow(later, f, id, ConfirmTakeover(revision, o)).Success?
    ensures o.quiescent && o.identity == id && id.conversation in tr.store && o.preceding == Outstanding(tr.store[id.conversation])
    ensures Run(Exec(tr.store, e, OnRow(id, request)), events)[id.conversation].active.None?
  {
    var next := Track(tr, e, OnRow(id, request));
    TrackKeepsSound(tr, e, OnRow(id, request));
    assert id.conversation in tr.store && RowAgrees(tr.ledger, id.conversation, tr.store[id.conversation]);
    OpenedBehind(tr.store, e, id, request);
    var command := Outstanding(tr.store[id.conversation]);
    HistoriesKeepTheFence(next, events, id.conversation, e.uuid, command);
    ConfirmedBehind(Run(next.store, events), f, id, revision, o, e.uuid, command);
  }

  lemma OpenedBehind(store: Store, e: Env, id: BrowserIdentity, request: RowOp)
    requires Opens(store, e, OnRow(id, request)).Some? && !Observation.Holds(store, id.conversation, e.uuid)
    ensures id.conversation in store && id.conversation in Exec(store, e, OnRow(id, request))
    ensures PendingBehind(Exec(store, e, OnRow(id, request))[id.conversation], e.uuid, Outstanding(store[id.conversation]))
  {
    assert Load(store, e, id).value.active == store[id.conversation].active;
  }

  lemma ConfirmedBehind(store: Store, f: Env, id: BrowserIdentity, revision: int, o: FenceObservation, lease: Id, command: Option<Id>)
    requires ApplyRow(store, f, id, ConfirmTakeover(revision, o)).Success?
    requires Observation.Holds(store, id.conversation, lease) && PendingBehind(store[id.conversation], lease, command)
    ensures o == FenceObservation(id, command, true) && store[id.conversation].active.None?
  {
    assert Load(store, f, id).value == store[id.conversation];
  }
}
