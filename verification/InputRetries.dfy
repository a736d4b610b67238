/** Retries of one input over whole histories: what a completion recorded is what every later retry is told. */
module InputRetries {
  import opened Wrappers
  import opened ControlModel
  import opened ControlProofs
  import opened ControlLedger
  import Observation

  /** Wherever this input is still the latest one, its receipt is the given one. */
  predicate Remembers(s: ControlState, r: InputReceipt) {
    s.lastInput.Some? && s.lastInput.value.lease == r.lease && s.lastInput.value.sequence == r.sequence ==> s.lastInput == Some(r)
  }

  predicate Remembered(tr: Traced, r: InputReceipt) {
    && r.outcome in {Applied, Rejected} && r.sequence <= |Issued(tr.ledger, r.lease)|
    && forall c <- tr.store :: Remembers(tr.store[c], r)
  }

  /** A positively completed receipt is changed by no call; only the next reservation replaces it. */
  lemma ReceiptStays(s: ControlState, e: Env, op: RowOp, r: InputReceipt)
    requires Ready(e, op) && RowStep(s, e, op).Success? && Remembers(s, r) && r.outcome in {Applied, Rejected}
    requires !op.ReserveInput?
    ensures Remembers(RowStep(s, e, op).value.0, r)
  {
  }

  lemma RowCallRemembers(tr: Traced, e: Env, id: BrowserIdentity, op: RowOp, r: InputReceipt)
    requires Sound(tr) && e.uuid !in tr.ledger.used && Remembered(tr, r) && ApplyRow(tr.store, e, id, op).Success?
    ensures Remembers(ApplyRow(tr.store, e, id, op).value.0[id.conversation], r)
  {
    var s := Load(tr.store, e, id).value;
    assert Remembers(tr.store[id.conversation], r) && s.lastInput == tr.store[id.conversation].lastInput;
    if op.ReserveInput? {
      ReservationIsNextOrRepeat(tr, e, id, op.owner, op.lease, op.revision, op.sequence);
    } else {
      ReceiptStays(s, e, op, r);
    }
  }

  lemma OtherCallRemembers(store: Store, e: Env, op: Op, r: InputReceipt, c: Id)
    requires Apply(store, e, op).Success? && !op.OnRow? && c in Exec(store, e, op) && r.outcome in {Applied, Rejected}
    requires c in store ==> Remembers(store[c], r)
    ensures Remembers(Exec(store, e, op)[c], r)
  {
  }

  lemma CallRemembers(tr: Traced, e: Env, op: Op, r: InputReceipt)
    requires Sound(tr) && e.uuid !in tr.ledger.used && Remembered(tr, r)
    ensures Remembered(Track(tr, e, op), r)
  {
    TrackIssues(tr, e, op, r.lease);
    var after := Exec(tr.store, e, op);
    forall c <- after ensures Remembers(after[c], r) {
      if Apply(tr.store, e, op).Success? && op.OnRow? {
        RowCallRemembers(tr, e, op.id, op.row, r);
      } else if Apply(tr.store, e, op).Success? {
        OtherCallRemembers(tr.store, e, op, r, c);
      }
    }
  }

  lemma {:induction false} HistoriesRemember(tr: Traced, events: seq<Event>, r: InputReceipt)
    requires Sound(tr) && AllFresh(tr.ledger.used, events) && Remembered(tr, r)
    ensures Sound(TrackAll(tr, events)) && Remembered(TrackAll(tr, events), r)
    decreases |events|
  {
    if events == [] {
    } else {
      TrackKeepsSound(tr, events[0].env, events[0].op);
      CallRemembers(tr, events[0].env, events[0].op, r);
      HistoriesRemember(Track(tr, events[0].env, events[0].op), events[1..], r);
    }
  }

  lemma CompletionIsRemembered(tr: Traced, e: Env, id: BrowserIdentity, r: InputReceipt)
    requires Sound(tr) && e.uuid !in tr.ledger.used && r.outcome in {Applied, Rejected}
    requires ApplyRow(tr.store, e, id, CompleteInput(r.lease, r.sequence, r.command, r.outcome)).Success?
    ensures Remembered(Track(tr, e, OnRow(id, CompleteInput(r.lease, r.sequence, r.command, r.outcome))), r)
  {
    var op := CompleteInput(r.lease, r.sequence, r.command, r.outcome);
    var after := ApplyRow(tr.store, e, id, op).value.0;
    assert RowAgrees(tr.ledger, id.conversation, tr.store[id.conversation]);
    assert Load(tr.store, e, id).value.lastInput == tr.store[id.conversation].lastInput;
    TrackIssues(tr, e, OnRow(id, op), r.lease);
    forall c <- after ensures Remembers(after[c], r) {
      if c != id.conversation { assert RowAgrees(tr.ledger, c, tr.store[c]); }
    }
  }

  /** After an input was completed positively, whatever history follows: a reservation of the same lease and sequence that
      is answered at all is answered with that command and outcome, is not executed, and changes nothing. */
  lemma RetriesAreToldTheOutcome(tr: Traced, done: Env, id: BrowserIdentity, r: InputReceipt, events: seq<Event>,
                                 e: Env, other: BrowserIdentity, owner: OwnerBinding, revision: int)
    requires Sound(tr) && done.uuid !in tr.ledger.used && r.outcome in {Applied, Rejected}
    requires ApplyRow(tr.store, done, id, CompleteInput(r.lease, r.sequence, r.command, r.outcome)).Success?
    requires AllFresh(tr.ledger.used + {done.uuid}, events)
    requires var next := Track(tr, done, OnRow(id, CompleteInput(r.lease, r.sequence, r.command, r.outcome)));
             e.uuid !in TrackAll(next, events).ledger.used
    ensures var next := Track(tr, done, OnRow(id, CompleteInput(r.lease, r.sequence, r.command, r.outcome)));
            var later := TrackAll(next, events).store;
            var retry := ApplyRow(later, e, other, ReserveInput(owner, r.lease, revision, r.sequence));
            retry.Success? ==> && retry.value.0 == later && retry.value.1.AckReply? && !retry.value.1.ack.execute
                               && retry.value.1.ack.outcome == r.outcome && retry.value.1.ack.command == r.command
  {
    var op := CompleteInput(r.lease, r.sequence, r.command, r.outcome);
    var next := Track(tr, done, OnRow(id, op));
    TrackKeepsSound(tr, done, OnRow(id, op));
    CompletionIsRemembered(tr, done, id, r);
    HistoriesRemember(next, events, r);
    RememberedRetry(TrackAll(next, events), e, other, owner, revision, r);
  }

  lemma RememberedRetry(tr: Traced, e: Env, id: BrowserIdentity, owner: OwnerBinding, revision: int, r: InputReceipt)
    requires Sound(tr) && e.uuid !in tr.ledger.used && Remembered(tr, r)
    ensures var retry := ApplyRow(tr.store, e, id, ReserveInput(owner, r.lease, revision, r.sequence));
            retry.Success? ==> && retry.value.0 == tr.store && retry.value.1.AckReply? && !retry.value.1.ack.execute
                               && retry.value.1.ack.outcome == r.outcome && retry.value.1.ack.command == r.command
  {
    if ApplyRow(tr.store, e, id, ReserveInput(owner, r.lease, revision, r.sequence)).Success? {
      ReservationIsNextOrRepeat(tr, e, id, owner, r.lease, revision, r.sequence);
      assert Remembers(tr.store[id.conversation], r);
    }
  }

  /** After an uncertain completion the lease is gone, and no reservation under it is ever answered again. */
  lemma UncertainInputsAreNotRetried(tr: Traced, done: Env, id: BrowserIdentity, r: InputReceipt, events: seq<Event>,
                                     e: Env, other: BrowserIdentity, owner: OwnerBinding, revision: int, sequence: int)
    requires Sound(tr) && done.uuid !in tr.ledger.used && r.outcome == Uncertain && other.conversation == id.conversation
    requires ApplyRow(tr.store, done, id, CompleteInput(r.lease, r.sequence, r.command, Uncertain)).Success?
    requires AllFresh(tr.ledger.used + {done.uuid}, events)
    ensures var next := Track(tr, done, OnRow(id, CompleteInput(r.lease, r.sequence, r.command, Uncertain)));
            ApplyRow(TrackAll(next, events).store, e, other, ReserveInput(owner, r.lease, revision, sequence)).Failure?
  {
    var op := CompleteInput(r.lease, r.sequence, r.command, Uncertain);
    var next := Track(tr, done, OnRow(id, op));
    assert RowAgrees(tr.ledger, id.conversation, tr.store[id.conversation]);
    TrackKeepsSound(tr, done, OnRow(id, op));
    EveryHistoryIsSound(next, events);
    Observation.GoneLeasesStayGone(next, events, id.conversation, r.lease);
    if ApplyRow(TrackAll(next, events).store, e, other, ReserveInput(owner, r.lease, revision, sequence)).Success? {
      ReservingHolds(TrackAll(next, events).store, e, other, owner, r.lease, revision, sequence);
    }
  }

  lemma ReservingHolds(store: Store, e: Env, id: BrowserIdentity, owner: OwnerBinding, lease: Id, revision: int, sequence: int)
    requires ApplyRow(store, e, id, ReserveInput(owner, lease, revision, sequence)).Success?
    ensures Observation.Holds(store, id.conversation, lease)
  {
    assert Load(store, e, id).value.lease == store[id.conversation].lease;
  }
}
