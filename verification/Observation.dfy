/** Page observation under an owner's explicit grant: the grant is authorized before the page is read and again
    after it, and the capture is returned only if both succeed. */
module Observation {
  import opened Wrappers
  import opened ControlModel
  import opened ControlProofs
  import opened ControlLedger
  import ControlEffects

  predicate Holds(store: Store, c: Id, lease: Id) {
    c in store && store[c].lease.Some? && store[c].lease.value.id == lease
  }

  /** The owner's observe grant of that lease and epoch stands. */
  predicate GrantStands(store: Store, id: BrowserIdentity, owner: OwnerBinding, lease: Id, epoch: int) {
    && Holds(store, id.conversation, lease) && store[id.conversation].identity == id && store[id.conversation].mode == Human
    && store[id.conversation].lease.value.owner == owner
    && store[id.conversation].lease.value.observing && store[id.conversation].lease.value.epoch == epoch
  }

  /** `Platform.observation`: what the observer gets for a capture made while `between` happened. */
  function Observe<T>(store: Store, before: Env, between: seq<Event>, after: Env, id: BrowserIdentity, owner: OwnerBinding,
                      lease: Id, epoch: int, capture: T): Option<T>
  {
    var authorize := AuthorizeObservation(owner, lease, epoch);
    if ApplyRow(store, before, id, authorize).Failure? then None else
    var later := Run(Exec(store, before, OnRow(id, authorize)), between);
    if ApplyRow(later, after, id, authorize).Failure? then None else Some(capture)
  }

  lemma AuthorizedMeansGranted(store: Store, e: Env, id: BrowserIdentity, owner: OwnerBinding, lease: Id, epoch: int)
    requires StoreConsistent(store) && ApplyRow(store, e, id, AuthorizeObservation(owner, lease, epoch)).Success?
    ensures GrantStands(store, id, owner, lease, epoch)
    ensures Exec(store, e, OnRow(id, AuthorizeObservation(owner, lease, epoch))) == store
  {
    var stored := store[id.conversation];
    assert Load(store, e, id).value == stored;
  }

  // ---------------------------------------------------------------- how a lease ages

  /** A human lease that survives a transition stays a human lease, and every new revision is a new epoch. */
  predicate Ages(s: ControlState, t: ControlState, uuid: Id) {
    && (t.lease.Some? ==> t.lease.value.id == uuid || (s.lease.Some? && s.lease.value.id == t.lease.value.id))
    && (s.mode == Human && s.lease.Some? && t.lease.Some? && t.lease.value.id == s.lease.value.id ==>
          t.mode == Human && t.lease.value.epoch - s.lease.value.epoch == t.revision - s.revision)
  }

  lemma StepAges(s: ControlState, e: Env, op: RowOp)
    requires Ready(e, op) && Consistent(s) && RowStep(s, e, op).Success? && (s.lease.Some? ==> s.lease.value.id != e.uuid)
    ensures Ages(s, RowStep(s, e, op).value.0, e.uuid)
  {
  }

  lemma RowCallAges(store: Store, e: Env, id: BrowserIdentity, op: RowOp)
    requires StoreConsistent(store) && ApplyRow(store, e, id, op).Success?
    requires forall c | c in store && store[c].lease.Some? :: store[c].lease.value.id != e.uuid
    ensures Ages(store[id.conversation], ApplyRow(store, e, id, op).value.0[id.conversation], e.uuid)
  {
    var s := Load(store, e, id).value;
    ExpiryAdvances(store[id.conversation], e);
    StepAges(s, e, op);
  }

  lemma OtherCallAges(store: Store, e: Env, op: Op, c: Id)
    requires StoreConsistent(store) && c in store && (Apply(store, e, op).Failure? || !op.OnRow?)
    ensures c in Exec(store, e, op) && Ages(store[c], Exec(store, e, op)[c], e.uuid)
  {
  }

  lemma CallAges(tr: Traced, e: Env, op: Op, c: Id)
    requires Sound(tr) && e.uuid !in tr.ledger.used && c in tr.store
    ensures c in Exec(tr.store, e, op) && Ages(tr.store[c], Exec(tr.store, e, op)[c], e.uuid)
  {
    forall d | d in tr.store && tr.store[d].lease.Some? ensures tr.store[d].lease.value.id != e.uuid {
      assert RowAgrees(tr.ledger, d, tr.store[d]);
    }
    if Apply(tr.store, e, op).Failure? || !op.OnRow? {
      OtherCallAges(tr.store, e, op, c);
    } else {
      RowCallAges(tr.store, e, op.id, op.row);
      var after := ApplyRow(tr.store, e, op.id, op.row).value.0;
      assert c != op.id.conversation ==> after[c] == tr.store[c];
    }
  }

  /** A lease that is gone never comes back. */
  lemma {:induction false} GoneLeasesStayGone(tr: Traced, events: seq<Event>, c: Id, lease: Id)
    requires Sound(tr) && AllFresh(tr.ledger.used, events) && lease in tr.ledger.used && c in tr.store
    requires !Holds(tr.store, c, lease)
    ensures !Holds(Run(tr.store, events), c, lease)
    decreases |events|
  {
    if events != [] {
      var e, op := events[0].env, events[0].op;
      CallAges(tr, e, op, c);
      TrackKeepsSound(tr, e, op);
      GoneLeasesStayGone(Track(tr, e, op), events[1..], c, lease);
    }
  }

  lemma {:induction false} HeldLeasesAge(tr: Traced, events: seq<Event>, c: Id, lease: Id)
    requires Sound(tr) && AllFresh(tr.ledger.used, events) && Holds(tr.store, c, lease) && tr.store[c].mode == Human
    requires Holds(Run(tr.store, events), c, lease)
    ensures var t := Run(tr.store, events)[c];
            t.mode == Human && t.lease.value.epoch - tr.store[c].lease.value.epoch == t.revision - tr.store[c].revision
    decreases |events|
  {
    if events != [] {
      var e, op := events[0].env, events[0].op;
      assert RowAgrees(tr.ledger, c, tr.store[c]);
      CallAges(tr, e, op, c);
      TrackKeepsSound(tr, e, op);
      if !Holds(Exec(tr.store, e, op), c, lease) {
        GoneLeasesStayGone(Track(tr, e, op), events[1..], c, lease);
      }
      HeldLeasesAge(Track(tr, e, op), events[1..], c, lease);
    }
  }

  /** There is no way back to a grant: if it stands at two moments, it stood at every moment between them. */
  lemma {:induction false} GrantsHaveNoWayBack(
    tr: Traced, xs: seq<Event>, ys: seq<Event>, id: BrowserIdentity, owner: OwnerBinding, lease: Id, epoch: int)
    requires Sound(tr) && AllFresh(tr.ledger.used, xs + ys)
    requires GrantStands(tr.store, id, owner, lease, epoch) && GrantStands(Run(tr.store, xs + ys), id, owner, lease, epoch)
    ensures GrantStands(Run(tr.store, xs), id, owner, lease, epoch)
    ensures Run(tr.store, xs)[id.conversation].revision == tr.store[id.conversation].revision
  {
    HeldLeasesAge(tr, xs + ys, id.conversation, lease);
    EqualRevisionsBracketOneAuthority(tr.store, xs, ys, id.conversation);
  }

  /** A capture reaches the observer only if the owner's grant stood continuously from before the read to after it:
      going private and back, losing and regaining control, or expiring in between each withhold it. */
  lemma {:induction false} CapturesAreCoveredThroughout<T>(
    tr: Traced, before: Env, xs: seq<Event>, ys: seq<Event>, after: Env, id: BrowserIdentity, owner: OwnerBinding,
    lease: Id, epoch: int, capture: T)
    requires Sound(tr) && AllFresh(tr.ledger.used, xs + ys)
    requires Observe(tr.store, before, xs + ys, after, id, owner, lease, epoch, capture).Some?
    ensures GrantStands(Run(tr.store, xs), id, owner, lease, epoch)
  {
    AuthorizedMeansGranted(tr.store, before, id, owner, lease, epoch);
    EveryHistoryIsConsistent(tr.store, xs + ys);
    AuthorizedMeansGranted(Run(tr.store, xs + ys), after, id, owner, lease, epoch);
    GrantsHaveNoWayBack(tr, xs, ys, id, owner, lease, epoch);
  }

  /** Conversely, a capture is returned whenever the grant stands before the read and after it, whatever happened in between. */
  lemma StandingGrantsAreObserved<T>(store: Store, before: Env, between: seq<Event>, after: Env, id: BrowserIdentity, s: ControlState,
                                     t: ControlState, epoch: int, capture: T)
    requires ControlEffects.Admitting(before) && ControlEffects.Stands(store, before, id, s)
    requires ControlEffects.Admitting(after) && ControlEffects.Stands(Run(store, between), after, id, t)
    requires s.lease.Some? && s.lease.value.observing && s.lease.value.epoch == epoch
    requires t.lease.Some? && t.lease.value.observing && t.lease.value.epoch == epoch
    requires ControlEffects.HeldBy(s, s.lease.value.owner, s.lease.value.id, s.revision)
    requires ControlEffects.HeldBy(t, s.lease.value.owner, s.lease.value.id, t.revision)
    ensures Observe(store, before, between, after, id, s.lease.value.owner, s.lease.value.id, epoch, capture) == Some(capture)
  {
    var owner, lease := s.lease.value.owner, s.lease.value.id;
    ControlEffects.ObservationFollowsTheGrant(store, before, id, s, owner, lease, s.revision, true, epoch);
    assert store[id.conversation := s] == store;
    ControlEffects.ObservationFollowsTheGrant(Run(store, between), after, id, t, owner, lease, t.revision, true, epoch);
  }
}
