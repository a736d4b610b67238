/** Human input and takeover requests over whole histories: a ledger of every lease ever opened and every input
    command ever handed out for execution, kept beside the store and never consulted by it. */
module ControlLedger {
  import opened Wrappers
  import opened ControlModel
  import opened ControlProofs

  /** `home`: the conversation of each lease; `executed`: the commands handed out under it, in order;
      `claims`: the lease opened by a takeover request naming (conversation, revision). */
  datatype Ledger = Ledger(used: set<Id>, home: map<Id, Id>, executed: map<Id, seq<Id>>, claims: map<(Id, int), Id>)

  datatype Traced = Traced(store: Store, ledger: Ledger)

  function ReplyOf(store: Store, e: Env, op: Op): Option<Reply> {
    var r := Apply(store, e, op);
    if r.Success? then Some(r.value.1) else None
  }

  /** The lease this call opened, if it opened one. */
  function Opens(store: Store, e: Env, op: Op): Option<HumanLease> {
    match ReplyOf(store, e, op)
    case Some(StateReply(t)) =>
      if op.OnRow? && op.row.RequestTakeover? && t.lease.Some? && t.lease.value.id == e.uuid then t.lease else None
    case _ => None
  }

  /** The acknowledgement of this call, if it hands an input out for execution. */
  function Executes(store: Store, e: Env, op: Op): Option<InputAck> {
    match ReplyOf(store, e, op)
    case Some(AckReply(a)) => if op.OnRow? && op.row.ReserveInput? && a.execute then Some(a) else None
    case _ => None
  }

  function Track(tr: Traced, e: Env, op: Op): Traced {
    var l := tr.ledger.(used := tr.ledger.used + {e.uuid});
    var opens, executes := Opens(tr.store, e, op), Executes(tr.store, e, op);
    var l :=
      if opens.Some? then
        l.(home := l.home[e.uuid := op.id.conversation], executed := l.executed[e.uuid := []],
           claims := l.claims[(op.id.conversation, opens.value.requestRevision) := e.uuid])
      else if executes.Some? && op.row.lease in l.executed then
        l.(executed := l.executed[op.row.lease := l.executed[op.row.lease] + [executes.value.command]])
      else l;
    Traced(Exec(tr.store, e, op), l)
  }

  function TrackAll(tr: Traced, events: seq<Event>): Traced
    decreases |events|
  {
    if events == [] then tr else TrackAll(Track(tr, events[0].env, events[0].op), events[1..])
  }

  /** uuid4 never repeats an identifier. */
  predicate AllFresh(used: set<Id>, events: seq<Event>)
    decreases |events|
  {
    events == [] || (events[0].env.uuid !in used && AllFresh(used + {events[0].env.uuid}, events[1..]))
  }

  predicate RowAgrees(l: Ledger, c: Id, s: ControlState) {
    && (s.lease.Some? ==>
          var lease := s.lease.value;
          && lease.id in l.home && l.home[lease.id] == c && lease.id in l.executed
          && s.lastSequence == |l.executed[lease.id]|
          && (c, lease.requestRevision) in l.claims && l.claims[(c, lease.requestRevision)] == lease.id)
    && (s.lastInput.Some? ==>
          var r := s.lastInput.value;
          && r.lease in l.home && l.home[r.lease] == c && r.lease in l.executed && l.executed[r.lease] != []
          && r.sequence == |l.executed[r.lease]| && r.command == l.executed[r.lease][r.sequence - 1])
  }

  predicate Sound(tr: Traced) {
    && StoreConsistent(tr.store)
    && tr.ledger.home.Keys <= tr.ledger.used && tr.ledger.executed.Keys == tr.ledger.home.Keys
    && (forall k | k in tr.ledger.claims :: k.0 in tr.store && k.1 < tr.store[k.0].revision)
    && (forall c | c in tr.store :: RowAgrees(tr.ledger, c, tr.store[c]))
  }

  /** A change of a row that neither opens a lease nor hands out an input. */
  predicate Quiet(s: ControlState, t: ControlState) {
    && (t.lease.Some? ==> s.lease.Some? && t.lease.value.id == s.lease.value.id
                          && t.lease.value.requestRevision == s.lease.value.requestRevision && t.lastSequence == s.lastSequence)
    && (t.lastInput.Some? ==> s.lastInput.Some? && t.lastInput.value.lease == s.lastInput.value.lease
                              && t.lastInput.value.sequence == s.lastInput.value.sequence
                              && t.lastInput.value.command == s.lastInput.value.command)
  }

  lemma QuietStep(s: ControlState, e: Env, op: RowOp)
    requires Ready(e, op) && RowStep(s, e, op).Success? && !op.RequestTakeover? && !op.ReserveInput?
    ensures Quiet(s, RowStep(s, e, op).value.0)
  {
  }

  /** What the ledger may do besides growing: open one lease with a fresh name, or extend one lease's commands. */
  predicate Extends(l: Ledger, m: Ledger, c: Id) {
    && l.home.Keys <= m.home.Keys && m.home.Keys == m.executed.Keys
    && (forall i | i in l.home :: m.home[i] == l.home[i])
    && (forall i | i in l.executed && i in l.home && l.home[i] != c :: m.executed[i] == l.executed[i])
    && (forall k | k in l.claims && k.0 != c :: k in m.claims && m.claims[k] == l.claims[k])
  }

  lemma OtherRowsAgree(l: Ledger, m: Ledger, c: Id, d: Id, s: ControlState)
    requires RowAgrees(l, d, s) && l.executed.Keys == l.home.Keys && Extends(l, m, c) && d != c
    ensures RowAgrees(m, d, s)
  {
  }

  /** Three ways a call can touch one row, with the ledger it leaves behind. */
  predicate RowCallOutcome(l: Ledger, c: Id, s: ControlState, e: Env, t: ControlState, m: Ledger) {
    || (Quiet(s, t) && m == l.(used := l.used + {e.uuid}))
    || (&& t.lease.Some? && t.lease.value.id == e.uuid && t.lastSequence == 0 && Quiet(s, t.(lease := None))
        && t.lease.value.requestRevision < t.revision
        && m == Ledger(l.used + {e.uuid}, l.home[e.uuid := c], l.executed[e.uuid := []],
                       l.claims[(c, t.lease.value.requestRevision) := e.uuid]))
    || (&& s.lease.Some? && t.lease == s.lease && s.lease.value.id in l.executed
        && t.lastSequence == s.lastSequence + 1
        && t.lastInput == Some(InputReceipt(s.lease.value.id, t.lastSequence, e.uuid, Reserved))
        && m == l.(used := l.used + {e.uuid},
                   executed := l.executed[s.lease.value.id := l.executed[s.lease.value.id] + [e.uuid]]))
  }

  lemma OutcomeAgrees(l: Ledger, c: Id, s: ControlState, e: Env, t: ControlState, m: Ledger)
    requires RowAgrees(l, c, s) && l.executed.Keys == l.home.Keys && l.home.Keys <= l.used && e.uuid !in l.used
    requires RowCallOutcome(l, c, s, e, t, m)
    ensures RowAgrees(m, c, t) && Extends(l, m, c) && m.home.Keys <= m.used
    ensures forall k | k in m.claims && k !in l.claims :: k.0 == c && k.1 < t.revision
  {
  }

  /** Every call on a row has one of those outcomes. */
  lemma RowCallHasOutcome(tr: Traced, e: Env, id: BrowserIdentity, op: RowOp)
    requires id.conversation in tr.store && Consistent(tr.store[id.conversation])
    requires RowAgrees(tr.ledger, id.conversation, tr.store[id.conversation])
    requires tr.ledger.home.Keys <= tr.ledger.used && e.uuid !in tr.ledger.used && ApplyRow(tr.store, e, id, op).Success?
    ensures var next := Track(tr, e, OnRow(id, op));
            && next.store == tr.store[id.conversation := next.store[id.conversation]]
            && RowCallOutcome(tr.ledger, id.conversation, tr.store[id.conversation], e, next.store[id.conversation], next.ledger)
  {
    var s := Load(tr.store, e, id).value;
    assert Quiet(tr.store[id.conversation], s);
    if !op.RequestTakeover? && !op.ReserveInput? {
      QuietStep(s, e, op);
    }
  }

  lemma TrackKeepsSound(tr: Traced, e: Env, op: Op)
    requires Sound(tr) && e.uuid !in tr.ledger.used
    ensures Sound(Track(tr, e, op))
  {
    CallAdvances(tr.store, e, op);
    if Apply(tr.store, e, op).Success? && op.OnRow? {
      RowCallKeepsSound(tr, e, op.id, op.row);
    } else {
      OtherCallKeepsSound(tr, e, op);
    }
  }

  /** One row changed and the ledger grew to fit it: every other row still fits. */
  lemma RowChangeKeepsSound(tr: Traced, next: Traced, c: Id)
    requires Sound(tr) && c in tr.store && c in next.store && next.store == tr.store[c := next.store[c]]
    requires StoreConsistent(next.store) && tr.store[c].revision <= next.store[c].revision
    requires RowAgrees(next.ledger, c, next.store[c]) && Extends(tr.ledger, next.ledger, c)
    requires next.ledger.home.Keys <= next.ledger.used
    requires forall k | k in next.ledger.claims && k !in tr.ledger.claims :: k.0 == c && k.1 < next.store[c].revision
    ensures Sound(next)
  {
    forall d | d in next.store && d != c ensures RowAgrees(next.ledger, d, next.store[d]) {
      OtherRowsAgree(tr.ledger, next.ledger, c, d, tr.store[d]);
    }
  }

  lemma RowCallKeepsSound(tr: Traced, e: Env, id: BrowserIdentity, op: RowOp)
    requires Sound(tr) && e.uuid !in tr.ledger.used && ApplyRow(tr.store, e, id, op).Success?
    requires StoreAdvances(tr.store, OnRow(id, op), Exec(tr.store, e, OnRow(id, op)))
    ensures Sound(Track(tr, e, OnRow(id, op)))
  {
    var next, c := Track(tr, e, OnRow(id, op)), id.conversation;
    RowCallHasOutcome(tr, e, id, op);
    OutcomeAgrees(tr.ledger, c, tr.store[c], e, next.store[c], next.ledger);
    RowChangeKeepsSound(tr, next, c);
  }

  /** A bind or a restart leaves every surviving row quiet, and a freshly bound row holds nothing. */
  lemma OtherCallIsQuiet(store: Store, e: Env, op: Op, d: Id)
    requires Apply(store, e, op).Success? && !op.OnRow? && d in Exec(store, e, op)
    ensures var t := Exec(store, e, op)[d]; (t.lease.None? && t.lastInput.None?) || (d in store && Quiet(store[d], t))
  {
  }

  /** A store whose rows are all quiet or empty of claims fits the ledger it had. */
  lemma QuietStoreKeepsSound(tr: Traced, used: set<Id>, after: Store)
    requires Sound(tr) && tr.ledger.used <= used && StoreConsistent(after) && tr.store.Keys <= after.Keys
    requires forall c | c in tr.store :: tr.store[c].revision <= after[c].revision
    requires forall d | d in after ::
               (after[d].lease.None? && after[d].lastInput.None?) || (d in tr.store && Quiet(tr.store[d], after[d]))
    ensures Sound(Traced(after, tr.ledger.(used := used)))
  {
    var m := tr.ledger.(used := used);
    forall d | d in after ensures RowAgrees(m, d, after[d]) {
      if d in tr.store { assert RowAgrees(tr.ledger, d, tr.store[d]); }
    }
  }

  lemma OtherCallKeepsSound(tr: Traced, e: Env, op: Op)
    requires Sound(tr) && e.uuid !in tr.ledger.used && (Apply(tr.store, e, op).Failure? || !op.OnRow?)
    requires StoreAdvances(tr.store, op, Exec(tr.store, e, op))
    ensures Sound(Track(tr, e, op))
  {
    var after := Exec(tr.store, e, op);
    forall d | d in after
      ensures (after[d].lease.None? && after[d].lastInput.None?) || (d in tr.store && Quiet(tr.store[d], after[d]))
    {
      if Apply(tr.store, e, op).Success? { OtherCallIsQuiet(tr.store, e, op, d); }
    }
    QuietStoreKeepsSound(tr, tr.ledger.used + {e.uuid}, after);
    OtherCallTracksNothing(tr, e, op);
  }

  lemma OtherCallTracksNothing(tr: Traced, e: Env, op: Op)
    requires Apply(tr.store, e, op).Failure? || !op.OnRow?
    ensures Track(tr, e, op) == Traced(Exec(tr.store, e, op), tr.ledger.(used := tr.ledger.used + {e.uuid}))
  {
  }

  lemma {:induction false} EveryHistoryIsSound(tr: Traced, events: seq<Event>)
    requires Sound(tr) && AllFresh(tr.ledger.used, events)
    ensures Sound(TrackAll(tr, events)) && TrackAll(tr, events).store == Run(tr.store, events)
    decreases |events|
  {
    if events != [] {
      TrackKeepsSound(tr, events[0].env, events[0].op);
      EveryHistoryIsSound(Track(tr, events[0].env, events[0].op), events[1..]);
    }
  }

  // ---------------------------------------------------------------- each input is executed at most once

  function Issued(l: Ledger, lease: Id): seq<Id> {
    if lease in l.executed then l.executed[lease] else []
  }

  /** One reservation: either it hands out the next command of the lease, or it repeats what the latest one of the
      lease was told, and then the row is not touched beyond its lazy expiry. */
  lemma ReservationIsNextOrRepeat(tr: Traced, e: Env, id: BrowserIdentity, owner: OwnerBinding, lease: Id, revision: int, sequence: int)
    requires Sound(tr) && e.uuid !in tr.ledger.used
    requires ApplyRow(tr.store, e, id, ReserveInput(owner, lease, revision, sequence)).Success?
    ensures var op := ReserveInput(owner, lease, revision, sequence);
            var reply := ApplyRow(tr.store, e, id, op).value.1;
            var issued, after := Issued(tr.ledger, lease), Track(tr, e, OnRow(id, op));
            && reply.AckReply? && reply.ack.sequence == sequence && lease in tr.ledger.executed
            && (reply.ack.execute ==> && sequence == |issued| + 1 && reply.ack.command !in tr.ledger.used
                                      && reply.ack.outcome == Reserved
                                      && Issued(after.ledger, lease) == issued + [reply.ack.command])
            && (!reply.ack.execute ==> && 1 <= sequence == |issued| && reply.ack.command == issued[sequence - 1]
                                       && tr.store[id.conversation].lastInput.Some?
                                       && reply.ack.outcome == tr.store[id.conversation].lastInput.value.outcome
                                       && after.store == tr.store && Issued(after.ledger, lease) == issued)
  {
    var stored := tr.store[id.conversation];
    assert RowAgrees(tr.ledger, id.conversation, stored);
    assert Load(tr.store, e, id).value == stored;
  }

  /** The sequence numbers acknowledged with permission to execute under one lease, over a history. */
  function ExecutedSequences(tr: Traced, events: seq<Event>, lease: Id): seq<int>
    decreases |events|
  {
    if events == [] then [] else
    var a := Executes(tr.store, events[0].env, events[0].op);
    var rest := ExecutedSequences(Track(tr, events[0].env, events[0].op), events[1..], lease);
    if a.Some? && events[0].op.row.lease == lease then [a.value.sequence] + rest else rest
  }

  function Count(n: nat, m: nat): seq<int>
    requires n <= m
  {
    seq(m - n, i requires 0 <= i => n + i + 1)
  }

  lemma TrackIssues(tr: Traced, e: Env, op: Op, lease: Id)
    requires Sound(tr) && e.uuid !in tr.ledger.used
    ensures var a, n, m := Executes(tr.store, e, op), |Issued(tr.ledger, lease)|, |Issued(Track(tr, e, op).ledger, lease)|;
            if a.Some? && op.row.lease == lease then a.value.sequence == n + 1 == m else n == m
  {
    if Executes(tr.store, e, op).Some? {
      ReservationIsNextOrRepeat(tr, e, op.id, op.row.owner, op.row.lease, op.row.revision, op.row.sequence);
    }
  }

  /** Over every history, with any retries, lost replies, expiry, handback, rebinding or restart in it, the inputs
      executed under a lease are numbered without a gap and without a repetition. */
  lemma {:induction false} ExecutionsAreGapless(tr: Traced, events: seq<Event>, lease: Id)
    requires Sound(tr) && AllFresh(tr.ledger.used, events)
    ensures |Issued(tr.ledger, lease)| <= |Issued(TrackAll(tr, events).ledger, lease)|
    ensures ExecutedSequences(tr, events, lease)
            == Count(|Issued(tr.ledger, lease)|, |Issued(TrackAll(tr, events).ledger, lease)|)
    decreases |events|
  {
    if events != [] {
      var e, op := events[0].env, events[0].op;
      var a, next := Executes(tr.store, e, op), Track(tr, e, op);
      TrackIssues(tr, e, op, lease);
      TrackKeepsSound(tr, e, op);
      ExecutionsAreGapless(next, events[1..], lease);
      HeadThenRest(tr, events, lease, |Issued(tr.ledger, lease)|, |Issued(next.ledger, lease)|, |Issued(TrackAll(tr, events).ledger, lease)|);
    }
  }

  lemma HeadThenRest(tr: Traced, events: seq<Event>, lease: Id, n: nat, k: nat, m: nat)
    requires events != [] && n <= k <= m
    requires ExecutedSequences(Track(tr, events[0].env, events[0].op), events[1..], lease) == Count(k, m)
    requires var a := Executes(tr.store, events[0].env, events[0].op);
             if a.Some? && events[0].op.row.lease == lease then a.value.sequence == n + 1 == k else n == k
    ensures ExecutedSequences(tr, events, lease) == Count(n, m)
  {
    assert n < m ==> Count(n, m) == [n + 1] + Count(n + 1, m);
  }

  const NO_HISTORY := Traced(map[], Ledger({}, map[], map[], map[]))

  /** From the empty store on, the inputs executed under any lease are numbered 1, 2, 3 and so on. */
  lemma ExecutionsCountFromOne(events: seq<Event>, lease: Id)
    requires AllFresh({}, events)
    ensures var executed := ExecutedSequences(NO_HISTORY, events, lease);
            forall k | 0 <= k < |executed| :: executed[k] == k + 1
  {
    ExecutionsAreGapless(NO_HISTORY, events, lease);
  }

  /** Directly after its completion, a positively completed input asked for again under the same lease and revision is answered
      with its recorded outcome and is not executed again; an uncertain one is refused, because its lease is gone. */
  lemma RetryReturnsTheRecordedOutcome(s: ControlState, e: Env, f: Env, owner: OwnerBinding, sequence: int, outcome: Outcome)
    requires Consistent(s) && s.mode == Human && s.lease.value.owner == owner && owner.principal == s.principal
    requires s.active.Some? && s.lastInput.Some? && sequence == s.lastInput.value.sequence
    requires outcome in {Applied, Rejected, Uncertain}
    ensures var lease, command := s.lease.value.id, s.lastInput.value.command;
            var done := RowStep(s, e, CompleteInput(lease, sequence, command, outcome));
            && done.Success?
            && (outcome != Uncertain ==>
                  RowStep(done.value.0, f, ReserveInput(owner, lease, s.revision, sequence))
                  == Success((done.value.0, AckReply(InputAck(s.identity, sequence, outcome, false, command, s.revision)))))
            && (outcome == Uncertain ==>
                  forall revision :: RowStep(done.value.0, f, ReserveInput(owner, lease, revision, sequence)).Failure?)
  {
  }

  // ---------------------------------------------------------------- one revision opens at most one lease

  lemma {:induction false} ClaimsAreKept(tr: Traced, events: seq<Event>, c: Id, revision: int)
    requires Sound(tr) && AllFresh(tr.ledger.used, events) && (c, revision) in tr.ledger.claims
    ensures var l := TrackAll(tr, events).ledger; (c, revision) in l.claims && l.claims[(c, revision)] == tr.ledger.claims[(c, revision)]
    decreases |events|
  {
    if events != [] {
      var e, op := events[0].env, events[0].op;
      var opens := Opens(tr.store, e, op);
      if opens.Some? {
        OpeningNamesItsRevision(tr, e, op);
      }
      TrackKeepsSound(tr, e, op);
      ClaimsAreKept(Track(tr, e, op), events[1..], c, revision);
    }
  }

  /** A lease is opened only by a request that names the current revision, which no earlier lease can have named. */
  lemma OpeningNamesItsRevision(tr: Traced, e: Env, op: Op)
    requires Sound(tr) && e.uuid !in tr.ledger.used && Opens(tr.store, e, op).Some?
    ensures (op.id.conversation, op.row.revision) !in tr.ledger.claims
    ensures Opens(tr.store, e, op).value.requestRevision == op.row.revision
  {
    var stored := tr.store[op.id.conversation];
    assert RowAgrees(tr.ledger, op.id.conversation, stored);
    assert Load(tr.store, e, op.id).value.revision >= stored.revision;
  }

  /** Once a takeover request has opened a lease, a request naming the same revision, at any later time, is either
      rejected or answered with that very lease while it still stands; it never opens another one. */
  lemma {:induction false} ClosedRequestsNeverReopen(
    tr: Traced, events: seq<Event>, e: Env, id: BrowserIdentity, owner: OwnerBinding, request: Id, revision: int, auth: Option<Time>)
    requires Sound(tr) && AllFresh(tr.ledger.used, events) && (id.conversation, revision) in tr.ledger.claims
    requires e.uuid !in TrackAll(tr, events).ledger.used
    ensures var last := TrackAll(tr, events);
            var r := ApplyRow(last.store, e, id, RequestTakeover(owner, request, revision, auth));
            r.Success? ==> && r.value.0 == last.store && r.value.1.StateReply? && r.value.1.state.lease.Some?
                           && r.value.1.state.lease.value.id == tr.ledger.claims[(id.conversation, revision)]
  {
    var last := TrackAll(tr, events);
    ClaimsAreKept(tr, events, id.conversation, revision);
    EveryHistoryIsSound(tr, events);
    RequestRepeatsItsLease(last, e, id, owner, request, revision, auth);
  }

  lemma RequestRepeatsItsLease(tr: Traced, e: Env, id: BrowserIdentity, owner: OwnerBinding, request: Id, revision: int, auth: Option<Time>)
    requires Sound(tr) && (id.conversation, revision) in tr.ledger.claims
    ensures var r := ApplyRow(tr.store, e, id, RequestTakeover(owner, request, revision, auth));
            r.Success? ==> && r.value.0 == tr.store && r.value.1.StateReply? && r.value.1.state.lease.Some?
                           && r.value.1.state.lease.value.id == tr.ledger.claims[(id.conversation, revision)]
  {
    if ApplyRow(tr.store, e, id, RequestTakeover(owner, request, revision, auth)).Success? {
      var stored := tr.store[id.conversation];
      assert RowAgrees(tr.ledger, id.conversation, stored);
      assert revision < stored.revision;
      assert Load(tr.store, e, id).value.lease.Some? ==> Load(tr.store, e, id).value == stored;
    }
  }
}
