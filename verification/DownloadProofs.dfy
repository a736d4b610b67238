/** The outbox over every interleaving of browser events, visibility changes, acknowledgements, crashes and recovery. */
module DownloadProofs {
  import opened Wrappers
  import opened Bytes
  import opened DownloadModel

  datatype World = World(outbox: Outbox, acked: set<(nat, nat)>)

  datatype Event =
    | Beginning(guid: nat)
    | Appearing(guid: nat, bytes: seq<byte>)
    | Digesting(guid: nat)
    | Recording
    | Abandoning
    | Cancelling(guid: nat)
    | Showing(hidden: bool, assistant: bool)
    | Acknowledging(guid: nat, digest: nat, unlinked: bool)
    | Crashing
    | Recovering(guid: nat, readable: bool)
    | Sweeping(guid: nat)

  function Step(w: World, e: Event, sha: seq<byte> -> nat): World {
    var o := w.outbox;
    match e
    case Beginning(guid) => w.(outbox := WillBegin(o, guid))
    case Appearing(guid, bytes) => w.(outbox := Appear(o, guid, bytes))
    case Digesting(guid) => w.(outbox := StartComplete(o, guid, sha))
    case Recording => w.(outbox := FinishComplete(o))
    case Abandoning => w.(outbox := Abandon(o))
    case Cancelling(guid) => w.(outbox := Cancel(o, guid))
    case Showing(hidden, assistant) => w.(outbox := Visibility(o, hidden, assistant))
    case Acknowledging(guid, digest, unlinked) => World(Ack(o, guid, digest, unlinked).0, w.acked + {(guid, digest)})
    case Crashing => w.(outbox := Restart(o))
    case Recovering(guid, readable) => w.(outbox := RecoverOne(o, guid, readable, sha))
    case Sweeping(guid) => w.(outbox := Sweep(o, guid))
  }

  function Steps(w: World, events: seq<Event>, sha: seq<byte> -> nat): World
    decreases |events|
  {
    if events == [] then w else Steps(Step(w, events[0], sha), events[1..], sha)
  }

  const NO_DOWNLOADS := World(EMPTY_OUTBOX, {})

  predicate RowSound(guid: nat, row: Row, o: Outbox, acked: set<(nat, nat)>, sha: seq<byte> -> nat) {
    match row.state
    case Pending => row.stamp.None?
    case Completed => guid in o.disk && row.stamp == Some(Measure(o.disk[guid], sha))
    case Saved => row.stamp.Some? && (guid, row.stamp.value.digest) in acked
    case Cancelled => row.stamp.None?
  }

  predicate Sound(w: World, sha: seq<byte> -> nat) {
    var o := w.outbox;
    && (forall guid <- o.rows :: RowSound(guid, o.rows[guid], o, w.acked, sha))
    && (o.digesting.Some? ==>
          var (guid, stamp) := o.digesting.value;
          guid in o.rows && o.rows[guid].state == Pending && guid in o.disk && stamp == Measure(o.disk[guid], sha))
  }

  predicate Follows(before: State, after: State) {
    before == after || before == Pending || (before == Completed && after == Saved)
  }

  /** What may happen to a row: forward only, never shown again once hidden, never measured again. */
  predicate Later(before: Row, after: Row) {
    && Follows(before.state, after.state) && (before.hidden ==> after.hidden) && after.assistant == before.assistant
    && (before.stamp.Some? ==> after.stamp == before.stamp)
  }

  /** A completed download keeps its bytes until it is saved. */
  predicate Kept(guid: nat, o: Outbox, p: Outbox)
    requires guid in o.rows && guid in p.rows
  {
    o.rows[guid].state == Completed ==>
      p.rows[guid].state == Saved
      || (p.rows[guid].state == Completed && guid in o.disk && guid in p.disk && p.disk[guid] == o.disk[guid])
  }

  predicate Moves(o: Outbox, p: Outbox) {
    forall guid <- o.rows :: guid in p.rows && Later(o.rows[guid], p.rows[guid]) && Kept(guid, o, p)
  }

  lemma AckMovesRow(w: World, other: nat, digest: nat, unlinked: bool, sha: seq<byte> -> nat, guid: nat)
    requires Sound(w, sha) && guid in w.outbox.rows
    ensures var p := Step(w, Acknowledging(other, digest, unlinked), sha).outbox;
            guid in p.rows && Later(w.outbox.rows[guid], p.rows[guid]) && Kept(guid, w.outbox, p)
  {
    assert RowSound(guid, w.outbox.rows[guid], w.outbox, w.acked, sha);
  }

  lemma StepMovesRow(w: World, e: Event, sha: seq<byte> -> nat, guid: nat)
    requires Sound(w, sha) && guid in w.outbox.rows
    ensures var p := Step(w, e, sha).outbox;
            guid in p.rows && Later(w.outbox.rows[guid], p.rows[guid]) && Kept(guid, w.outbox, p)
  {
    assert RowSound(guid, w.outbox.rows[guid], w.outbox, w.acked, sha);
    if e.Acknowledging? { AckMovesRow(w, e.guid, e.digest, e.unlinked, sha, guid); }
  }

  lemma StepMoves(w: World, e: Event, sha: seq<byte> -> nat)
    requires Sound(w, sha)
    ensures Moves(w.outbox, Step(w, e, sha).outbox)
  {
    var p := Step(w, e, sha).outbox;
    forall guid <- w.outbox.rows ensures guid in p.rows && Later(w.outbox.rows[guid], p.rows[guid]) && Kept(guid, w.outbox, p) {
      StepMovesRow(w, e, sha, guid);
    }
  }

  lemma RowStays(guid: nat, w: World, after: World, sha: seq<byte> -> nat)
    requires guid in w.outbox.rows && RowSound(guid, w.outbox.rows[guid], w.outbox, w.acked, sha)
    requires guid in after.outbox.rows && after.outbox.rows[guid].(hidden := true) == w.outbox.rows[guid].(hidden := true)
    requires w.acked <= after.acked
    requires w.outbox.rows[guid].state == Completed ==> guid in after.outbox.disk && after.outbox.disk[guid] == w.outbox.disk[guid]
    ensures RowSound(guid, after.outbox.rows[guid], after.outbox, after.acked, sha)
  {
  }

  lemma AckKeepsRow(w: World, other: nat, digest: nat, unlinked: bool, sha: seq<byte> -> nat, guid: nat)
    requires Sound(w, sha) && guid in w.outbox.rows
    ensures var after := Step(w, Acknowledging(other, digest, unlinked), sha);
            guid in after.outbox.rows && RowSound(guid, after.outbox.rows[guid], after.outbox, after.acked, sha)
  {
    var after := Step(w, Acknowledging(other, digest, unlinked), sha);
    assert RowSound(guid, w.outbox.rows[guid], w.outbox, w.acked, sha);
    if guid != other || after.outbox.rows == w.outbox.rows { RowStays(guid, w, after, sha); }
  }

  lemma StepKeepsRow(w: World, e: Event, sha: seq<byte> -> nat, guid: nat)
    requires Sound(w, sha) && guid in Step(w, e, sha).outbox.rows
    ensures var after := Step(w, e, sha); RowSound(guid, after.outbox.rows[guid], after.outbox, after.acked, sha)
  {
    var after := Step(w, e, sha);
    if guid in w.outbox.rows {
      assert RowSound(guid, w.outbox.rows[guid], w.outbox, w.acked, sha);
      match e
      case Acknowledging(other, digest, unlinked) => AckKeepsRow(w, other, digest, unlinked, sha, guid);
      case Recording =>
        if w.outbox.digesting.None? || w.outbox.digesting.value.0 != guid { RowStays(guid, w, after, sha); }
      case Recovering(other, readable) => if other != guid { RowStays(guid, w, after, sha); }
      case Cancelling(other) => if other != guid { RowStays(guid, w, after, sha); }
      case _ => RowStays(guid, w, after, sha);
    }
  }

  lemma StepKeepsSound(w: World, e: Event, sha: seq<byte> -> nat)
    requires Sound(w, sha)
    ensures Sound(Step(w, e, sha), sha)
  {
    var after := Step(w, e, sha);
    forall guid <- after.outbox.rows ensures RowSound(guid, after.outbox.rows[guid], after.outbox, after.acked, sha) {
      StepKeepsRow(w, e, sha, guid);
    }
  }

  lemma MovesTransitive(o: Outbox, p: Outbox, q: Outbox)
    requires Moves(o, p) && Moves(p, q)
    ensures Moves(o, q)
  {
    forall guid <- o.rows ensures guid in q.rows && Later(o.rows[guid], q.rows[guid]) && Kept(guid, o, q) {
      assert Kept(guid, o, p) && Kept(guid, p, q);
    }
  }

  /** Rows only move forward and keep what was recorded, over every run. */
  lemma {:induction false} EveryRunMovesForward(w: World, events: seq<Event>, sha: seq<byte> -> nat)
    requires Sound(w, sha)
    ensures Sound(Steps(w, events, sha), sha) && Moves(w.outbox, Steps(w, events, sha).outbox)
    decreases |events|
  {
    if events == [] {
    } else {
      var next := Step(w, events[0], sha);
      StepKeepsSound(w, events[0], sha);
      StepMoves(w, events[0], sha);
      EveryRunMovesForward(next, events[1..], sha);
      MovesTransitive(w.outbox, next.outbox, Steps(w, events, sha).outbox);
    }
  }

  /** A completed download keeps exactly its bytes, through crashes between the two halves of an acknowledgement and through
      recovery, unless somebody acknowledged it with its recorded digest. */
  lemma CompletedFilesAwaitTheirAck(events: seq<Event>, later: seq<Event>, sha: seq<byte> -> nat, guid: nat)
    requires var o := Steps(NO_DOWNLOADS, events, sha).outbox; guid in o.rows && o.rows[guid].state == Completed
    ensures var o := Steps(NO_DOWNLOADS, events, sha).outbox;
            var after := Steps(Steps(NO_DOWNLOADS, events, sha), later, sha);
            && guid in o.disk && o.rows[guid].stamp == Some(Measure(o.disk[guid], sha))
            && guid in after.outbox.rows && after.outbox.rows[guid].stamp == o.rows[guid].stamp
            && ((guid, sha(o.disk[guid])) !in after.acked ==>
                  after.outbox.rows[guid].state == Completed && guid in after.outbox.disk && after.outbox.disk[guid] == o.disk[guid])
  {
    var w := Steps(NO_DOWNLOADS, events, sha);
    EveryRunMovesForward(NO_DOWNLOADS, events, sha);
    EveryRunMovesForward(w, later, sha);
    assert RowSound(guid, w.outbox.rows[guid], w.outbox, w.acked, sha);
    var after := Steps(w, later, sha);
    assert Kept(guid, w.outbox, after.outbox);
    assert RowSound(guid, after.outbox.rows[guid], after.outbox, after.acked, sha);
  }

  /** While downloads are hidden, every download that is pending or begins is hidden. */
  predicate AllHidden(o: Outbox) {
    o.hidden && forall guid <- o.rows :: o.rows[guid].state == Pending ==> o.rows[guid].hidden
  }

  lemma HidingHidesPending(o: Outbox, assistant: bool)
    ensures AllHidden(Visibility(o, true, assistant))
  {
  }

  lemma StepKeepsHidden(w: World, e: Event, sha: seq<byte> -> nat)
    requires AllHidden(w.outbox) && (e.Showing? ==> e.hidden)
    ensures AllHidden(Step(w, e, sha).outbox)
  {
  }

  lemma {:induction false} HiddenWhilePending(w: World, hiding: seq<Event>, later: seq<Event>, sha: seq<byte> -> nat, guid: nat)
    requires Sound(w, sha) && AllHidden(w.outbox) && forall e <- hiding :: e.Showing? ==> e.hidden
    requires var o := Steps(w, hiding, sha).outbox; guid in o.rows && o.rows[guid].state == Pending
    ensures var o := Steps(Steps(w, hiding, sha), later, sha).outbox; guid in o.rows && o.rows[guid].hidden
    decreases |hiding|
  {
    if hiding == [] {
      EveryRunMovesForward(w, later, sha);
    } else {
      StepKeepsHidden(w, hiding[0], sha);
      StepKeepsSound(w, hiding[0], sha);
      HiddenWhilePending(Step(w, hiding[0], sha), hiding[1..], later, sha, guid);
    }
  }

  /** From the moment the owner hides, a download that was pending then or begins before the owner shows again is hidden,
      and stays hidden whatever is shown later. */
  lemma HiddenDownloadsStayHidden(events: seq<Event>, assistant: bool, hiding: seq<Event>, later: seq<Event>,
                                  sha: seq<byte> -> nat, guid: nat)
    requires forall e <- hiding :: e.Showing? ==> e.hidden
    requires var w := Step(Steps(NO_DOWNLOADS, events, sha), Showing(true, assistant), sha);
             var o := Steps(w, hiding, sha).outbox;
             guid in o.rows && o.rows[guid].state == Pending
    ensures var w := Step(Steps(NO_DOWNLOADS, events, sha), Showing(true, assistant), sha);
            var o := Steps(Steps(w, hiding, sha), later, sha).outbox;
            guid in o.rows && o.rows[guid].hidden
  {
    var before := Steps(NO_DOWNLOADS, events, sha);
    EveryRunMovesForward(NO_DOWNLOADS, events, sha);
    StepKeepsSound(before, Showing(true, assistant), sha);
    HidingHidesPending(before.outbox, assistant);
    HiddenWhilePending(Step(before, Showing(true, assistant), sha), hiding, later, sha, guid);
  }
}
