/** Collecting downloads while the outbox goes on: chunks read at different moments, and crashes of either side between
    reading, committing to the library, acknowledging and removing. */
module DownloadCollection {
  import opened Wrappers
  import opened Bytes
  import opened DownloadModel
  import DownloadProofs

  // ---------------------------------------------------------------- chunks read at different moments

  /** Reads the next chunk after each of the given stretches of outbox events; None as soon as one read is refused or its
      answer does not repeat the listed size and digest. */
  function Gather(w: DownloadProofs.World, gaps: seq<seq<DownloadProofs.Event>>, guid: nat, stamp: Stamp, data: seq<byte>,
                  sha: seq<byte> -> nat): Option<seq<byte>>
    decreases |gaps|
  {
    if gaps == [] then Some(data)
    else
      var later := DownloadProofs.Steps(w, gaps[0], sha);
      var next := Extended(data, Read(later.outbox, guid, |data|), stamp);
      if next.None? then None else Gather(later, gaps[1..], guid, stamp, next.value, sha)
  }

  function Extended(data: seq<byte>, answer: Result<Chunk, Rejection>, stamp: Stamp): Option<seq<byte>> {
    if answer.Failure? || answer.value.offset != |data| || answer.value.stamp != stamp then None
    else if !(0 < |answer.value.data| <= Min(CHUNK, stamp.size - |data|)) then None
    else Some(data + answer.value.data)
  }

  /** A download that was completed with these bytes: it still has them, or it was saved. */
  predicate Tied(o: Outbox, guid: nat, file: seq<byte>, sha: seq<byte> -> nat) {
    && guid in o.rows && o.rows[guid].stamp == Some(Measure(file, sha))
    && (o.rows[guid].state == Saved || (o.rows[guid].state == Completed && guid in o.disk && o.disk[guid] == file))
  }

  lemma StaysTied(w: DownloadProofs.World, events: seq<DownloadProofs.Event>, guid: nat, file: seq<byte>, sha: seq<byte> -> nat)
    requires DownloadProofs.Sound(w, sha) && Tied(w.outbox, guid, file, sha)
    ensures var later := DownloadProofs.Steps(w, events, sha); DownloadProofs.Sound(later, sha) && Tied(later.outbox, guid, file, sha)
  {
    DownloadProofs.EveryRunMovesForward(w, events, sha);
    var later := DownloadProofs.Steps(w, events, sha);
    assert DownloadProofs.Later(w.outbox.rows[guid], later.outbox.rows[guid]) && DownloadProofs.Kept(guid, w.outbox, later.outbox);
  }

  lemma ReadExtends(o: Outbox, guid: nat, file: seq<byte>, data: seq<byte>, stamp: Stamp, sha: seq<byte> -> nat)
    requires Tied(o, guid, file, sha) && data <= file
    ensures var next := Extended(data, Read(o, guid, |data|), stamp); next.Some? ==> next.value <= file
  {
    if Extended(data, Read(o, guid, |data|), stamp).Some? {
      assert file[..Min(|data| + CHUNK, |file|)] == file[..|data|] + file[|data|..Min(|data| + CHUNK, |file|)];
    }
  }

  lemma {:induction false} GatheringFollowsTheFile(w: DownloadProofs.World, gaps: seq<seq<DownloadProofs.Event>>, guid: nat,
                                                  stamp: Stamp, data: seq<byte>, sha: seq<byte> -> nat, file: seq<byte>)
    requires DownloadProofs.Sound(w, sha) && Tied(w.outbox, guid, file, sha) && data <= file
    ensures var all := Gather(w, gaps, guid, stamp, data, sha); all.Some? ==> all.value <= file
    decreases |gaps|
  {
    if gaps == [] {
    } else {
      var later := DownloadProofs.Steps(w, gaps[0], sha);
      StaysTied(w, gaps[0], guid, file, sha);
      ReadExtends(later.outbox, guid, file, data, stamp, sha);
      var next := Extended(data, Read(later.outbox, guid, |data|), stamp);
      if next.Some? { GatheringFollowsTheFile(later, gaps[1..], guid, stamp, next.value, sha, file); }
    }
  }

  /** Chunks read at successive moments, with visibility changes, acknowledgements, crashes and recovery in between, are
      consecutive bytes of the file that was listed as complete, and once they have its size they are that file. */
  lemma ReadsAddUp(events: seq<DownloadProofs.Event>, gaps: seq<seq<DownloadProofs.Event>>, guid: nat, sha: seq<byte> -> nat)
    requires var o := DownloadProofs.Steps(DownloadProofs.NO_DOWNLOADS, events, sha).outbox;
             guid in o.rows && o.rows[guid].state == Completed
    ensures var w := DownloadProofs.Steps(DownloadProofs.NO_DOWNLOADS, events, sha);
            && guid in w.outbox.disk && w.outbox.rows[guid].stamp.Some?
            && var stamp, file := w.outbox.rows[guid].stamp.value, w.outbox.disk[guid];
               var all := Gather(w, gaps, guid, stamp, [], sha);
               all.Some? ==> all.value <= file && (|all.value| == stamp.size ==> all.value == file)
  {
    var w := DownloadProofs.Steps(DownloadProofs.NO_DOWNLOADS, events, sha);
    DownloadProofs.EveryRunMovesForward(DownloadProofs.NO_DOWNLOADS, events, sha);
    assert DownloadProofs.RowSound(guid, w.outbox.rows[guid], w.outbox, w.acked, sha);
    GatheringFollowsTheFile(w, gaps, guid, w.outbox.rows[guid].stamp.value, [], sha, w.outbox.disk[guid]);
  }

  // ---------------------------------------------------------------- nothing is lost

  datatype Collector = Idle | Reading(guid: nat, listed: Row, data: seq<byte>) | Committed(guid: nat, digest: nat)

  /** originals remembers the bytes of every download since it was first seen complete. */
  datatype World = World(inner: DownloadProofs.World, library: map<nat, Copy>, collector: Collector, originals: map<nat, seq<byte>>)

  /** The collector is the only one to acknowledge, and does so only after its commit. */
  datatype Event =
    | Outside(e: DownloadProofs.Event)
    | List(guid: nat)
    | ReadNext
    | Commit
    | Acknowledge(unlinked: bool)
    | CollectorFails

  function Core(w: World, e: Event, sha: seq<byte> -> nat): World {
    var o := w.inner.outbox;
    match e
    case Outside(e) => if e.Acknowledging? then w else w.(inner := DownloadProofs.Step(w.inner, e, sha))
    case List(guid) =>
      if w.collector == Idle && guid in o.rows && o.rows[guid].state == Completed && o.rows[guid].stamp.Some?
      then w.(collector := Reading(guid, o.rows[guid], [])) else w
    case ReadNext =>
      if !w.collector.Reading? || w.collector.listed.stamp.None? then w
      else
        var c := w.collector;
        var next := Extended(c.data, Read(o, c.guid, |c.data|), c.listed.stamp.value);
        w.(collector := if next.Some? then c.(data := next.value) else Idle)
    case Commit =>
      if !w.collector.Reading? || w.collector.listed.stamp.None? then w
      else
        var c := w.collector;
        var stamp := c.listed.stamp.value;
        if |c.data| != stamp.size || sha(c.data) != stamp.digest || c.guid !in o.rows || o.rows[c.guid].state != Completed
           || o.rows[c.guid].stamp != Some(stamp) then w.(collector := Idle)
        else w.(library := w.library[c.guid := Copy(c.data, c.listed.hidden || o.rows[c.guid].hidden)],
                collector := Committed(c.guid, stamp.digest))
    case Acknowledge(unlinked) =>
      if !w.collector.Committed? then w
      else w.(inner := DownloadProofs.Step(w.inner, DownloadProofs.Acknowledging(w.collector.guid, w.collector.digest, unlinked), sha),
              collector := Idle)
    case CollectorFails => w.(collector := Idle)
  }

  function Noted(w: World): World {
    var o := w.inner.outbox;
    w.(originals := w.originals + map guid <- o.rows | guid !in w.originals && o.rows[guid].state == Completed && guid in o.disk
                                    :: o.disk[guid])
  }

  function Step(w: World, e: Event, sha: seq<byte> -> nat): World {
    Noted(Core(w, e, sha))
  }

  function Steps(w: World, events: seq<Event>, sha: seq<byte> -> nat): World
    decreases |events|
  {
    if events == [] then w else Steps(Step(w, events[0], sha), events[1..], sha)
  }

  const NOTHING_COLLECTED := World(DownloadProofs.NO_DOWNLOADS, map[], Idle, map[])

  /** The library has exactly these bytes, and hides them if the outbox did. */
  predicate Collected(w: World, guid: nat, file: seq<byte>) {
    && guid in w.library && w.library[guid].data == file
    && (guid in w.inner.outbox.rows && w.inner.outbox.rows[guid].hidden ==> w.library[guid].hidden)
  }

  predicate FileSafe(w: World, guid: nat, file: seq<byte>, sha: seq<byte> -> nat) {
    && Tied(w.inner.outbox, guid, file, sha)
    && (w.inner.outbox.rows[guid].state == Saved ==> Collected(w, guid, file))
    && (guid in w.library ==> Collected(w, guid, file))
  }

  predicate CollectorSound(w: World, sha: seq<byte> -> nat) {
    match w.collector
    case Idle => true
    case Reading(guid, listed, data) =>
      guid in w.originals && listed.stamp == Some(Measure(w.originals[guid], sha)) && data <= w.originals[guid]
    case Committed(guid, digest) => guid in w.originals && guid in w.library
  }

  predicate Lossless(w: World, sha: seq<byte> -> nat) {
    && DownloadProofs.Sound(w.inner, sha) && CollectorSound(w, sha)
    && (forall guid <- w.originals :: FileSafe(w, guid, w.originals[guid], sha))
    && (forall guid <- w.inner.outbox.rows :: w.inner.outbox.rows[guid].state == Saved ==> guid in w.originals)
    && w.library.Keys <= w.originals.Keys
  }

  predicate AllNoted(w: World) {
    forall guid <- w.inner.outbox.rows :: w.inner.outbox.rows[guid].state == Completed ==> guid in w.originals
  }

  /** Visibility changes reach pending downloads only. */
  lemma SettledRowsKeepVisibility(w: DownloadProofs.World, e: DownloadProofs.Event, sha: seq<byte> -> nat, guid: nat)
    requires DownloadProofs.Sound(w, sha) && guid in w.outbox.rows && w.outbox.rows[guid].state != Pending
    ensures var p := DownloadProofs.Step(w, e, sha).outbox; guid in p.rows && p.rows[guid].hidden == w.outbox.rows[guid].hidden
  {
    DownloadProofs.StepMovesRow(w, e, sha, guid);
  }

  /** One outbox step keeps a file safe, unless it is the acknowledgement of a file that was not collected. */
  lemma InnerStepKeepsFile(w: World, e: DownloadProofs.Event, sha: seq<byte> -> nat, guid: nat)
    requires DownloadProofs.Sound(w.inner, sha) && guid in w.originals && FileSafe(w, guid, w.originals[guid], sha)
    requires e.Acknowledging? && e.guid == guid ==> guid in w.library
    ensures FileSafe(w.(inner := DownloadProofs.Step(w.inner, e, sha)), guid, w.originals[guid], sha)
  {
    DownloadProofs.StepMovesRow(w.inner, e, sha, guid);
    SettledRowsKeepVisibility(w.inner, e, sha, guid);
    if w.inner.outbox.rows[guid].state != Saved && !(e.Acknowledging? && e.guid == guid) { OnlyAcksSave(w.inner, e, sha, guid); }
  }

  lemma OnlyAcksSave(w: DownloadProofs.World, e: DownloadProofs.Event, sha: seq<byte> -> nat, guid: nat)
    requires DownloadProofs.Sound(w, sha) && guid in w.outbox.rows && w.outbox.rows[guid].state != Saved
    requires !(e.Acknowledging? && e.guid == guid)
    ensures var p := DownloadProofs.Step(w, e, sha).outbox; guid in p.rows && p.rows[guid].state != Saved
  {
  }

  lemma NotingKeepsLossless(w: World, sha: seq<byte> -> nat)
    requires Lossless(w, sha)
    ensures Lossless(Noted(w), sha) && AllNoted(Noted(w))
  {
    var v, o := Noted(w), w.inner.outbox;
    forall guid <- v.originals ensures FileSafe(v, guid, v.originals[guid], sha) {
      if guid in w.originals {
        assert FileSafe(w, guid, w.originals[guid], sha);
      } else {
        assert DownloadProofs.RowSound(guid, o.rows[guid], o, w.inner.acked, sha);
      }
    }
    forall guid <- o.rows | o.rows[guid].state == Completed ensures guid in v.originals {
      assert DownloadProofs.RowSound(guid, o.rows[guid], o, w.inner.acked, sha);
    }
  }

  lemma InnerStepKeepsLossless(w: World, e: DownloadProofs.Event, sha: seq<byte> -> nat)
    requires Lossless(w, sha) && AllNoted(w) && (e.Acknowledging? ==> e.guid in w.library)
    ensures Lossless(w.(inner := DownloadProofs.Step(w.inner, e, sha)), sha)
  {
    var v := w.(inner := DownloadProofs.Step(w.inner, e, sha));
    DownloadProofs.StepKeepsSound(w.inner, e, sha);
    forall guid <- v.originals ensures FileSafe(v, guid, v.originals[guid], sha) { InnerStepKeepsFile(w, e, sha, guid); }
    forall guid <- v.inner.outbox.rows | v.inner.outbox.rows[guid].state == Saved ensures guid in v.originals {
      SavedWasSettled(w.inner, e, sha, guid);
    }
  }

  lemma SavedWasSettled(w: DownloadProofs.World, e: DownloadProofs.Event, sha: seq<byte> -> nat, guid: nat)
    requires var p := DownloadProofs.Step(w, e, sha).outbox; guid in p.rows && p.rows[guid].state == Saved
    ensures guid in w.outbox.rows && (w.outbox.rows[guid].state == Completed || w.outbox.rows[guid].state == Saved)
  {
  }

  lemma ReadKeepsLossless(w: World, sha: seq<byte> -> nat)
    requires Lossless(w, sha)
    ensures Lossless(Core(w, ReadNext, sha), sha)
  {
    if w.collector.Reading? {
      var c := w.collector;
      assert FileSafe(w, c.guid, w.originals[c.guid], sha);
      ReadExtends(w.inner.outbox, c.guid, w.originals[c.guid], c.data, c.listed.stamp.value, sha);
      SameFiles(w, Core(w, ReadNext, sha), sha);
    }
  }

  lemma SameFiles(w: World, v: World, sha: seq<byte> -> nat)
    requires Lossless(w, sha) && v == w.(collector := v.collector) && CollectorSound(v, sha)
    ensures Lossless(v, sha)
  {
    forall guid <- v.originals ensures FileSafe(v, guid, v.originals[guid], sha) {
      assert FileSafe(w, guid, w.originals[guid], sha);
    }
  }

  lemma CommitKeepsLossless(w: World, sha: seq<byte> -> nat)
    requires Lossless(w, sha)
    ensures Lossless(Core(w, Commit, sha), sha)
  {
    var v := Core(w, Commit, sha);
    if v.library == w.library {
      SameFiles(w, w.(collector := Idle), sha);
      if v.collector.Committed? { SameFiles(w, v, sha); }
    } else {
      assert w.collector.data == w.originals[w.collector.guid];
      forall guid <- v.originals ensures FileSafe(v, guid, v.originals[guid], sha) {
        assert FileSafe(w, guid, w.originals[guid], sha);
      }
    }
  }

  lemma ListKeepsLossless(w: World, guid: nat, sha: seq<byte> -> nat)
    requires Lossless(w, sha) && AllNoted(w)
    ensures Lossless(Core(w, List(guid), sha), sha)
  {
    if guid in w.originals { assert FileSafe(w, guid, w.originals[guid], sha); }
    SameFiles(w, Core(w, List(guid), sha), sha);
  }

  lemma AcknowledgeKeepsLossless(w: World, unlinked: bool, sha: seq<byte> -> nat)
    requires Lossless(w, sha) && AllNoted(w)
    ensures Lossless(Core(w, Acknowledge(unlinked), sha), sha)
  {
    if w.collector.Committed? {
      var ack := DownloadProofs.Acknowledging(w.collector.guid, w.collector.digest, unlinked);
      InnerStepKeepsLossless(w, ack, sha);
      var acked := w.(inner := DownloadProofs.Step(w.inner, ack, sha));
      SameFiles(acked, acked.(collector := Idle), sha);
    }
  }

  lemma CoreKeepsLossless(w: World, e: Event, sha: seq<byte> -> nat)
    requires Lossless(w, sha) && AllNoted(w)
    ensures Lossless(Core(w, e, sha), sha)
  {
    match e
    case Outside(inner) => if !inner.Acknowledging? { InnerStepKeepsLossless(w, inner, sha); }
    case List(guid) => ListKeepsLossless(w, guid, sha);
    case ReadNext => ReadKeepsLossless(w, sha);
    case Commit => CommitKeepsLossless(w, sha);
    case Acknowledge(unlinked) => AcknowledgeKeepsLossless(w, unlinked, sha);
    case CollectorFails => SameFiles(w, w.(collector := Idle), sha);
  }

  lemma {:induction false} EveryRunIsLossless(w: World, events: seq<Event>, sha: seq<byte> -> nat)
    requires Lossless(w, sha) && AllNoted(w)
    ensures Lossless(Steps(w, events, sha), sha) && AllNoted(Steps(w, events, sha))
    decreases |events|
  {
    if events == [] {
    } else {
      CoreKeepsLossless(w, events[0], sha);
      NotingKeepsLossless(Core(w, events[0], sha), sha);
      EveryRunIsLossless(Step(w, events[0], sha), events[1..], sha);
    }
  }

  lemma {:induction false} OriginalsStay(w: World, events: seq<Event>, sha: seq<byte> -> nat, guid: nat)
    requires guid in w.originals
    ensures guid in Steps(w, events, sha).originals && Steps(w, events, sha).originals[guid] == w.originals[guid]
    decreases |events|
  {
    if events == [] {
    } else {
      OriginalsStay(Step(w, events[0], sha), events[1..], sha, guid);
    }
  }

  /** A download that was complete at some moment is, at that and at every later moment, in the outbox with its bytes or
      in the library with its bytes, also between the commit, the acknowledgement and the removal, and whichever side
      crashed; and what the outbox hid the library hides. */
  lemma NothingIsLost(events: seq<Event>, later: seq<Event>, sha: seq<byte> -> nat, guid: nat)
    requires var o := Steps(NOTHING_COLLECTED, events, sha).inner.outbox; guid in o.rows && o.rows[guid].state == Completed
    ensures var o := Steps(NOTHING_COLLECTED, events, sha).inner.outbox;
            var after := Steps(Steps(NOTHING_COLLECTED, events, sha), later, sha);
            && guid in o.disk && guid in after.inner.outbox.rows
            && ((after.inner.outbox.rows[guid].state == Completed && guid in after.inner.outbox.disk
                 && after.inner.outbox.disk[guid] == o.disk[guid])
                || Collected(after, guid, o.disk[guid]))
  {
    var w := Steps(NOTHING_COLLECTED, events, sha);
    EveryRunIsLossless(NOTHING_COLLECTED, events, sha);
    EveryRunIsLossless(w, later, sha);
    assert FileSafe(w, guid, w.originals[guid], sha);
    OriginalsStay(w, later, sha, guid);
    var after := Steps(w, later, sha);
    assert FileSafe(after, guid, after.originals[guid], sha);
  }

  // ---------------------------------------------------------------- and everything can be collected

  function ReadsAhead(w: World, n: nat, sha: seq<byte> -> nat): World
    decreases n
  {
    if n == 0 then w else ReadsAhead(Step(w, ReadNext, sha), n - 1, sha)
  }

  /** The outbox offers this file as complete. */
  predicate Offers(o: Outbox, guid: nat, file: seq<byte>, sha: seq<byte> -> nat) {
    && guid in o.rows && o.rows[guid].state == Completed && o.rows[guid].stamp == Some(Measure(file, sha))
    && guid in o.disk && o.disk[guid] == file
  }

  predicate ReadsFrom(w: World, guid: nat, listed: Row, data: seq<byte>, file: seq<byte>, sha: seq<byte> -> nat) {
    && w.collector == Reading(guid, listed, data) && listed.stamp == Some(Measure(file, sha)) && data <= file
    && Offers(w.inner.outbox, guid, file, sha)
  }

  lemma OneReadAdvances(w: World, guid: nat, listed: Row, data: seq<byte>, file: seq<byte>, sha: seq<byte> -> nat)
    requires ReadsFrom(w, guid, listed, data, file, sha) && |data| < |file|
    ensures var v := Step(w, ReadNext, sha);
            && v.inner == w.inner && v.library == w.library
            && ReadsFrom(v, guid, listed, file[..Min(|data| + 32768, |file|)], file, sha)
  {
    assert file[..Min(|data| + CHUNK, |file|)] == file[..|data|] + file[|data|..Min(|data| + CHUNK, |file|)];
  }

  lemma {:induction false} ReadsReachTheEnd(w: World, guid: nat, listed: Row, data: seq<byte>, file: seq<byte>, sha: seq<byte> -> nat)
    returns (n: nat)
    requires ReadsFrom(w, guid, listed, data, file, sha)
    ensures var v := ReadsAhead(w, n, sha);
            v.inner == w.inner && v.library == w.library && ReadsFrom(v, guid, listed, file, file, sha)
    decreases |file| - |data|
  {
    if |data| == |file| {
      n := 0;
    } else {
      OneReadAdvances(w, guid, listed, data, file, sha);
      var rest := ReadsReachTheEnd(Step(w, ReadNext, sha), guid, listed, file[..Min(|data| + CHUNK, |file|)], file, sha);
      n := rest + 1;
    }
  }

  /** An idle collector can collect every complete download: after enough reads its commit puts exactly the file into the
      library, as hidden as it was, and its acknowledgement then empties the outbox of it. */
  lemma CompleteDownloadsAreCollected(w: World, guid: nat, file: seq<byte>, sha: seq<byte> -> nat) returns (n: nat, committed: World)
    requires w.collector == Idle && Offers(w.inner.outbox, guid, file, sha)
    ensures committed == Step(ReadsAhead(Step(w, List(guid), sha), n, sha), Commit, sha)
    ensures committed.library == w.library[guid := Copy(file, w.inner.outbox.rows[guid].hidden)] && committed.inner == w.inner
    ensures var v := Step(committed, Acknowledge(true), sha);
            && v.collector == Idle && v.library == committed.library
            && guid in v.inner.outbox.rows && v.inner.outbox.rows[guid].state == Saved && guid !in v.inner.outbox.disk
  {
    var listed := Step(w, List(guid), sha);
    n := ReadsReachTheEnd(listed, guid, w.inner.outbox.rows[guid], [], file, sha);
    committed := Step(ReadsAhead(listed, n, sha), Commit, sha);
  }

  /** An answer extends what was read exactly if it is the next chunk, of one to 32768 bytes within the listed size, and repeats the
      listed size and digest. */
  lemma AnswersAreChecked(data: seq<byte>, answer: Result<Chunk, Rejection>, stamp: Stamp)
    ensures Extended(data, answer, stamp)
            == if answer.Success? && answer.value.offset == |data| && answer.value.stamp == stamp
                  && 1 <= |answer.value.data| <= 32768 && |data| + |answer.value.data| <= stamp.size
               then Some(data + answer.value.data) else None
  {
  }

  /** The collector lists only complete downloads, one at a time. It commits exactly if what it read has the listed size and digest and
      the outbox still records the same download as complete, and is hidden if either said so; otherwise it gives up. Nobody else
      acknowledges. */
  lemma CommitsAreChecked(w: World, guid: nat, e: DownloadProofs.Event, sha: seq<byte> -> nat)
    ensures var o := w.inner.outbox;
            var complete := guid in o.rows && o.rows[guid].state == Completed;
            && Core(w, List(guid), sha)
               == (if w.collector == Idle && complete && o.rows[guid].stamp.Some?
                   then w.(collector := Reading(guid, o.rows[guid], [])) else w)
            && (w.collector.Reading? && w.collector.guid == guid && w.collector.listed.stamp.Some? ==>
                  var c, stamp := w.collector, w.collector.listed.stamp.value;
                  Core(w, Commit, sha)
                  == if |c.data| == stamp.size && sha(c.data) == stamp.digest && complete && o.rows[guid].stamp == Some(stamp)
                     then w.(library := w.library[guid := Copy(c.data, c.listed.hidden || o.rows[guid].hidden)],
                             collector := Committed(guid, stamp.digest))
                     else w.(collector := Idle))
            && Core(w, Outside(e), sha) == (if e.Acknowledging? then w else w.(inner := DownloadProofs.Step(w.inner, e, sha)))
            && Core(w, CollectorFails, sha) == w.(collector := Idle)
  {
  }
}
