/** What a client of an owner terminal receives, over every interleaving of output, polls, inputs and reattachments. */
module TerminalProofs {
  import opened Wrappers
  import opened Bytes
  import opened TerminalModel
  import OwnerTerminals

  datatype Write = Write(sequence: nat, epoch: nat, data: seq<byte>)

  /** A client that always polls with the cursor it was last given. */
  datatype Reader = Reader(base: nat, next: nat, pending: Option<Ticket>, pieces: seq<Piece>)

  /** The shell with the history of its output, of the writes to the pseudo terminal and of every client. */
  datatype World = World(t: Terminal, output: seq<byte>, writes: seq<Write>, readers: map<nat, Reader>)

  datatype Event =
    | Attaching(owner: nat, requestId: nat, expiry: int, now: int)
    | Reading(data: Option<seq<byte>>)
    | Finishing(cleaned: bool)
    | Expiring(now: int, cleaned: bool)
    | Closing(binding: Binding, expiry: int, now: int, cleaned: bool)
    | Checking(binding: Binding, sequence: nat, data: Option<seq<byte>>, expiry: int, now: int)
    | Starting(held: bool)
    | Ending(written: bool)
    | Joining(client: nat, cursor: nat)
    | Asking(client: nat, binding: Binding, expiry: int, now: int)
    | Answering(client: nat, now: int)

  /** Only the output reader runs while an input holds the lock; everything else waits for it. */
  function Step(w: World, e: Event): World
    requires Sound(w)
  {
    match e
    case Reading(data) =>
      World(Drain(w.t, data), w.output + (if w.t.state == Open && data.Some? then data.value else []), w.writes, w.readers)
    case Starting(held) =>
      if !w.t.lock.Checked? then w
      else
        var after := StartWrite(w.t, held).0;
        var sent := if held then [] else [Write(w.t.lock.sequence, w.t.binding.epoch, w.t.lock.data)];
        w.(t := after, writes := w.writes + sent)
    case Ending(written) => if w.t.lock.Writing? then w.(t := EndWrite(w.t, written)) else w
    case Joining(client, cursor) =>
      if client in w.readers then w else w.(readers := w.readers[client := Reader(cursor, cursor, None, [])])
    case _ => if w.t.lock != Free then w else Unlocked(w, e)
  }

  function Unlocked(w: World, e: Event): World
    requires Sound(w) && w.t.lock == Free
  {
    match e
    case Attaching(owner, requestId, expiry, now) => w.(t := Reattach(w.t, owner, requestId, expiry, now))
    case Finishing(cleaned) => w.(t := Finish(w.t, cleaned))
    case Expiring(now, cleaned) => w.(t := Expire(w.t, now, cleaned))
    case Closing(binding, expiry, now, cleaned) => w.(t := Close(w.t, binding, expiry, now, cleaned).0)
    case Checking(binding, sequence, data, expiry, now) => w.(t := CheckInput(w.t, binding, sequence, data, expiry, now).0)
    case Asking(client, binding, expiry, now) =>
      if client !in w.readers || w.readers[client].pending.Some? then w
      else
        var reader := w.readers[client];
        var (after, r) := Ask(w.t, binding, reader.next, expiry, now);
        w.(t := after, readers := w.readers[client := reader.(pending := if r.Success? then Some(r.value) else None)])
    case Answering(client, now) =>
      if client !in w.readers || w.readers[client].pending.None? then w
      else
        assert ReaderSound(w.readers[client], w.output);
        w.(readers := w.readers[client := Told(w.readers[client], Answer(w.t, w.readers[client].pending.value, now))])
    case _ => w
  }

  function Told(reader: Reader, r: Result<Piece, Rejection>): Reader {
    if r.Failure? then reader.(pending := None)
    else reader.(pending := None, next := r.value.next, pieces := reader.pieces + [r.value])
  }

  /** One answer tells the truth about the output: where its bytes are, and whether it skipped any. */
  predicate Fits(p: Piece, output: seq<byte>) {
    && |p.data| <= p.next <= |output|
    && p.asked <= p.next - |p.data|
    && output[p.next - |p.data|..p.next] == p.data
    && (p.truncated <==> p.asked < p.next - |p.data|)
  }

  /** The answers follow each other from base to next without overlap. */
  predicate Chain(pieces: seq<Piece>, base: nat, next: nat, output: seq<byte>) {
    if pieces == [] then next == base
    else
      var last := pieces[|pieces| - 1];
      last.next == next && Fits(last, output) && Chain(pieces[..|pieces| - 1], base, last.asked, output)
  }

  predicate ReaderSound(r: Reader, output: seq<byte>) {
    && Chain(r.pieces, r.base, r.next, output)
    && (r.pending.Some? ==> r.pending.value.cursor == r.next <= |output|)
  }

  predicate WritesSound(t: Terminal, writes: seq<Write>) {
    && |writes| == t.lastSequence
    && (forall k | 0 <= k < |writes| :: writes[k].sequence == k + 1)
    && (t.lock.Checked? ==> t.lock.sequence == t.lastSequence + 1)
    && (t.lock.Writing? ==> t.lastOutcome == Uncertain)
  }

  predicate RingSound(t: Terminal, output: seq<byte>) {
    && t.cursor == |output|
    && (t.ring == LastBytes(output, RING_BYTES) || (t.state == Closed && t.ring == []))
  }

  predicate Sound(w: World) {
    && RingSound(w.t, w.output) && WritesSound(w.t, w.writes)
    && forall client <- w.readers :: ReaderSound(w.readers[client], w.output)
  }

  /** More output leaves every earlier answer true. */
  lemma {:induction false} ChainGrows(pieces: seq<Piece>, base: nat, next: nat, output: seq<byte>, more: seq<byte>)
    requires Chain(pieces, base, next, output)
    ensures Chain(pieces, base, next, output + more)
    decreases |pieces|
  {
    if pieces == [] {
    } else {
      var last := pieces[|pieces| - 1];
      assert (output + more)[last.next - |last.data|..last.next] == output[last.next - |last.data|..last.next];
      ChainGrows(pieces[..|pieces| - 1], base, last.asked, output, more);
    }
  }

  lemma RingIsKept(t: Terminal, output: seq<byte>)
    requires RingSound(t, output)
    ensures |t.ring| <= |output| && t.ring == output[|output| - |t.ring|..]
  {
  }

  /** The answer to a poll, in terms of all output. */
  lemma AnswerFits(t: Terminal, output: seq<byte>, ticket: Ticket, now: int)
    requires RingSound(t, output) && ticket.cursor <= |output|
    ensures Answer(t, ticket, now).Success? ==>
              var p := Answer(t, ticket, now).value;
              Fits(p, output) && p.asked == ticket.cursor && p.epoch == t.binding.epoch
  {
    RingIsKept(t, output);
    OwnerTerminals.SuffixSlice(output, t.ring, ticket.cursor, CHUNK_BYTES);
  }

  lemma ReadingKeepsSound(w: World, data: Option<seq<byte>>)
    requires Sound(w)
    ensures Sound(Step(w, Reading(data)))
  {
    if w.t.state == Open && data.Some? {
      OwnerTerminals.RingFollowsOutput(w.output, data.value, RING_BYTES);
      forall client <- w.readers ensures ReaderSound(w.readers[client], w.output + data.value) {
        ChainGrows(w.readers[client].pieces, w.readers[client].base, w.readers[client].next, w.output, data.value);
      }
    } else {
      assert w.output + [] == w.output;
    }
  }

  lemma AnsweringKeepsSound(w: World, client: nat, now: int)
    requires Sound(w) && w.t.lock == Free
    ensures Sound(Unlocked(w, Answering(client, now)))
  {
    if client in w.readers && w.readers[client].pending.Some? {
      var reader := w.readers[client];
      assert ReaderSound(reader, w.output);
      AnswerFits(w.t, w.output, reader.pending.value, now);
      var r := Answer(w.t, reader.pending.value, now);
      if r.Success? {
        assert (reader.pieces + [r.value])[..|reader.pieces|] == reader.pieces;
      }
    }
  }

  lemma StepKeepsSound(w: World, e: Event)
    requires Sound(w)
    ensures Sound(Step(w, e))
  {
    match e
    case Reading(data) => ReadingKeepsSound(w, data);
    case Answering(client, now) => if w.t.lock == Free { AnsweringKeepsSound(w, client, now); }
    case Asking(client, binding, expiry, now) =>
    case _ =>
  }

  function Steps(w: World, events: seq<Event>): (r: World)
    requires Sound(w)
    ensures Sound(r)
    decreases |events|
  {
    if events == [] then w
    else
      StepKeepsSound(w, events[0]);
      Steps(Step(w, events[0]), events[1..])
  }

  function NewTerminal(binding: Binding, requestId: nat, expiry: int, now: int): World {
    World(Spawned(binding, requestId, expiry, now), [], [], map[])
  }

  /** What a client saw, with every skipped stretch filled in from the output. */
  ghost function Patched(pieces: seq<Piece>, output: seq<byte>): seq<byte>
    requires forall p <- pieces :: Fits(p, output)
  {
    if pieces == [] then []
    else
      var last := pieces[|pieces| - 1];
      assert last in pieces && Fits(last, output);
      Patched(pieces[..|pieces| - 1], output) + output[last.asked..last.next - |last.data|] + last.data
  }

  function Received(pieces: seq<Piece>): seq<byte> {
    if pieces == [] then [] else Received(pieces[..|pieces| - 1]) + pieces[|pieces| - 1].data
  }

  lemma {:induction false} ChainFits(pieces: seq<Piece>, base: nat, next: nat, output: seq<byte>)
    requires Chain(pieces, base, next, output)
    ensures base <= next && (pieces != [] ==> next <= |output|)
    ensures forall p <- pieces :: Fits(p, output)
    decreases |pieces|
  {
    if pieces == [] {
    } else {
      var last, front := pieces[|pieces| - 1], pieces[..|pieces| - 1];
      ChainFits(front, base, last.asked, output);
      forall p <- pieces ensures Fits(p, output) {
        if p != last { assert p in front; }
      }
    }
  }

  lemma {:induction false} ChainPatches(pieces: seq<Piece>, base: nat, next: nat, output: seq<byte>)
    requires Chain(pieces, base, next, output) && pieces != []
    requires base <= next <= |output| && forall p <- pieces :: Fits(p, output)
    ensures Patched(pieces, output) == output[base..next]
    decreases |pieces|
  {
    var last, front := pieces[|pieces| - 1], pieces[..|pieces| - 1];
    var start := last.next - |last.data|;
    ChainFits(front, base, last.asked, output);
    assert output[base..next] == output[base..last.asked] + output[last.asked..start] + output[start..next];
    if front == [] {
      assert output[base..last.asked] == [];
    } else {
      ChainPatches(front, base, last.asked, output);
    }
  }

  predicate Gapless(pieces: seq<Piece>) {
    forall p <- pieces :: !p.truncated
  }

  lemma {:induction false} ChainReceives(pieces: seq<Piece>, base: nat, next: nat, output: seq<byte>)
    requires Chain(pieces, base, next, output)
    ensures |Received(pieces)| <= next - base
    ensures Gapless(pieces) <==> |Received(pieces)| == next - base
    ensures Gapless(pieces) && base <= next <= |output| ==> Received(pieces) == output[base..next]
    decreases |pieces|
  {
    if pieces == [] {
    } else {
      var last, front := pieces[|pieces| - 1], pieces[..|pieces| - 1];
      var start := last.next - |last.data|;
      ChainFits(front, base, last.asked, output);
      ChainReceives(front, base, last.asked, output);
      assert pieces == front + [last];
      assert Gapless(pieces) <==> Gapless(front) && !last.truncated;
      if Gapless(pieces) && base <= next <= |output| {
        assert start == last.asked && output[base..next] == output[base..start] + output[start..next];
      }
    }
  }

  /** In every run, the answers to a client are consecutive stretches of the real output, in order; filling exactly the
      flagged gaps gives back the output between its first and its next cursor; and the bytes received are all of it if
      and only if no answer was flagged. */
  lemma ClientsReceiveTheOutput(binding: Binding, requestId: nat, expiry: int, now: int, events: seq<Event>, client: nat)
    requires client in Steps(NewTerminal(binding, requestId, expiry, now), events).readers
    ensures var w := Steps(NewTerminal(binding, requestId, expiry, now), events);
            var r := w.readers[client];
            && (forall p <- r.pieces :: Fits(p, w.output))
            && (r.pieces != [] ==> r.base <= r.next <= |w.output| && Patched(r.pieces, w.output) == w.output[r.base..r.next])
            && (r.pieces != [] ==> (Received(r.pieces) == w.output[r.base..r.next] <==> Gapless(r.pieces)))
  {
    var w := Steps(NewTerminal(binding, requestId, expiry, now), events);
    var r := w.readers[client];
    ChainFits(r.pieces, r.base, r.next, w.output);
    if r.pieces != [] {
      ChainPatches(r.pieces, r.base, r.next, w.output);
      ChainReceives(r.pieces, r.base, r.next, w.output);
    }
  }

  /** The ring is the suffix of everything the shell printed, never longer than its limit, until the shell is closed. */
  lemma RingIsASuffix(binding: Binding, requestId: nat, expiry: int, now: int, events: seq<Event>)
    ensures var w := Steps(NewTerminal(binding, requestId, expiry, now), events);
            && |w.t.ring| <= RING_BYTES && |w.t.ring| <= |w.output|
            && w.t.ring == w.output[|w.output| - |w.t.ring|..]
            && (w.t.state != Closed ==> |w.t.ring| == Min(|w.output|, RING_BYTES))
  {
    var w := Steps(NewTerminal(binding, requestId, expiry, now), events);
    assert Sound(w);
  }

  /** Every sequence number is written at most once, and they are used in order from 1. */
  lemma InputsAreWrittenOnce(binding: Binding, requestId: nat, expiry: int, now: int, events: seq<Event>, i: nat, j: nat)
    requires var w := Steps(NewTerminal(binding, requestId, expiry, now), events); i < |w.writes| && j < |w.writes|
    ensures var w := Steps(NewTerminal(binding, requestId, expiry, now), events);
            && w.writes[i].sequence == i + 1 <= w.t.lastSequence
            && (w.writes[i].sequence == w.writes[j].sequence ==> i == j)
  {
    assert Sound(Steps(NewTerminal(binding, requestId, expiry, now), events));
  }

  /** Once the epoch has moved past a request's, that request gets neither an answer nor a write any more. */
  predicate Fenced(w: World, epoch: nat, writes: nat, client: nat, pieces: nat) {
    && w.t.binding.epoch > epoch && writes <= |w.writes| && client in w.readers && pieces <= |w.readers[client].pieces|
    && (forall k | writes <= k < |w.writes| :: w.writes[k].epoch > epoch)
    && (forall k | pieces <= k < |w.readers[client].pieces| :: w.readers[client].pieces[k].epoch > epoch)
  }

  lemma AnsweringKeepsFence(w: World, c: nat, now: int, epoch: nat, writes: nat, client: nat, pieces: nat)
    requires Sound(w) && Fenced(w, epoch, writes, client, pieces) && w.t.lock == Free
    ensures Fenced(Unlocked(w, Answering(c, now)), epoch, writes, client, pieces)
  {
    if c in w.readers && w.readers[c].pending.Some? {
      assert ReaderSound(w.readers[c], w.output);
      AnswerFits(w.t, w.output, w.readers[c].pending.value, now);
    }
  }

  lemma StepKeepsFence(w: World, e: Event, epoch: nat, writes: nat, client: nat, pieces: nat)
    requires Sound(w) && Fenced(w, epoch, writes, client, pieces)
    ensures Fenced(Step(w, e), epoch, writes, client, pieces)
  {
    if e.Answering? && w.t.lock == Free { AnsweringKeepsFence(w, e.client, e.now, epoch, writes, client, pieces); }
  }

  lemma {:induction false} FenceStays(w: World, events: seq<Event>, epoch: nat, writes: nat, client: nat, pieces: nat)
    requires Sound(w) && Fenced(w, epoch, writes, client, pieces)
    ensures Fenced(Steps(w, events), epoch, writes, client, pieces)
    decreases |events|
  {
    if events == [] {
    } else {
      StepKeepsFence(w, events[0], epoch, writes, client, pieces);
      StepKeepsSound(w, events[0]);
      FenceStays(Step(w, events[0]), events[1..], epoch, writes, client, pieces);
    }
  }

  /** An open by another request or owner fences every poll and every input of the epochs before it, also those already
      waiting: whatever happens later, no answer and no write belongs to them. */
  lemma ReattachmentFencesOldEpochs(w: World, owner: nat, requestId: nat, expiry: int, now: int, events: seq<Event>, client: nat)
    requires Sound(w) && w.t.lock == Free && client in w.readers
    requires w.t.requestId != requestId || w.t.binding.owner != owner
    ensures Sound(Step(w, Attaching(owner, requestId, expiry, now)))
    ensures Fenced(Steps(Step(w, Attaching(owner, requestId, expiry, now)), events), w.t.binding.epoch, |w.writes|, client,
                   |w.readers[client].pieces|)
  {
    StepKeepsSound(w, Attaching(owner, requestId, expiry, now));
    FenceStays(Step(w, Attaching(owner, requestId, expiry, now)), events, w.t.binding.epoch, |w.writes|, client,
               |w.readers[client].pieces|);
  }
}
