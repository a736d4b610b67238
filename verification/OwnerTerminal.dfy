/** The shell of an owner terminal as an object; every method is one stretch of code between two awaits. */
module OwnerTerminals {
  import opened Wrappers
  import opened Bytes
  import opened TerminalModel

  class Shell {
    var owner: nat
    const terminalId: nat
    const generation: nat
    var attachEpoch: nat
    var requestId: nat
    var expiry: int
    var lastSeen: int
    var ring: seq<byte>
    var cursor: nat
    var state: State
    var lastSequence: nat
    var lastOutcome: Outcome
    var lock: Lock
    ghost var output: seq<byte>

    ghost function View(): Terminal
      reads this
    {
      Terminal(Binding(owner, terminalId, generation, attachEpoch), requestId, expiry, lastSeen, ring, cursor, state,
               lastSequence, lastOutcome, lock)
    }

    /** The ring is what is left of all output: its last bytes, up to the limit, or nothing once the shell was closed. */
    ghost predicate Valid()
      reads this
    {
      && cursor == |output|
      && (ring == LastBytes(output, RING_BYTES) || (state == Closed && ring == []))
    }

    constructor (owner: nat, terminalId: nat, generation: nat, requestId: nat, expiry: int, now: int)
      ensures Valid() && output == []
      ensures View() == Spawned(Binding(owner, terminalId, generation, 1), requestId, expiry, now)
    {
      this.owner, this.terminalId, this.generation, attachEpoch := owner, terminalId, generation, 1;
      this.requestId, this.expiry, lastSeen := requestId, expiry, now;
      ring, cursor, state, lastSequence, lastOutcome, lock := [], 0, Open, 0, NoInput, Free;
      output := [];
    }

    method Reattach(owner: nat, requestId: nat, expiry: int, now: int)
      requires Valid()
      modifies this
      ensures Valid() && output == old(output)
      ensures View() == TerminalModel.Reattach(old(View()), owner, requestId, expiry, now)
    {
      if this.requestId != requestId || this.owner != owner {
        attachEpoch := attachEpoch + 1;
        this.requestId := requestId;
      }
      this.owner, this.expiry, lastSeen := owner, expiry, now;
    }

    method Drain(data: Option<seq<byte>>)
      requires Valid()
      modifies this
      ensures Valid()
      ensures output == old(output) + (if old(state) == Open && data.Some? then data.value else [])
      ensures View() == TerminalModel.Drain(old(View()), data)
    {
      if state != Open { return; }
      match data
      case None =>
        state := Exited;
      case Some(bytes) =>
        ring := ring + bytes;
        cursor := cursor + |bytes|;
        if |ring| > RING_BYTES {
          ring := ring[|ring| - RING_BYTES..];
        }
        output := output + bytes;
        RingFollowsOutput(old(output), bytes, RING_BYTES);
    }

    method Finish(cleaned: bool)
      requires Valid()
      modifies this
      ensures Valid() && output == old(output)
      ensures View() == TerminalModel.Finish(old(View()), cleaned)
    {
      if state == Closed { return; }
      state := Closed;
      if cleaned { ring := []; }
    }

    method Expire(now: int, cleaned: bool)
      requires Valid()
      modifies this
      ensures Valid() && output == old(output)
      ensures View() == TerminalModel.Expire(old(View()), now, cleaned)
    {
      if now >= Min(expiry, lastSeen + RECONNECT_GRACE) { Finish(cleaned); }
    }

    predicate Bound(binding: Binding)
      reads this
    {
      binding == Binding(owner, terminalId, generation, attachEpoch)
    }

    method Close(binding: Binding, expiry: int, now: int, cleaned: bool) returns (r: Result<(), Rejection>)
      requires Valid()
      modifies this
      ensures Valid() && output == old(output)
      ensures (View(), r) == TerminalModel.Close(old(View()), binding, expiry, now, cleaned)
    {
      if !Bound(binding) { return Failure(BindingChanged); }
      this.expiry, lastSeen := expiry, now;
      Finish(cleaned);
      return Success(());
    }

    method CheckInput(binding: Binding, sequence: nat, data: Option<seq<byte>>, expiry: int, now: int)
      returns (r: Result<(), Rejection>)
      requires Valid() && lock == Free
      modifies this
      ensures Valid() && output == old(output)
      ensures (View(), r) == TerminalModel.CheckInput(old(View()), binding, sequence, data, expiry, now)
    {
      if !Bound(binding) { return Failure(BindingChanged); }
      this.expiry, lastSeen := expiry, now;
      if sequence != lastSequence + 1 { return Failure(OutOfOrder); }
      if data.None? || !(1 <= |data.value| <= CHUNK_BYTES) { return Failure(InvalidRequest); }
      if state != Open { return Failure(TerminalClosed); }
      lock := Checked(sequence, data.value);
      return Success(());
    }

    method StartWrite(held: bool) returns (r: Result<(), Rejection>)
      requires Valid() && lock.Checked?
      modifies this
      ensures Valid() && output == old(output)
      ensures (View(), r) == TerminalModel.StartWrite(old(View()), held)
    {
      if held {
        lock := Free;
        return Failure(MaintenanceHeld);
      }
      lastSequence, lastOutcome, lock := lock.sequence, Uncertain, Writing;
      return Success(());
    }

    method EndWrite(written: bool)
      requires Valid() && lock.Writing?
      modifies this
      ensures Valid() && output == old(output)
      ensures View() == TerminalModel.EndWrite(old(View()), written)
    {
      if written { lastOutcome := Written; }
      lock := Free;
    }

    method Ask(binding: Binding, cursor: nat, expiry: int, now: int) returns (r: Result<Ticket, Rejection>)
      requires Valid()
      modifies this
      ensures Valid() && output == old(output)
      ensures (View(), r) == TerminalModel.Ask(old(View()), binding, cursor, expiry, now)
    {
      if !Bound(binding) { return Failure(BindingChanged); }
      this.expiry, lastSeen := expiry, now;
      if cursor > this.cursor { return Failure(InvalidCursor); }
      return Success(Ticket(binding, cursor, expiry));
    }

    method ReadRing(ticket: Ticket, now: int) returns (r: Result<Piece, Rejection>)
      requires Valid() && ticket.cursor <= cursor
      ensures |ring| <= cursor && r == TerminalModel.Answer(View(), ticket, now)
    {
      LastBytesAreASuffix(output, RING_BYTES);
      if !Bound(ticket.binding) { return Failure(BindingChanged); }
      if now >= ticket.expiry { return Failure(AuthenticationRequired); }
      var oldest := cursor - |ring|;
      var start := Max(ticket.cursor, oldest);
      var left := ring[start - oldest..];
      var data := left[..Min(|left|, CHUNK_BYTES)];
      return Success(Piece(ticket.binding.epoch, ticket.cursor, data, start + |data|, start != ticket.cursor));
    }

    /** The answer in terms of all output: the bytes from the cursor on, or from the oldest one still kept, flagged. */
    method Answer(ticket: Ticket, now: int) returns (r: Result<Piece, Rejection>)
      requires Valid() && ticket.cursor <= cursor
      ensures |ring| <= cursor && r == TerminalModel.Answer(View(), ticket, now)
      ensures r.Success? && state != Closed ==>
                var start := Max(ticket.cursor, |output| - RING_BYTES);
                && r.value.data == output[start..Min(start + CHUNK_BYTES, |output|)]
                && r.value.next == start + |r.value.data|
                && (r.value.truncated <==> |output| - ticket.cursor > RING_BYTES)
    {
      r := ReadRing(ticket, now);
      if state != Closed { AnswerIsExact(View(), output, ticket, now); }
    }
  }

  /** What is taken from a kept suffix, from a cursor on or from its start, is there in the output. */
  lemma SuffixSlice(output: seq<byte>, ring: seq<byte>, cursor: nat, limit: nat)
    requires |ring| <= |output| && ring == output[|output| - |ring|..] && cursor <= |output|
    ensures var oldest := |output| - |ring|;
            var start := Max(cursor, oldest);
            var left := ring[start - oldest..];
            var data := left[..Min(|left|, limit)];
            start + |data| <= |output| && output[start..start + |data|] == data
  {
    var oldest := |output| - |ring|;
    var start := Max(cursor, oldest);
    var data := ring[start - oldest..][..Min(|ring| - (start - oldest), limit)];
    forall k | 0 <= k < |data| ensures data[k] == output[start..start + |data|][k] {
      assert ring[start - oldest + k] == output[start + k];
    }
  }

  lemma LastBytesAreASuffix(output: seq<byte>, limit: nat)
    ensures var ring := LastBytes(output, limit);
            |ring| == Min(|output|, limit) && ring == output[|output| - |ring|..]
  {
  }

  lemma AnswerIsExact(t: Terminal, output: seq<byte>, ticket: Ticket, now: int)
    requires t.cursor == |output| && t.ring == LastBytes(output, RING_BYTES) && ticket.cursor <= |output|
    ensures |t.ring| <= t.cursor
    ensures var r := Answer(t, ticket, now);
            r.Success? ==>
              var start := Max(ticket.cursor, |output| - RING_BYTES);
              && r.value.data == output[start..Min(start + CHUNK_BYTES, |output|)]
              && r.value.next == start + |r.value.data|
              && (r.value.truncated <==> |output| - ticket.cursor > RING_BYTES)
  {
    LastBytesAreASuffix(output, RING_BYTES);
    SuffixSlice(output, t.ring, ticket.cursor, CHUNK_BYTES);
  }

  /** Trimming after every read keeps exactly the last bytes of everything read. */
  lemma RingFollowsOutput(output: seq<byte>, data: seq<byte>, limit: nat)
    ensures LastBytes(LastBytes(output, limit) + data, limit) == LastBytes(output + data, limit)
  {
    var kept := LastBytes(output, limit);
    assert (output + data)[|output| - |kept|..] == kept + data;
  }
}
