/** What one input, one poll, one reattachment and one ending of an owner terminal do, from request to answer. */
module TerminalRounds {
  import opened Wrappers
  import opened Bytes
  import opened TerminalModel
  import opened TerminalProofs
  import OwnerTerminals

  /** An input is let in exactly if it names the current binding and the next sequence, is of one to 65536 decoded bytes,
      and the shell is open; then it holds the shell's lock. Otherwise it is told the first of these that fails, and
      nothing but the time the owner was last seen has changed; a request of another binding does not even change that. */
  lemma InputsAreLetInInOrder(w: World, binding: Binding, sequence: nat, data: Option<seq<byte>>, expiry: int, now: int)
    requires Sound(w) && w.t.lock == Free
    ensures var v := Step(w, Checking(binding, sequence, data, expiry, now));
            var seen := w.t.(expiry := expiry, lastSeen := now);
            var next := sequence == w.t.lastSequence + 1;
            var sized := data.Some? && 1 <= |data.value| <= 65536;
            && v == w.(t := v.t)
            && CheckInput(w.t, binding, sequence, data, expiry, now)
               == (v.t, if w.t.binding != binding then Failure(BindingChanged) else if !next then Failure(OutOfOrder)
                        else if !sized then Failure(InvalidRequest) else if w.t.state != Open then Failure(TerminalClosed)
                        else Success(()))
            && v.t == (if w.t.binding != binding then w.t
                       else if next && sized && w.t.state == Open then seen.(lock := Checked(sequence, data.value)) else seen)
  {
  }

  /** An input that was let in is written to the shell exactly once, with its own bytes and under the current epoch; its
      sequence is used up, and counts as written only if the write was confirmed. Under maintenance it is given up, as if
      it never came. */
  lemma InputsLetInAreWritten(w: World, written: bool)
    requires Sound(w) && w.t.lock.Checked?
    ensures Step(w, Starting(true)) == w.(t := w.t.(lock := Free))
    ensures var started := Step(w, Starting(false));
            && started.t.lastSequence == w.t.lock.sequence && started.t.lastOutcome == Uncertain
            && Sound(started)
            && Step(started, Ending(written))
               == w.(t := w.t.(lastSequence := w.t.lock.sequence, lastOutcome := if written then Written else Uncertain, lock := Free),
                     writes := w.writes + [Write(w.t.lock.sequence, w.t.binding.epoch, w.t.lock.data)])
  {
    StepKeepsSound(w, Starting(false));
  }

  /** A poll of the current binding, from a cursor the output has reached, waits; any other is refused. */
  lemma PollsWait(w: World, client: nat, binding: Binding, expiry: int, now: int)
    requires Sound(w) && w.t.lock == Free && client in w.readers && w.readers[client].pending.None?
    ensures var v, r := Step(w, Asking(client, binding, expiry, now)), w.readers[client];
            && v == w.(t := if binding == w.t.binding then w.t.(expiry := expiry, lastSeen := now) else w.t, readers := v.readers)
            && v.readers == w.readers[client := r.(pending :=
                 if binding == w.t.binding && r.next <= |w.output| then Some(Ticket(binding, r.next, expiry)) else None)]
  {
  }

  lemma AnswersAreOutput(t: Terminal, output: seq<byte>, ticket: Ticket, now: int)
    requires RingSound(t, output) && ticket.cursor <= |output|
    ensures var from := Max(ticket.cursor, |output| - |t.ring|);
            var to := Min(from + 65536, |output|);
            && 0 <= from <= to <= |output|
            && Answer(t, ticket, now)
               == if ticket.binding != t.binding then Failure(BindingChanged) else if ticket.expiry <= now then Failure(AuthenticationRequired)
                  else Success(Piece(t.binding.epoch, ticket.cursor, output[from..to], to, from != ticket.cursor))
  {
    RingIsKept(t, output);
    OwnerTerminals.SuffixSlice(output, t.ring, ticket.cursor, CHUNK_BYTES);
  }

  lemma AnswersAreTold(w: World, client: nat, now: int)
    requires Sound(w) && w.t.lock == Free && client in w.readers && w.readers[client].pending.Some?
    ensures w.readers[client].pending.value.cursor <= |w.output| && |w.t.ring| <= |w.output| && w.t.cursor == |w.output|
    ensures Step(w, Answering(client, now))
            == w.(readers := w.readers[client := Told(w.readers[client], Answer(w.t, w.readers[client].pending.value, now))])
  {
    assert ReaderSound(w.readers[client], w.output);
    RingIsKept(w.t, w.output);
  }

  /** Its answer is the output from its cursor on, or from the oldest byte still kept, up to 65536 bytes, and a gap is
      flagged. If the terminal was attached anew or the poll has expired, it gets nothing. */
  lemma PollsAnswerWhatIsThere(w: World, client: nat, now: int)
    requires Sound(w) && w.t.lock == Free && client in w.readers && w.readers[client].pending.Some?
    ensures var ticket := w.readers[client].pending.value;
            var from := Max(ticket.cursor, |w.output| - |w.t.ring|);
            var to := Min(from + 65536, |w.output|);
            && 0 <= from <= to <= |w.output|
            && Step(w, Answering(client, now)) == w.(readers := w.readers[client := Told(w.readers[client],
                 if ticket.binding != w.t.binding then Failure(BindingChanged)
                 else if ticket.expiry <= now then Failure(AuthenticationRequired)
                 else Success(Piece(w.t.binding.epoch, ticket.cursor, w.output[from..to], to, from != ticket.cursor)))])
  {
    AnswersAreTold(w, client, now);
    AnswersAreOutput(w.t, w.output, w.readers[client].pending.value, now);
  }

  /** A client that got an answer asks next from behind it. */
  lemma ClientsGoOn(r: Reader, p: Piece, refusal: Rejection)
    ensures Told(r, Success(p)) == Reader(r.base, p.next, None, r.pieces + [p])
    ensures Told(r, Failure(refusal)) == Reader(r.base, r.next, None, r.pieces)
  {
  }

  /** An open by the same request and owner goes on under the same epoch; any other is a new epoch. Output, ledger and
      state stay. */
  lemma AttachmentsOpenEpochs(w: World, owner: nat, requestId: nat, expiry: int, now: int)
    requires Sound(w) && w.t.lock == Free
    ensures var same := w.t.requestId == requestId && w.t.binding.owner == owner;
            Step(w, Attaching(owner, requestId, expiry, now))
            == w.(t := w.t.(binding := w.t.binding.(owner := owner, epoch := w.t.binding.epoch + if same then 0 else 1),
                            requestId := requestId, expiry := expiry, lastSeen := now))
  {
  }

  /** A shell ends exactly at the earlier of the owner's authentication and ten minutes without the owner, by a close of
      its current binding, or by teardown; its output is kept until its processes are gone. An ended shell prints nothing
      more. */
  lemma ShellsEnd(w: World, binding: Binding, expiry: int, now: int, cleaned: bool)
    requires Sound(w) && w.t.lock == Free
    ensures var ended := (t: Terminal) => if t.state == Closed then t else t.(state := Closed, ring := if cleaned then [] else t.ring);
            && Step(w, Finishing(cleaned)) == w.(t := ended(w.t))
            && Step(w, Expiring(now, cleaned)) == (if w.t.expiry <= now || w.t.lastSeen + 600 <= now then w.(t := ended(w.t)) else w)
            && Step(w, Closing(binding, expiry, now, cleaned))
               == (if binding == w.t.binding then w.(t := ended(w.t.(expiry := expiry, lastSeen := now))) else w)
  {
  }

  /** What an open shell prints is kept and counted; its end of output closes it for input. */
  lemma OutputIsKept(w: World, data: Option<seq<byte>>)
    requires Sound(w)
    ensures var v := Step(w, Reading(data));
            && (w.t.state != Open ==> v.t == w.t && v.output == w.output)
            && (w.t.state == Open && data.None? ==> v.t == w.t.(state := Exited) && v.output == w.output)
            && (w.t.state == Open && data.Some? ==>
                  && v.output == w.output + data.value && v.t == w.t.(ring := v.t.ring, cursor := |v.output|)
                  && |v.t.ring| == Min(|v.output|, 1_048_576) && v.t.ring == v.output[|v.output| - |v.t.ring|..])
            && v.writes == w.writes && v.readers == w.readers
  {
    ReadingKeepsSound(w, data);
    RingIsKept(Step(w, Reading(data)).t, Step(w, Reading(data)).output);
  }
}
