/** One owner terminal shell: its output ring, its input ledger and the polls that read it. Each function is one stretch
    of code between two awaits. */
module TerminalModel {
  import opened Wrappers
  import opened Bytes

  const RING_BYTES := 1_048_576
  const CHUNK_BYTES := 65_536
  const RECONNECT_GRACE := 600

  datatype State = Open | Exited | Closed

  datatype Outcome = NoInput | Uncertain | Written

  /** What a request must name to act on a shell. */
  datatype Binding = Binding(owner: nat, terminalId: nat, generation: nat, epoch: nat)

  datatype Rejection =
    | BindingChanged | InvalidCursor | OutOfOrder | InvalidRequest | TerminalClosed | AuthenticationRequired | MaintenanceHeld

  /** An input request holds the shell's lock from its first check until its write was answered; one that is cancelled in
      between gives it back like a refused or an unconfirmed one. */
  datatype Lock = Free | Checked(sequence: nat, data: seq<byte>) | Writing

  datatype Terminal = Terminal(binding: Binding, requestId: nat, expiry: int, lastSeen: int, ring: seq<byte>, cursor: nat,
                               state: State, lastSequence: nat, lastOutcome: Outcome, lock: Lock)

  /** A poll that waits for output. */
  datatype Ticket = Ticket(binding: Binding, cursor: nat, expiry: int)

  /** The answer to a poll that asked from a cursor. */
  datatype Piece = Piece(epoch: nat, asked: nat, data: seq<byte>, next: nat, truncated: bool)

  function LastBytes(s: seq<byte>, limit: nat): seq<byte> {
    if |s| > limit then s[|s| - limit..] else s
  }

  function Spawned(binding: Binding, requestId: nat, expiry: int, now: int): Terminal {
    Terminal(binding.(epoch := 1), requestId, expiry, now, [], 0, Open, 0, NoInput, Free)
  }

  /** A repeated open of the same request changes nothing a poll could notice; any other open is a new attachment. */
  function Reattach(t: Terminal, owner: nat, requestId: nat, expiry: int, now: int): Terminal {
    var epoch := if t.requestId != requestId || t.binding.owner != owner then t.binding.epoch + 1 else t.binding.epoch;
    t.(binding := t.binding.(owner := owner, epoch := epoch), requestId := requestId, expiry := expiry, lastSeen := now)
  }

  /** One read from the pseudo terminal; None is its end. */
  function Drain(t: Terminal, data: Option<seq<byte>>): Terminal {
    if t.state != Open then t
    else if data.None? then t.(state := Exited)
    else t.(ring := LastBytes(t.ring + data.value, RING_BYTES), cursor := t.cursor + |data.value|)
  }

  /** The ring is cleared once the shell's processes are cleaned up; a cleanup that fails or is cancelled leaves it. */
  function Finish(t: Terminal, cleaned: bool): Terminal {
    if t.state == Closed then t else t.(state := Closed, ring := if cleaned then [] else t.ring)
  }

  function Expire(t: Terminal, now: int, cleaned: bool): Terminal {
    if now >= Min(t.expiry, t.lastSeen + RECONNECT_GRACE) then Finish(t, cleaned) else t
  }

  function Seen(t: Terminal, expiry: int, now: int): Terminal {
    t.(expiry := expiry, lastSeen := now)
  }

  function Close(t: Terminal, binding: Binding, expiry: int, now: int, cleaned: bool): (Terminal, Result<(), Rejection>) {
    if t.binding != binding then (t, Failure(BindingChanged)) else (Finish(Seen(t, expiry, now), cleaned), Success(()))
  }

  /** The checks before an input may be written; data is None when it could not be decoded. */
  function CheckInput(t: Terminal, binding: Binding, sequence: nat, data: Option<seq<byte>>, expiry: int, now: int)
    : (Terminal, Result<(), Rejection>)
  {
    if t.binding != binding then (t, Failure(BindingChanged))
    else
      var seen := Seen(t, expiry, now);
      if sequence != t.lastSequence + 1 then (seen, Failure(OutOfOrder))
      else if data.None? || !(1 <= |data.value| <= CHUNK_BYTES) then (seen, Failure(InvalidRequest))
      else if t.state != Open then (seen, Failure(TerminalClosed))
      else (seen.(lock := Checked(sequence, data.value)), Success(()))
  }

  /** The sequence is used up, with an unknown outcome, before the first byte is written. */
  function StartWrite(t: Terminal, held: bool): (Terminal, Result<(), Rejection>)
    requires t.lock.Checked?
  {
    if held then (t.(lock := Free), Failure(MaintenanceHeld))
    else (t.(lastSequence := t.lock.sequence, lastOutcome := Uncertain, lock := Writing), Success(()))
  }

  function EndWrite(t: Terminal, written: bool): Terminal
    requires t.lock.Writing?
  {
    t.(lastOutcome := if written then Written else t.lastOutcome, lock := Free)
  }

  function Ask(t: Terminal, binding: Binding, cursor: nat, expiry: int, now: int): (Terminal, Result<Ticket, Rejection>) {
    if t.binding != binding then (t, Failure(BindingChanged))
    else if cursor > t.cursor then (Seen(t, expiry, now), Failure(InvalidCursor))
    else (Seen(t, expiry, now), Success(Ticket(binding, cursor, expiry)))
  }

  /** A reattachment or an expiry while the poll waited fences its answer. */
  function Answer(t: Terminal, ticket: Ticket, now: int): Result<Piece, Rejection>
    requires ticket.cursor <= t.cursor && |t.ring| <= t.cursor
  {
    if t.binding != ticket.binding then Failure(BindingChanged)
    else if now >= ticket.expiry then Failure(AuthenticationRequired)
    else
      var oldest := t.cursor - |t.ring|;
      var start := Max(ticket.cursor, oldest);
      var left := t.ring[start - oldest..];
      var data := left[..Min(|left|, CHUNK_BYTES)];
      Success(Piece(ticket.binding.epoch, ticket.cursor, data, start + |data|, start != ticket.cursor))
  }
}
