/** The channel object: its methods take the steps of NativeChannelModel on the object's own fields, and frame the
    byte stream of the socket into lines. */
module NativeControlChannels {
  import opened Bytes
  import opened Wrappers
  import opened NativeChannelModel

  const NEWLINE: byte := 10

  datatype LineResult = Line(line: seq<byte>) | ConnectionLost | ResponseTooLarge

  /** The poison path's loop over pending commands. */
  method ResolvePending(before: map<Id, seq<Resolution>>, pending: map<Id, Job>, current: Option<Id>, completed: bool)
    returns (futures: map<Id, seq<Resolution>>)
    requires pending.Keys <= before.Keys
    ensures futures == PoisonFutures(before, pending, current, completed)
  {
    futures := before;
    var todo := pending.Keys;
    while todo != {}
      invariant todo <= pending.Keys && futures.Keys == before.Keys
      invariant forall i | i in before :: i in todo ==> futures[i] == before[i]
      invariant forall i | i in before :: i !in todo ==> futures[i] == PoisonFutures(before, pending, current, completed)[i]
      decreases |todo|
    {
      var id :| id in todo;
      todo := todo - {id};
      if futures[id] == [] {
        var job := pending[id];
        var done := current == Some(job.id) && completed;
        var outcome := if job.kind == HumanJob then Resolved(HumanAck(job.id, done, false)) else Raised(done);
        futures := futures[id := [outcome]];
      }
    }
  }

  method FindNewline(buffer: seq<byte>) returns (cut: nat)
    requires NEWLINE in buffer
    ensures cut < |buffer| && buffer[cut] == NEWLINE && NEWLINE !in buffer[..cut]
  {
    cut := 0;
    while buffer[cut] != NEWLINE
      invariant cut < |buffer| && NEWLINE !in buffer[..cut] && NEWLINE in buffer[cut..]
      decreases |buffer| - cut
    {
      assert buffer[cut..] == [buffer[cut]] + buffer[cut + 1..];
      cut := cut + 1;
    }
  }

  class NativeControlChannel {
    const maxFrame: nat
    var closed: bool
    var queue: seq<Option<Job>>
    var pending: map<Id, Job>
    var seen: map<Id, Job>
    var lastCompleted: Option<Id>
    var worker: Worker
    var futures: map<Id, seq<Resolution>>
    var buffer: seq<byte>
    var wire: seq<Frame>  // everything sent and answered on the socket

    ghost function View(): Channel
      reads this
    {
      Channel(closed, queue, pending, seen, lastCompleted, worker, futures, wire)
    }

    constructor (maxFrame: nat)
      requires maxFrame >= 256
      ensures View() == NEW_CHANNEL && buffer == [] && this.maxFrame == maxFrame
    {
      this.maxFrame := maxFrame;
      closed, queue, pending, seen, lastCompleted := false, [], map[], map[], None;
      worker, futures, buffer, wire := Waiting, map[], [], [];
    }

    method Submit(job: Job) returns (refused: Option<Refusal>)
      modifies this
      ensures refused == SubmitError(old(View()), job.id)
      ensures View() == NativeChannelModel.Submit(old(View()), job) && buffer == old(buffer)
    {
      if closed { return Some(ChannelClosed); }
      if job.id in seen { return Some(AlreadySubmitted); }
      if |queue| >= 1 { return Some(ChannelBusy); }
      queue := [Some(job)];
      pending := pending[job.id := job];
      seen := seen[job.id := job];
      futures := futures[job.id := []];
      return None;
    }

    method FenceAfter(id: Id, preceding: Option<Id>) returns (refused: Option<Refusal>)
      modifies this
      ensures refused == if FenceError(old(View()), preceding).Some? then FenceError(old(View()), preceding)
                         else SubmitError(old(View()), id)
      ensures View() == NativeChannelModel.FenceAfter(old(View()), id, preceding) && buffer == old(buffer)
    {
      if pending != map[] { return Some(AckPending); }
      if preceding.Some? {
        var p := preceding.value;
        if lastCompleted != preceding || p !in futures || futures[p] == [] || futures[p][0].Raised? {
          return Some(FenceOrderUnavailable);
        }
        var ack := futures[p][0].ack;
        var completed := if ack.FenceAck? then ack.quiescent else ack.completed;
        if !completed { return Some(FenceOrderUnavailable); }
      } else if lastCompleted.Some? {
        return Some(FenceOrderUnavailable);
      }
      refused := Submit(Job(id, FenceJob, 1, preceding));
    }

    method ProbeStatus(id: Id) returns (refused: Option<Refusal>)
      modifies this
      ensures View() == NativeChannelModel.ProbeStatus(old(View()), id) && buffer == old(buffer)
    {
      if pending != map[] { return Some(AckPending); }
      refused := Submit(Job(id, FenceJob, 1, lastCompleted));
    }

    /** Resolves every pending future that is still open, then forgets them. */
    method Poison(current: Option<Id>, completed: bool)
      requires pending.Keys <= futures.Keys
      modifies this
      ensures View() == NativeChannelModel.Poison(old(View()), current, completed) && buffer == old(buffer)
    {
      closed := true;
      futures := ResolvePending(futures, pending, current, completed);
      pending := map[];
    }

    method Close()
      requires pending.Keys <= futures.Keys
      modifies this
      ensures View() == NativeChannelModel.Close(old(View())) && buffer == old(buffer)
    {
      Poison(None, false);
      if |queue| < 1 { queue := [None]; }
    }

    method TakeJob()
      modifies this
      ensures View() == Take(old(View())) && buffer == old(buffer)
    {
      if worker == Waiting && queue != [] {
        var job := queue[0];
        queue := queue[1..];
        if job.None? {
          worker, queue := Stopped, [];
        } else {
          worker := Taken(job.value);
        }
      }
    }

    method BeginJob()
      modifies this
      ensures View() == Begin(old(View())) && buffer == old(buffer)
    {
      if worker.Taken? {
        if closed {
          worker, queue := Stopped, [];
        } else {
          worker := Executing(worker.job, 0, false, |wire|);
        }
      }
    }

    method SendFrame(ok: bool)
      requires pending.Keys <= futures.Keys
      modifies this
      ensures View() == Send(old(View()), ok) && buffer == old(buffer)
    {
      if worker.Executing? && !worker.awaiting {
        if !ok || closed {
          Poison(Some(worker.job.id), false);
          worker, queue := Stopped, [];
        } else {
          wire := wire + [Sent(worker.job.id, worker.index)];
          worker := worker.(awaiting := true);
        }
      }
    }

    method ReceiveAck(success: bool, connected: bool, intact: bool)
      requires pending.Keys <= futures.Keys
      modifies this
      ensures View() == Receive(old(View()), success, connected, intact) && buffer == old(buffer)
    {
      if worker.Executing? && worker.awaiting && !closed {
        var job, index, start := worker.job, worker.index, worker.start;
        wire := wire + [Answered(job.id, index, success, intact)];
        if !intact {
          Poison(Some(job.id), true);
          worker, queue := Stopped, [];
        } else if !success || index + 1 >= job.frames {
          worker := Finished(job, Outcome(job, success, connected), start);
        } else {
          worker := Executing(job, index + 1, false, start);
        }
      }
    }

    method CompleteJob()
      modifies this
      ensures View() == Complete(old(View())) && buffer == old(buffer)
    {
      if worker.Finished? {
        var job := worker.job;
        if job.id in futures && futures[job.id] == [] {
          futures := futures[job.id := [Resolved(worker.ack)]];
        }
        pending := pending - {job.id};
        lastCompleted := Some(job.id);
        worker := if job.kind == CloseJob then Closing else Waiting;
      }
    }

    /** Reads until a newline is buffered. `stream` is what the peer sends from `position` on and `sizes` how the
        socket happens to cut it; one recv never returns more than it was asked for. */
    method ReadLine(stream: seq<byte>, position: nat, sizes: seq<nat>) returns (r: LineResult, consumed: nat)
      requires position <= |stream| && |buffer| <= maxFrame
      modifies `buffer
      ensures position + consumed <= |stream| && |buffer| <= maxFrame + 1
      ensures r.Line? ==> && NEWLINE !in r.line && |buffer| <= maxFrame
                          && r.line + [NEWLINE] + buffer == old(buffer) + stream[position..position + consumed]
      ensures !r.Line? ==> buffer == old(buffer) + stream[position..position + consumed]
      ensures r.ResponseTooLarge? <==> |old(buffer)| + consumed > maxFrame
      ensures r.ConnectionLost? ==> NEWLINE !in buffer
      ensures r.ConnectionLost? ==> |sizes| < |stream| - position || position + consumed == |stream| || 0 in sizes
    {
      consumed := 0;
      var k := 0;
      while NEWLINE !in buffer
        invariant k <= |sizes| && position + consumed <= |stream| && |buffer| <= maxFrame
        invariant buffer == old(buffer) + stream[position..position + consumed] && k <= consumed
        decreases |sizes| - k
      {
        if k == |sizes| { return ConnectionLost, consumed; }
        var asked := Min(65536, maxFrame - |buffer| + 1);
        var n := Min(Min(asked, sizes[k]), |stream| - position - consumed);
        if n == 0 { return ConnectionLost, consumed; }
        var block := stream[position + consumed..position + consumed + n];
        assert stream[position..position + consumed + n] == stream[position..position + consumed] + block;
        buffer := buffer + block;
        consumed := consumed + n;
        k := k + 1;
        if |buffer| > maxFrame { return ResponseTooLarge, consumed; }
      }
      var cut := FindNewline(buffer);
      r := Line(buffer[..cut]);
      assert buffer == buffer[..cut] + [NEWLINE] + buffer[cut + 1..];
      buffer := buffer[cut + 1..];
    }
  }

  lemma NewlineFollows(a: seq<byte>, b: seq<byte>, k: nat)
    requires NEWLINE !in a
    ensures k < |a| ==> (a + [NEWLINE] + b)[k] != NEWLINE
    ensures (a + [NEWLINE] + b)[|a|] == NEWLINE
  {
    assert k < |a| ==> (a + [NEWLINE] + b)[k] == a[k];
  }

  /** The line read depends only on the bytes, never on how the socket cut them. */
  lemma {:induction false} FramingIsUnique(a: seq<byte>, b: seq<byte>, c: seq<byte>, d: seq<byte>)
    requires NEWLINE !in a && NEWLINE !in c && a + [NEWLINE] + b == c + [NEWLINE] + d
    ensures a == c && b == d
  {
    var s := a + [NEWLINE] + b;
    NewlineFollows(a, b, |c|);
    NewlineFollows(c, d, |a|);
    assert a == s[..|a|] && c == s[..|c|] && b == s[|a| + 1..] && d == s[|c| + 1..];
  }
}
