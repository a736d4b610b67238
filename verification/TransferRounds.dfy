/** What each request of an upload and of a download does, and exactly when it succeeds. */
module TransferRounds {
  import opened Wrappers
  import opened Bytes
  import U = UploadModel
  import D = DownloadModel

  // ---------------------------------------------------------------- uploads

  /** The page's pending chooser is this one, and it stands at the declared destination. */
  predicate Waits(f: U.Files, chooser: nat, declared: nat, destination: Option<nat>) {
    destination == Some(declared) && exists session <- Sessions(f) :: f.chooser == Some(U.Chooser(chooser, session))
  }

  function Sessions(f: U.Files): set<nat> {
    match f.chooser case Some(c) => {c.session} case None => {}
  }

  /** Every chooser that opens is a new one and replaces the one before it; only its own session, or a cancel that names
      it, takes it away. Staged files are not touched. */
  lemma OneChooserWaits(f: U.Files, session: nat, chooser: nat)
    ensures U.OpenChooser(f, session) == f.(chooser := Some(U.Chooser(f.nextChooser, session)), nextChooser := f.nextChooser + 1)
    ensures U.DropChooser(f, session) == if session in Sessions(f) then f.(chooser := None) else f
    ensures U.Cancel(f, chooser) == if exists s <- Sessions(f) :: f.chooser == Some(U.Chooser(chooser, s)) then f.(chooser := None) else f
  {
    if f.chooser.Some? {
      assert f.chooser.value.session in Sessions(f) && f.chooser == Some(U.Chooser(f.chooser.value.id, f.chooser.value.session));
    }
  }

  /** An upload is declared exactly for the waiting chooser at its destination, and declares what it declared before; then
      it starts empty, if it can be stored. */
  lemma UploadsAreDeclared(f: U.Files, id: nat, value: U.Staged, destination: Option<nat>, stored: bool)
    ensures var (g, r) := U.Begin(f, id, value, destination, stored);
            && (r.Success? <==> Waits(f, value.chooser, value.destination, destination)
                                && if id in f.staged then f.staged[id] == value else stored)
            && g == if r.Success? && id !in f.staged then f.(staged := f.staged[id := value], contents := f.contents[id := []]) else f
  {
    if f.chooser.Some? { assert f.chooser.value.session in Sessions(f); }
  }

  /** A chunk of one to 32768 bytes within the declared size is taken exactly at the end of the file, or where the file
      has its bytes already; a disk that fails keeps what it stored. Anything else changes nothing. */
  lemma ChunksExtendOrRepeat(f: U.Files, id: nat, offset: nat, data: seq<byte>, reached: Option<nat>)
    requires f.staged.Keys == f.contents.Keys
    ensures var (g, r) := U.Write(f, id, offset, data, reached);
            var fits := 1 <= |data| <= 32768 && id in f.staged && offset + |data| <= f.staged[id].size && offset <= |f.contents[id]|;
            var fails := reached.Some? && reached.value < |data|;
            && (r.Success? <==> fits && if offset == |f.contents[id]| then !fails
                                        else data == f.contents[id][offset..Min(offset + |data|, |f.contents[id]|)])
            && (r.Success? ==> r.value == offset + |data|)
            && g == if fits && offset == |f.contents[id]| then
                      f.(contents := f.contents[id := f.contents[id] + if fails then data[..reached.value] else data])
                    else f
  {
  }

  /** A commit starts exactly for the waiting chooser at the upload's destination. It ends with the file handed to that
      chooser, which is then gone, exactly if the file is complete and the chooser still waits; it succeeds if that was
      confirmed. */
  lemma CommitsHandOverTheFile(f: U.Files, id: nat, destination: Option<nat>, sha: seq<byte> -> nat, confirmed: bool)
    requires f.staged.Keys == f.contents.Keys
    ensures var (g, r) := U.StartCommit(f, id, destination);
            && (r.Success? <==> id in f.staged && Waits(f, f.staged[id].chooser, f.staged[id].destination, destination))
            && g == if r.Success? then f.(committing := Some(id)) else f
    ensures U.AbandonCommit(f) == f.(committing := None)
    ensures f.committing == Some(id) && id in f.staged ==>
              var (g, effect, r) := U.FinishCommit(f, sha, confirmed);
              var complete := |f.contents[id]| == f.staged[id].size && sha(f.contents[id]) == f.staged[id].digest;
              var waiting := exists s <- Sessions(f) :: f.chooser == Some(U.Chooser(f.staged[id].chooser, s));
              && effect == (if complete && waiting then Some(U.Effect(f.staged[id].chooser, id)) else None)
              && g == f.(committing := None, chooser := if effect.Some? then None else f.chooser)
              && (r.Success? <==> effect.Some? && confirmed)
              && (effect.Some? && !confirmed ==> r == Failure(U.Unconfirmed))
  {
    if f.chooser.Some? {
      assert f.chooser.value.session in Sessions(f) && f.chooser == Some(U.Chooser(f.chooser.value.id, f.chooser.value.session));
    }
  }

  // ---------------------------------------------------------------- downloads

  predicate Is(o: D.Outbox, guid: nat, state: D.State) {
    guid in o.rows && o.rows[guid].state == state
  }

  /** A download begins once, pending, with the visibility and the producer of that moment, and is stored once. Hiding
      hides what is pending and what is to come; showing again shows only what is to come. */
  lemma DownloadsBeginOnce(o: D.Outbox, guid: nat, hidden: bool, assistant: bool, other: nat)
    ensures D.WillBegin(o, guid)
            == if guid in o.rows then o else o.(rows := o.rows[guid := D.Row(o.hidden, o.assistant, D.Pending, None)])
    ensures forall bytes ::
              D.Appear(o, guid, bytes)
              == if guid !in o.disk && (guid in o.rows ==> Is(o, guid, D.Pending)) then o.(disk := o.disk[guid := bytes]) else o
    ensures var v := D.Visibility(o, hidden, assistant);
            && v == o.(rows := v.rows, hidden := hidden, assistant := assistant) && v.rows.Keys == o.rows.Keys
            && (other in o.rows ==> v.rows[other] == if hidden && Is(o, other, D.Pending) then o.rows[other].(hidden := true)
                                                     else o.rows[other])
  {
  }

  /** A pending download whose file is there is measured and then recorded as completed, with its size and digest; an
      abandoned measurement leaves it pending; a cancelled one is cancelled only while it is pending and nothing is
      measured. */
  lemma DownloadsComplete(o: D.Outbox, guid: nat, sha: seq<byte> -> nat)
    ensures var v := D.StartComplete(o, guid, sha);
            if o.digesting.None? && Is(o, guid, D.Pending) && guid in o.disk then
              var stamp := D.Stamp(|o.disk[guid]|, sha(o.disk[guid]));
              && v == o.(digesting := Some((guid, stamp)))
              && D.FinishComplete(v) == o.(rows := o.rows[guid := o.rows[guid].(state := D.Completed, stamp := Some(stamp))])
              && D.Abandon(v) == o
            else v == o
    ensures o.digesting.None? ==> D.FinishComplete(o) == o
    ensures D.Cancel(o, guid) == if o.digesting.None? && Is(o, guid, D.Pending)
                                 then o.(rows := o.rows[guid := o.rows[guid].(state := D.Cancelled)]) else o
    ensures D.Restart(o) == o.(hidden := true, assistant := false, digesting := None)
  {
  }

  /** A completed download is read in chunks of up to 32768 bytes from any offset within it, while its file has the
      recorded size; an acknowledgement with its digest saves it, and then the file may go. */
  lemma DownloadsAreCollected(o: D.Outbox, guid: nat, offset: nat, digest: nat, unlinked: bool)
    ensures var r := D.Read(o, guid, offset);
            && (r.Success? <==> && Is(o, guid, D.Completed) && o.rows[guid].stamp.Some? && offset <= o.rows[guid].stamp.value.size
                                && guid in o.disk && |o.disk[guid]| == o.rows[guid].stamp.value.size)
            && (r == Failure(D.DownloadIncomplete) <==> !Is(o, guid, D.Completed) && !Is(o, guid, D.Saved))
            && (r.Success? ==>
                  r.value == D.Chunk(o.disk[guid][offset..Min(offset + 32768, |o.disk[guid]|)], offset, o.rows[guid].stamp.value))
    ensures var (v, r) := D.Ack(o, guid, digest, unlinked);
            var matches := (Is(o, guid, D.Completed) || Is(o, guid, D.Saved)) && o.rows[guid].stamp.Some?
                           && o.rows[guid].stamp.value.digest == digest;
            && (r.Success? <==> matches && unlinked)
            && v == if !matches then o
                    else o.(rows := o.rows[guid := o.rows[guid].(state := D.Saved)], disk := if unlinked then o.disk - {guid} else o.disk)
  {
  }

  /** After the launch is gone a pending download is completed from its readable file, or cancelled; only the files of
      saved and cancelled downloads are then removed. */
  lemma OutboxesAreRecovered(o: D.Outbox, guid: nat, readable: bool, sha: seq<byte> -> nat)
    ensures D.RecoverOne(o, guid, readable, sha)
            == if o.digesting.Some? || !Is(o, guid, D.Pending) then o
               else if guid in o.disk && readable then
                 var stamp := D.Stamp(|o.disk[guid]|, sha(o.disk[guid]));
                 o.(rows := o.rows[guid := o.rows[guid].(state := D.Completed, stamp := Some(stamp))])
               else o.(rows := o.rows[guid := o.rows[guid].(state := D.Cancelled)])
    ensures D.Sweep(o, guid) == if Is(o, guid, D.Saved) || Is(o, guid, D.Cancelled) then o.(disk := o.disk - {guid}) else o
  {
  }
}
