/** The outbox as an object, its recovery loop, and the collector that copies a download before acknowledging it. */
module BrowserDownloads {
  import opened Wrappers
  import opened Bytes
  import opened DownloadModel

  class Downloads {
    const sha: seq<byte> -> nat
    var rows: map<nat, Row>
    var disk: map<nat, seq<byte>>
    var hidden: bool
    var assistant: bool
    var digesting: Option<(nat, Stamp)>

    ghost function View(): Outbox
      reads this
    {
      Outbox(rows, disk, hidden, assistant, digesting)
    }

    /** A new process finds the rows and files of the one before it. */
    constructor (sha: seq<byte> -> nat, rows: map<nat, Row>, disk: map<nat, seq<byte>>)
      ensures View() == Restart(Outbox(rows, disk, true, false, None)) && this.sha == sha
    {
      this.sha, this.rows, this.disk := sha, rows, disk;
      hidden, assistant, digesting := true, false, None;
    }

    method WillBegin(guid: nat)
      modifies this
      ensures View() == DownloadModel.WillBegin(old(View()), guid)
    {
      if guid !in rows { rows := rows[guid := Row(hidden, assistant, Pending, None)]; }
    }

    method StartComplete(guid: nat)
      modifies this
      ensures View() == DownloadModel.StartComplete(old(View()), guid, sha)
    {
      if digesting.None? && guid in rows && rows[guid].state == Pending && guid in disk {
        digesting := Some((guid, Stamp(|disk[guid]|, sha(disk[guid]))));
      }
    }

    method FinishComplete()
      modifies this
      ensures View() == DownloadModel.FinishComplete(old(View()))
    {
      if digesting.None? { return; }
      var (guid, stamp) := digesting.value;
      if guid in rows { rows := rows[guid := rows[guid].(state := Completed, stamp := Some(stamp))]; }
      digesting := None;
    }

    method AbandonComplete()
      modifies this
      ensures View() == Abandon(old(View()))
    {
      digesting := None;
    }

    method Cancel(guid: nat)
      modifies this
      ensures View() == DownloadModel.Cancel(old(View()), guid)
    {
      if digesting.None? && guid in rows && rows[guid].state == Pending {
        rows := rows[guid := rows[guid].(state := Cancelled)];
      }
    }

    method Visibility(hidden: bool, assistant: bool)
      modifies this
      ensures View() == DownloadModel.Visibility(old(View()), hidden, assistant)
    {
      this.hidden, this.assistant := hidden, assistant;
      if hidden {
        rows := map guid <- rows :: if rows[guid].state == Pending then rows[guid].(hidden := true) else rows[guid];
        assert View().rows == DownloadModel.Visibility(old(View()), hidden, assistant).rows;
      }
    }

    method Ack(guid: nat, digest: nat, unlinked: bool) returns (r: Result<(), Rejection>)
      modifies this
      ensures (View(), r) == DownloadModel.Ack(old(View()), guid, digest, unlinked)
    {
      if guid !in rows || (rows[guid].state != Completed && rows[guid].state != Saved) { return Failure(DownloadIncomplete); }
      if rows[guid].stamp.None? || rows[guid].stamp.value.digest != digest { return Failure(DigestMismatch); }
      rows := rows[guid := rows[guid].(state := Saved)];
      if !unlinked { return Failure(Unconfirmed); }
      disk := disk - {guid};
      return Success(());
    }

    method Read(guid: nat, offset: nat) returns (r: Result<Chunk, Rejection>)
      ensures r == DownloadModel.Read(View(), guid, offset)
    {
      if guid !in rows || (rows[guid].state != Completed && rows[guid].state != Saved) { return Failure(DownloadIncomplete); }
      if rows[guid].state != Completed || rows[guid].stamp.None? || offset > rows[guid].stamp.value.size {
        return Failure(InvalidOffset);
      }
      if guid !in disk || |disk[guid]| != rows[guid].stamp.value.size { return Failure(DownloadChanged); }
      var file := disk[guid];
      return Success(Chunk(file[offset..Min(offset + CHUNK, |file|)], offset, rows[guid].stamp.value));
    }

    function Found(guid: nat, readable: set<nat>): Option<seq<byte>>
      reads this`disk
    {
      if guid in disk && guid in readable then Some(disk[guid]) else None
    }

    method RecoverOne(guid: nat, readable: set<nat>)
      requires digesting.None? && guid in rows
      modifies this`rows
      ensures View() == DownloadModel.RecoverOne(old(View()), guid, guid in readable, sha)
      ensures rows == old(rows)[guid := RecoveredRow(old(rows)[guid], Found(guid, readable), sha)]
    {
      if rows[guid].state != Pending { return; }
      if guid in disk && guid in readable {
        rows := rows[guid := rows[guid].(state := Completed, stamp := Some(Stamp(|disk[guid]|, sha(disk[guid]))))];
      } else {
        rows := rows[guid := rows[guid].(state := Cancelled)];
      }
    }

    method Sweep(guid: nat)
      modifies this`disk
      ensures View() == DownloadModel.Sweep(old(View()), guid)
    {
      if guid in rows && (rows[guid].state == Saved || rows[guid].state == Cancelled) { disk := disk - {guid}; }
    }

    method RecoverPending(readable: set<nat>)
      requires digesting.None?
      modifies this`rows
      ensures rows.Keys == old(rows).Keys
      ensures forall guid <- rows :: rows[guid] == RecoveredRow(old(rows)[guid], Found(guid, readable), sha)
    {
      var left := set guid <- rows | rows[guid].state == Pending;
      while left != {}
        invariant rows.Keys == old(rows).Keys && left <= rows.Keys && digesting.None?
        invariant forall guid <- left :: rows[guid] == old(rows)[guid]
        invariant forall guid <- rows | guid !in left ::
                    rows[guid] == RecoveredRow(old(rows)[guid], Found(guid, readable), sha)
        decreases |left|
      {
        var guid :| guid in left;
        RecoverOne(guid, readable);
        left := left - {guid};
      }
    }

    /** The row of a download whose file is no longer needed. */
    predicate Gone(guid: nat)
      reads this`rows
    {
      guid in rows && (rows[guid].state == Saved || rows[guid].state == Cancelled)
    }

    method SweepGone()
      modifies this`disk
      ensures disk == map guid <- old(disk) | !Gone(guid) :: old(disk)[guid]
    {
      var gone: set<nat> := set guid <- rows | Gone(guid);
      while gone != {}
        invariant forall guid <- gone :: Gone(guid)
        invariant disk == map guid <- old(disk) | !Gone(guid) || guid in gone :: old(disk)[guid]
        decreases |gone|
      {
        var guid :| guid in gone;
        Sweep(guid);
        gone := gone - {guid};
      }
    }

    /** After the launch is gone nothing is pending: final files are complete downloads, the rest is cancelled, and only
        saved or cancelled downloads lose their files. */
    method RecoverDownloads(readable: set<nat>)
      requires digesting.None?
      modifies this`rows, this`disk
      ensures rows.Keys == old(rows).Keys && forall guid <- rows :: rows[guid].state != Pending
      ensures forall guid <- rows :: rows[guid] == RecoveredRow(old(rows)[guid], old(Found(guid, readable)), sha)
      ensures disk == map guid <- old(disk) | !Gone(guid) :: old(disk)[guid]
    {
      RecoverPending(readable);
      SweepGone();
    }
  }

  /** The owner's library, where a collected download is committed before it is acknowledged. */
  class Library {
    var copies: map<nat, Copy>

    constructor ()
      ensures copies == map[]
    {
      copies := map[];
    }
  }

  /** Reads a download chunk by chunk; every answer must repeat its recorded size and digest. */
  method Download(outbox: Downloads, guid: nat, stamp: Stamp) returns (r: Result<seq<byte>, Rejection>)
    ensures r.Success? ==> |r.value| == stamp.size && (stamp.size > 0 ==> guid in outbox.disk && r.value == outbox.disk[guid])
    ensures r.Success? <== && guid in outbox.rows && outbox.rows[guid].state == Completed && outbox.rows[guid].stamp == Some(stamp)
                           && guid in outbox.disk && |outbox.disk[guid]| == stamp.size
  {
    var data := [];
    while |data| < stamp.size
      invariant |data| <= stamp.size
      invariant |data| > 0 ==> guid in outbox.disk && |outbox.disk[guid]| == stamp.size && data == outbox.disk[guid][..|data|]
    {
      var answer := outbox.Read(guid, |data|);
      if answer.Failure? { return Failure(answer.error); }
      if answer.value.offset != |data| || answer.value.stamp != stamp { return Failure(Unconfirmed); }
      var chunk := answer.value.data;
      if !(0 < |chunk| <= Min(CHUNK, stamp.size - |data|)) { return Failure(Unconfirmed); }
      assert outbox.disk[guid][..|data| + |chunk|] == outbox.disk[guid][..|data|] + chunk;
      data := data + chunk;
    }
    return Success(data);
  }

  /** Collects one listed download. Whatever fails on the way, the bytes of the download are at any time in the outbox, in
      the library, or in both; and a hidden download is hidden in the library. */
  method Receive(outbox: Downloads, library: Library, guid: nat, listed: Row, unlinked: bool) returns (r: Result<(), Rejection>)
    requires guid in outbox.rows && guid in outbox.disk
    requires outbox.rows[guid].state == Completed && outbox.rows[guid].stamp == Some(Measure(outbox.disk[guid], outbox.sha))
    modifies outbox, library
    ensures forall other <- old(library.copies) :: other != guid ==> other in library.copies && library.copies[other] == old(library.copies)[other]
    ensures (guid in outbox.disk && outbox.disk[guid] == old(outbox.disk)[guid])
         || (guid in library.copies && library.copies[guid].data == old(outbox.disk)[guid])
    ensures r.Success? ==>
              && guid in library.copies && library.copies[guid].data == old(outbox.disk)[guid]
              && library.copies[guid].hidden == (listed.hidden || old(outbox.rows)[guid].hidden)
              && outbox.View() == Ack(old(outbox.View()), guid, outbox.sha(old(outbox.disk)[guid]), true).0
    ensures r.Success? <==> listed.state == Completed && listed.stamp == old(outbox.rows)[guid].stamp && unlinked
  {
    if listed.state != Completed || listed.stamp.None? { return Failure(Unconfirmed); }
    var stamp := listed.stamp.value;
    var data := Download(outbox, guid, stamp);
    if data.Failure? { return Failure(data.error); }
    if outbox.sha(data.value) != stamp.digest { return Failure(DigestMismatch); }
    if outbox.rows[guid].stamp != Some(stamp) { return Failure(Unconfirmed); }
    assert data.value == outbox.disk[guid];
    library.copies := library.copies[guid := Copy(data.value, listed.hidden || outbox.rows[guid].hidden)];
    r := outbox.Ack(guid, stamp.digest, unlinked);
  }
}
