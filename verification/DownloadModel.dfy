/** The download outbox of one browser launch: a durable row per download and the file the browser stored. Each function
    is one committed update, or one effect on the stored files, that a crash can separate from the next. */
module DownloadModel {
  import opened Wrappers
  import opened Bytes

  const CHUNK := 32768

  datatype State = Pending | Completed | Saved | Cancelled

  datatype Stamp = Stamp(size: nat, digest: nat)

  datatype Row = Row(hidden: bool, assistant: bool, state: State, stamp: Option<Stamp>)

  /** hidden and assistant are what a new download starts with; digesting is a completion that was read but not recorded. */
  datatype Outbox = Outbox(rows: map<nat, Row>, disk: map<nat, seq<byte>>, hidden: bool, assistant: bool,
                           digesting: Option<(nat, Stamp)>)

  datatype Rejection = DownloadIncomplete | DigestMismatch | InvalidOffset | DownloadChanged | Unconfirmed

  /** A collected download in the owner's library. */
  datatype Copy = Copy(data: seq<byte>, hidden: bool)

  datatype Chunk = Chunk(data: seq<byte>, offset: nat, stamp: Stamp)

  const EMPTY_OUTBOX := Outbox(map[], map[], true, false, None)

  function WillBegin(o: Outbox, guid: nat): Outbox {
    if guid in o.rows then o else o.(rows := o.rows[guid := Row(o.hidden, o.assistant, Pending, None)])
  }

  /** The browser's final rename. It stores a download once, before reporting it complete. */
  function Appear(o: Outbox, guid: nat, bytes: seq<byte>): Outbox {
    if guid in o.disk || (guid in o.rows && o.rows[guid].state != Pending) then o else o.(disk := o.disk[guid := bytes])
  }

  function Measure(bytes: seq<byte>, sha: seq<byte> -> nat): Stamp {
    Stamp(|bytes|, sha(bytes))
  }

  function StartComplete(o: Outbox, guid: nat, sha: seq<byte> -> nat): Outbox {
    if o.digesting.None? && guid in o.rows && o.rows[guid].state == Pending && guid in o.disk
    then o.(digesting := Some((guid, Measure(o.disk[guid], sha)))) else o
  }

  function FinishComplete(o: Outbox): Outbox {
    match o.digesting
    case None => o
    case Some((guid, stamp)) =>
      var recorded := if guid in o.rows then o.rows[guid := o.rows[guid].(state := Completed, stamp := Some(stamp))] else o.rows;
      o.(rows := recorded, digesting := None)
  }

  /** The measured file could not be recorded, because the observer failed or was cancelled: the download stays pending. */
  function Abandon(o: Outbox): Outbox {
    o.(digesting := None)
  }

  /** Browser events arrive one at a time, so none is handled while a completion is being read. */
  function Cancel(o: Outbox, guid: nat): Outbox {
    if o.digesting.None? && guid in o.rows && o.rows[guid].state == Pending
    then o.(rows := o.rows[guid := o.rows[guid].(state := Cancelled)]) else o
  }

  function Hide(row: Row): Row {
    if row.state == Pending then row.(hidden := true) else row
  }

  function Visibility(o: Outbox, hidden: bool, assistant: bool): Outbox {
    var rows := if hidden then map guid <- o.rows :: Hide(o.rows[guid]) else o.rows;
    o.(rows := rows, hidden := hidden, assistant := assistant)
  }

  /** The row is saved first; unlinked says whether the file was then removed too. */
  function Ack(o: Outbox, guid: nat, digest: nat, unlinked: bool): (Outbox, Result<(), Rejection>) {
    if guid !in o.rows || (o.rows[guid].state != Completed && o.rows[guid].state != Saved) then (o, Failure(DownloadIncomplete))
    else if o.rows[guid].stamp.None? || o.rows[guid].stamp.value.digest != digest then (o, Failure(DigestMismatch))
    else
      var saved := o.(rows := o.rows[guid := o.rows[guid].(state := Saved)]);
      if unlinked then (saved.(disk := saved.disk - {guid}), Success(())) else (saved, Failure(Unconfirmed))
  }

  function Read(o: Outbox, guid: nat, offset: nat): Result<Chunk, Rejection> {
    if guid !in o.rows || (o.rows[guid].state != Completed && o.rows[guid].state != Saved) then Failure(DownloadIncomplete)
    else if o.rows[guid].state != Completed || o.rows[guid].stamp.None? || offset > o.rows[guid].stamp.value.size then
      Failure(InvalidOffset)
    else if guid !in o.disk || |o.disk[guid]| != o.rows[guid].stamp.value.size then Failure(DownloadChanged)
    else Success(Chunk(o.disk[guid][offset..Min(offset + CHUNK, |o.disk[guid]|)], offset, o.rows[guid].stamp.value))
  }

  /** A new process on the same outbox. */
  function Restart(o: Outbox): Outbox {
    o.(hidden := true, assistant := false, digesting := None)
  }

  /** After the launch is gone: a pending download whose final file can be read is complete, any other is cancelled. */
  function RecoveredRow(row: Row, file: Option<seq<byte>>, sha: seq<byte> -> nat): Row {
    if row.state != Pending then row
    else if file.Some? then row.(state := Completed, stamp := Some(Measure(file.value, sha)))
    else row.(state := Cancelled)
  }

  function FileOf(o: Outbox, guid: nat, readable: bool): Option<seq<byte>> {
    if guid in o.disk && readable then Some(o.disk[guid]) else None
  }

  function RecoverOne(o: Outbox, guid: nat, readable: bool, sha: seq<byte> -> nat): Outbox {
    if o.digesting.Some? || guid !in o.rows || o.rows[guid].state != Pending then o
    else o.(rows := o.rows[guid := RecoveredRow(o.rows[guid], FileOf(o, guid, readable), sha)])
  }

  function Sweep(o: Outbox, guid: nat): Outbox {
    if guid in o.rows && (o.rows[guid].state == Saved || o.rows[guid].state == Cancelled) then o.(disk := o.disk - {guid}) else o
  }
}
