/** Staged uploads of one browser launch: one pending file chooser, staged files that grow by chunks, and a commit that
    hands a verified file to the chooser. Each function is one stretch between two awaits. */
module UploadModel {
  import opened Wrappers
  import opened Bytes

  const CHUNK := 32768

  datatype Chooser = Chooser(id: nat, session: nat)

  /** What a begin request declares; a repeated begin must declare the same. */
  datatype Staged = Staged(chooser: nat, destination: nat, name: nat, size: nat, digest: nat)

  datatype Files = Files(chooser: Option<Chooser>, nextChooser: nat, staged: map<nat, Staged>, contents: map<nat, seq<byte>>,
                         committing: Option<nat>)

  datatype Rejection =
    | ChooserChanged | UploadConflict | UploadNotFound | InvalidChunk | InvalidOffset | UploadIncomplete | StorageFailed | Unconfirmed

  /** A file handed to a chooser of the page. */
  datatype Effect = Effect(chooser: nat, upload: nat)

  const NO_FILES := Files(None, 0, map[], map[], None)

  function OpenChooser(f: Files, session: nat): Files {
    f.(chooser := Some(Chooser(f.nextChooser, session)), nextChooser := f.nextChooser + 1)
  }

  /** The page of a session navigated, or its target went away. */
  function DropChooser(f: Files, session: nat): Files {
    if f.chooser.Some? && f.chooser.value.session == session then f.(chooser := None) else f
  }

  function Cancel(f: Files, chooser: nat): Files {
    if f.chooser.Some? && f.chooser.value.id == chooser then f.(chooser := None) else f
  }

  /** Where the page says its pending chooser is; None when it cannot say. */
  predicate Pending(f: Files, chooser: nat, declared: nat, destination: Option<nat>) {
    f.chooser.Some? && f.chooser.value.id == chooser && destination == Some(declared)
  }

  function Begin(f: Files, id: nat, value: Staged, destination: Option<nat>, stored: bool): (Files, Result<(), Rejection>) {
    if !Pending(f, value.chooser, value.destination, destination) then (f, Failure(ChooserChanged))
    else if id in f.staged then (f, if f.staged[id] != value then Failure(UploadConflict) else Success(()))
    else if !stored then (f, Failure(StorageFailed))
    else (f.(staged := f.staged[id := value], contents := f.contents[id := []]), Success(()))
  }

  /** A chunk extends the file exactly at its end, or repeats bytes already there. reached is how much of a new chunk a
      failing disk still stored. */
  function Write(f: Files, id: nat, offset: nat, data: seq<byte>, reached: Option<nat>): (Files, Result<nat, Rejection>)
    requires f.staged.Keys == f.contents.Keys
  {
    if !(0 < |data| <= CHUNK) then (f, Failure(InvalidChunk))
    else if id !in f.staged then (f, Failure(UploadNotFound))
    else
      var file := f.contents[id];
      if offset + |data| > f.staged[id].size || offset > |file| then (f, Failure(InvalidOffset))
      else if offset < |file| then
        if file[offset..Min(offset + |data|, |file|)] != data then (f, Failure(UploadConflict)) else (f, Success(offset + |data|))
      else if reached.Some? && reached.value < |data| then
        (f.(contents := f.contents[id := file + data[..reached.value]]), Failure(StorageFailed))
      else (f.(contents := f.contents[id := file + data]), Success(offset + |data|))
  }

  function StartCommit(f: Files, id: nat, destination: Option<nat>): (Files, Result<(), Rejection>) {
    if id !in f.staged then (f, Failure(UploadNotFound))
    else if !Pending(f, f.staged[id].chooser, f.staged[id].destination, destination) then (f, Failure(ChooserChanged))
    else (f.(committing := Some(id)), Success(()))
  }

  /** A commit that is cancelled or fails while the page or the file is being looked at. */
  function AbandonCommit(f: Files): Files {
    f.(committing := None)
  }

  /** Verifies the stored file, then consumes the chooser before the effect. An unconfirmed effect may have happened. */
  function FinishCommit(f: Files, sha: seq<byte> -> nat, confirmed: bool): (Files, Option<Effect>, Result<(), Rejection>)
    requires f.staged.Keys == f.contents.Keys && f.committing.Some? && f.committing.value in f.staged
  {
    var id := f.committing.value;
    var idle := f.(committing := None);
    var staged := f.staged[id];
    if |f.contents[id]| != staged.size || sha(f.contents[id]) != staged.digest then (idle, None, Failure(UploadIncomplete))
    else if f.chooser.None? || f.chooser.value.id != staged.chooser then (idle, None, Failure(ChooserChanged))
    else
      (idle.(chooser := None), Some(Effect(staged.chooser, id)), if confirmed then Success(()) else Failure(Unconfirmed))
  }
}
