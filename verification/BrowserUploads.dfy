/** The upload half of the browser file service as an object, and the agent's chunk loop that drives it. */
module BrowserUploads {
  import opened Wrappers
  import opened Bytes
  import opened UploadModel
  import UploadProofs

  class Files {
    const sha: seq<byte> -> nat
    var chooser: Option<Chooser>
    var nextChooser: nat
    var staged: map<nat, Staged>
    var contents: map<nat, seq<byte>>
    var committing: Option<nat>
    ghost var effects: seq<Effect>

    ghost function View(): UploadModel.Files
      reads this
    {
      UploadModel.Files(chooser, nextChooser, staged, contents, committing)
    }

    ghost predicate Valid()
      reads this
    {
      UploadProofs.FilesSound(View())
    }

    constructor (sha: seq<byte> -> nat)
      ensures Valid() && View() == NO_FILES && effects == [] && this.sha == sha
    {
      this.sha := sha;
      chooser, nextChooser, staged, contents, committing := None, 0, map[], map[], None;
      effects := [];
    }

    method OpenChooser(session: nat)
      requires Valid()
      modifies this
      ensures Valid() && effects == old(effects)
      ensures View() == UploadModel.OpenChooser(old(View()), session)
    {
      chooser := Some(Chooser(nextChooser, session));
      nextChooser := nextChooser + 1;
    }

    method DropChooser(session: nat)
      requires Valid()
      modifies this
      ensures Valid() && effects == old(effects)
      ensures View() == UploadModel.DropChooser(old(View()), session)
    {
      if chooser.Some? && chooser.value.session == session { chooser := None; }
    }

    method Cancel(id: nat)
      requires Valid()
      modifies this
      ensures Valid() && effects == old(effects)
      ensures View() == UploadModel.Cancel(old(View()), id)
    {
      if chooser.Some? && chooser.value.id == id { chooser := None; }
    }

    method Begin(id: nat, value: Staged, destination: Option<nat>, stored: bool) returns (r: Result<(), Rejection>)
      requires Valid() && committing.None?
      modifies this
      ensures Valid() && effects == old(effects)
      ensures (View(), r) == UploadModel.Begin(old(View()), id, value, destination, stored)
    {
      if !Pending(UploadModel.Files(chooser, nextChooser, staged, contents, committing), value.chooser, value.destination, destination) {
        return Failure(ChooserChanged);
      }
      if id in staged {
        return if staged[id] != value then Failure(UploadConflict) else Success(());
      }
      if !stored { return Failure(StorageFailed); }
      staged := staged[id := value];
      contents := contents[id := []];
      return Success(());
    }

    method Write(id: nat, offset: nat, data: seq<byte>, reached: Option<nat>) returns (r: Result<nat, Rejection>)
      requires Valid() && committing.None?
      modifies this
      ensures Valid() && effects == old(effects)
      ensures (View(), r) == UploadModel.Write(old(View()), id, offset, data, reached)
    {
      UploadProofs.WriteExtends(View(), id, offset, data, reached);
      if !(0 < |data| <= CHUNK) { return Failure(InvalidChunk); }
      if id !in staged { return Failure(UploadNotFound); }
      var file := contents[id];
      if offset + |data| > staged[id].size || offset > |file| { return Failure(InvalidOffset); }
      if offset < |file| {
        return if file[offset..Min(offset + |data|, |file|)] != data then Failure(UploadConflict) else Success(offset + |data|);
      }
      if reached.Some? && reached.value < |data| {
        contents := contents[id := file + data[..reached.value]];
        return Failure(StorageFailed);
      }
      contents := contents[id := file + data];
      return Success(offset + |data|);
    }

    method StartCommit(id: nat, destination: Option<nat>) returns (r: Result<(), Rejection>)
      requires Valid() && committing.None?
      modifies this
      ensures Valid() && effects == old(effects)
      ensures (View(), r) == UploadModel.StartCommit(old(View()), id, destination)
    {
      if id !in staged { return Failure(UploadNotFound); }
      if chooser.None? || chooser.value.id != staged[id].chooser || destination != Some(staged[id].destination) {
        return Failure(ChooserChanged);
      }
      committing := Some(id);
      return Success(());
    }

    method AbandonCommit()
      requires Valid()
      modifies this
      ensures Valid() && effects == old(effects)
      ensures View() == UploadModel.AbandonCommit(old(View()))
    {
      committing := None;
    }

    method FinishCommit(confirmed: bool) returns (r: Result<(), Rejection>)
      requires Valid() && committing.Some?
      modifies this
      ensures Valid()
      ensures var (after, effect, answer) := UploadModel.FinishCommit(old(View()), sha, confirmed);
              && View() == after && r == answer
              && effects == old(effects) + (if effect.Some? then [effect.value] else [])
    {
      var id := committing.value;
      committing := None;
      if |contents[id]| != staged[id].size || sha(contents[id]) != staged[id].digest { return Failure(UploadIncomplete); }
      if chooser.None? || chooser.value.id != staged[id].chooser { return Failure(ChooserChanged); }
      chooser := None;
      effects := effects + [Effect(staged[id].chooser, id)];
      return if confirmed then Success(()) else Failure(Unconfirmed);
    }
  }

  /** One answer of the document service about an original. */
  datatype Content = Content(offset: nat, size: nat, digest: nat, name: nat, data: seq<byte>)

  /** Only the bounded chunk that was asked for is accepted: it is full unless it is the last. */
  predicate Accepts(c: Content, offset: nat) {
    c.offset == offset <= c.size && |c.data| == Min(CHUNK, c.size - offset)
  }

  /** The bytes are the service's answers for the multiples of the chunk size, one after the other. */
  predicate Served(post: nat -> Option<Content>, file: seq<byte>) {
    forall o: nat | o < |file| && o % CHUNK == 0 :: post(o).Some? && file[o..Min(o + CHUNK, |file|)] == post(o).value.data
  }

  /** The service answers for one original of this size and digest, chunk by chunk. */
  predicate Serves(post: nat -> Option<Content>, metadata: Content) {
    ServesUpTo(post, metadata, metadata.size)
  }

  predicate ServesUpTo(post: nat -> Option<Content>, metadata: Content, end: nat) {
    forall o: nat | o < end && o % CHUNK == 0 ::
      && post(o).Some? && post(o).value.offset == o && |post(o).value.data| == Min(32768, metadata.size - o)
      && post(o).value.size == metadata.size && post(o).value.digest == metadata.digest
  }

  lemma ServesFurther(post: nat -> Option<Content>, metadata: Content, offset: nat, end: nat)
    requires ServesUpTo(post, metadata, offset) && offset % CHUNK == 0 && end <= offset + CHUNK && post(offset).Some?
    requires Accepts(post(offset).value, offset) && post(offset).value.size == metadata.size
    requires post(offset).value.digest == metadata.digest
    ensures ServesUpTo(post, metadata, end)
  {
    forall o: nat | offset < o < end ensures o % CHUNK != 0 { }
  }

  /** No write of this many bytes or fewer fails. */
  ghost predicate Stores(disk: nat -> Option<nat>) {
    forall o: nat :: disk(o).Some? ==> disk(o).value >= CHUNK
  }

  /** Whatever the service served for this original has the announced digest. */
  ghost predicate Verifies(post: nat -> Option<Content>, metadata: Content, sha: seq<byte> -> nat) {
    forall file :: |file| == metadata.size && Served(post, file) ==> sha(file) == metadata.digest
  }

  lemma ServedGrows(post: nat -> Option<Content>, file: seq<byte>, data: seq<byte>)
    requires Served(post, file) && |file| % CHUNK == 0 && 0 < |data| <= CHUNK
    requires post(|file|).Some? && post(|file|).value.data == data
    ensures Served(post, file + data)
  {
    var longer := file + data;
    forall o: nat | o < |longer| && o % CHUNK == 0
      ensures post(o).Some? && longer[o..Min(o + CHUNK, |longer|)] == post(o).value.data
    {
      if o < |file| {
        assert o + CHUNK <= |file|;
        assert longer[o..o + CHUNK] == file[o..Min(o + CHUNK, |file|)];
      } else {
        assert o == |file|;
        assert longer[o..] == data;
      }
    }
  }

  /** Sends the original chunk by chunk. Chunks are never empty before the end, so the loop ends. */
  method SendChunks(files: Files, post: nat -> Option<Content>, disk: nat -> Option<nat>, identity: nat, metadata: Content)
    returns (r: Result<(), Rejection>)
    requires files.Valid() && files.committing.None? && identity in files.staged
    requires post(0) == Some(metadata) && Accepts(metadata, 0)
    requires files.contents[identity] == [] && files.staged[identity].size == metadata.size
    modifies files
    ensures files.Valid() && files.committing.None?
    ensures files.chooser == old(files.chooser) && files.effects == old(files.effects) && files.staged == old(files.staged)
    ensures r.Success? ==>
              Served(post, files.contents[identity]) && |files.contents[identity]| == metadata.size && Serves(post, metadata)
    ensures Serves(post, metadata) && Stores(disk) ==> r.Success?
  {
    var offset := 0;
    while offset < metadata.size
      invariant files.Valid() && files.committing.None?
      invariant files.chooser == old(files.chooser) && files.effects == old(files.effects) && files.staged == old(files.staged)
      invariant |files.contents[identity]| == offset <= metadata.size && (offset % CHUNK == 0 || offset == metadata.size)
      invariant Served(post, files.contents[identity])
      invariant ServesUpTo(post, metadata, offset)
    {
      var chunk := if offset == 0 then Some(metadata) else post(offset);
      if chunk.None? || !Accepts(chunk.value, offset) { return Failure(UploadIncomplete); }
      if chunk.value.digest != metadata.digest || chunk.value.size != metadata.size { return Failure(UploadIncomplete); }
      ServedGrows(post, files.contents[identity], chunk.value.data);
      ServesFurther(post, metadata, offset, offset + |chunk.value.data|);
      var written := files.Write(identity, offset, chunk.value.data, disk(offset));
      if written.Failure? { return Failure(written.error); }
      offset := offset + |chunk.value.data|;
    }
    return Success(());
  }

  /** Copies an authorized original into a staged upload and commits it. Success means that the staged file is exactly
      what the service served, has the announced size and digest, and was handed to one chooser, which is now used up. */
  method AgentUpload(files: Files, post: nat -> Option<Content>, disk: nat -> Option<nat>, destination: nat, identity: nat,
                     atList: Option<nat>, atBegin: Option<nat>, atCommit: Option<nat>, admitted: bool, confirmed: bool)
    returns (r: Result<(), Rejection>)
    requires files.Valid() && files.committing.None? && identity !in files.staged
    modifies files
    ensures files.Valid() && files.committing.None?
    ensures r.Success? ==>
              && post(0).Some? && old(files.chooser).Some? && files.chooser.None?
              && identity in files.contents && Served(post, files.contents[identity])
              && |files.contents[identity]| == post(0).value.size
              && files.sha(files.contents[identity]) == post(0).value.digest
              && files.effects == old(files.effects) + [Effect(old(files.chooser).value.id, identity)]
    ensures r.Failure? && r.error != Unconfirmed ==> files.effects == old(files.effects)
    ensures r.Success? <== && old(files.chooser).Some? && {atList, atBegin, atCommit} == {Some(destination)} && admitted && confirmed
                           && post(0).Some? && post(0).value.offset == 0 && |post(0).value.data| == Min(32768, post(0).value.size)
                           && Serves(post, post(0).value) && Stores(disk)
                           && Verifies(post, post(0).value, files.sha)
  {
    if files.chooser.None? || atList != Some(destination) { return Failure(ChooserChanged); }
    var chooser := files.chooser.value;
    var metadata := post(0);
    if metadata.None? || !Accepts(metadata.value, 0) { return Failure(UploadIncomplete); }
    var declared := Staged(chooser.id, destination, metadata.value.name, metadata.value.size, metadata.value.digest);
    r := files.Begin(identity, declared, atBegin, true);
    if r.Failure? { return; }
    r := SendChunks(files, post, disk, identity, metadata.value);
    if r.Failure? { return; }
    if !admitted { return Failure(ChooserChanged); }
    r := files.StartCommit(identity, atCommit);
    if r.Failure? { return; }
    r := files.FinishCommit(confirmed);
  }

  /** A service that serves one original makes the staged file that original. */
  lemma {:induction false} ServedFilesAreTheOriginal(post: nat -> Option<Content>, file: seq<byte>, original: seq<byte>, from: nat)
    requires Served(post, file) && |file| == |original| && from % CHUNK == 0 && from <= |file|
    requires forall o: nat | o < |original| && post(o).Some? :: post(o).value.data == original[o..Min(o + CHUNK, |original|)]
    ensures file[from..] == original[from..]
    decreases |file| - from
  {
    if from < |file| {
      var end := Min(from + CHUNK, |file|);
      assert post(from).Some? && file[from..end] == post(from).value.data;
      assert file[from..end] == original[from..end];
      if end < |file| { ServedFilesAreTheOriginal(post, file, original, end); }
      assert file[from..] == file[from..end] + file[end..];
      assert original[from..] == original[from..end] + original[end..];
    }
  }
}
