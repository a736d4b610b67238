/** Uploads over every interleaving of chooser events, chunks, retries and commits. */
module UploadProofs {
  import opened Wrappers
  import opened Bytes
  import opened UploadModel

  /** A chunk that was answered with success. */
  datatype Accepted = Accepted(id: nat, offset: nat, data: seq<byte>)

  datatype World = World(files: Files, accepted: seq<Accepted>, effects: seq<Effect>)

  datatype Event =
    | ChooserOpens(session: nat)
    | PageChanges(session: nat)
    | Cancelling(chooser: nat)
    | Beginning(id: nat, value: Staged, destination: Option<nat>, stored: bool)
    | Writing(id: nat, offset: nat, data: seq<byte>, reached: Option<nat>)
    | Committing(id: nat, destination: Option<nat>)
    | Delivering(confirmed: bool)
    | Abandoning

  /** Chooser events arrive at any time; operations run one at a time, and a commit holds the others back. */
  function Step(w: World, e: Event, sha: seq<byte> -> nat): World
    requires FilesSound(w.files)
  {
    var f := w.files;
    match e
    case ChooserOpens(session) => w.(files := OpenChooser(f, session))
    case PageChanges(session) => w.(files := DropChooser(f, session))
    case Delivering(confirmed) =>
      if f.committing.None? then w
      else
        var (after, effect, _) := FinishCommit(f, sha, confirmed);
        w.(files := after, effects := w.effects + if effect.Some? then [effect.value] else [])
    case Abandoning => w.(files := AbandonCommit(f))
    case _ => if f.committing.Some? then w else Operate(w, e)
  }

  function Operate(w: World, e: Event): World
    requires FilesSound(w.files) && w.files.committing.None?
  {
    match e
    case Cancelling(chooser) => w.(files := Cancel(w.files, chooser))
    case Beginning(id, value, destination, stored) => w.(files := Begin(w.files, id, value, destination, stored).0)
    case Writing(id, offset, data, reached) =>
      var (after, r) := Write(w.files, id, offset, data, reached);
      w.(files := after, accepted := w.accepted + if r.Success? then [Accepted(id, offset, data)] else [])
    case Committing(id, destination) => w.(files := StartCommit(w.files, id, destination).0)
    case _ => w
  }

  predicate FilesSound(f: Files) {
    && f.staged.Keys == f.contents.Keys
    && (forall id <- f.staged :: |f.contents[id]| <= f.staged[id].size)
    && (f.committing.Some? ==> f.committing.value in f.staged)
    && (f.chooser.Some? ==> f.chooser.value.id < f.nextChooser)
  }

  predicate Stored(f: Files, a: Accepted) {
    && a.id in f.contents && a.offset + |a.data| <= |f.contents[a.id]|
    && f.contents[a.id][a.offset..a.offset + |a.data|] == a.data
  }

  /** The file handed over is complete, is what was declared, and its chooser is gone for good. */
  predicate Delivered(f: Files, e: Effect, sha: seq<byte> -> nat) {
    && e.chooser < f.nextChooser && (f.chooser.Some? ==> f.chooser.value.id != e.chooser)
    && e.upload in f.staged && e.upload in f.contents && f.staged[e.upload].chooser == e.chooser
    && |f.contents[e.upload]| == f.staged[e.upload].size && sha(f.contents[e.upload]) == f.staged[e.upload].digest
  }

  predicate Distinct(effects: seq<Effect>) {
    forall i, j | 0 <= i < j < |effects| :: effects[i].chooser != effects[j].chooser
  }

  predicate Sound(w: World, sha: seq<byte> -> nat) {
    && FilesSound(w.files)
    && (forall a <- w.accepted :: Stored(w.files, a))
    && (forall e <- w.effects :: Delivered(w.files, e, sha))
    && Distinct(w.effects)
  }

  /** Files only grow at their end, declarations never change, choosers never come back. */
  predicate Extends(f: Files, g: Files) {
    && f.nextChooser <= g.nextChooser
    && (g.chooser.Some? ==> g.chooser == f.chooser || f.nextChooser <= g.chooser.value.id)
    && (forall id <- f.staged :: id in g.staged && g.staged[id] == f.staged[id])
    && (forall id <- f.contents :: id in g.contents && f.contents[id] <= g.contents[id])
  }

  lemma ExtendsKeepsStored(f: Files, g: Files, a: Accepted)
    requires Extends(f, g) && Stored(f, a)
    ensures Stored(g, a)
  {
    assert g.contents[a.id][..|f.contents[a.id]|] == f.contents[a.id];
    assert f.contents[a.id][a.offset..a.offset + |a.data|] == g.contents[a.id][a.offset..a.offset + |a.data|];
  }

  /** A complete file has no room left, so extending it changes nothing. */
  lemma ExtendsKeepsDelivered(f: Files, g: Files, e: Effect, sha: seq<byte> -> nat)
    requires Extends(f, g) && FilesSound(f) && FilesSound(g) && Delivered(f, e, sha)
    ensures Delivered(g, e, sha) && g.contents[e.upload] == f.contents[e.upload]
  {
    assert |g.contents[e.upload]| <= g.staged[e.upload].size;
    assert g.contents[e.upload] == f.contents[e.upload];
  }

  lemma GrowthExtends(f: Files, id: nat, more: seq<byte>)
    requires FilesSound(f) && id in f.staged && |f.contents[id]| + |more| <= f.staged[id].size
    ensures var g := f.(contents := f.contents[id := f.contents[id] + more]); FilesSound(g) && Extends(f, g)
  {
    var g := f.(contents := f.contents[id := f.contents[id] + more]);
    assert g.contents.Keys == f.contents.Keys;
    forall other <- f.contents ensures f.contents[other] <= g.contents[other] { }
  }

  lemma WriteExtends(f: Files, id: nat, offset: nat, data: seq<byte>, reached: Option<nat>)
    requires FilesSound(f)
    ensures FilesSound(Write(f, id, offset, data, reached).0) && Extends(f, Write(f, id, offset, data, reached).0)
  {
    if id in f.staged && offset == |f.contents[id]| && offset + |data| <= f.staged[id].size {
      GrowthExtends(f, id, data);
      if reached.Some? && reached.value < |data| { GrowthExtends(f, id, data[..reached.value]); }
    }
  }

  lemma WriteStores(f: Files, id: nat, offset: nat, data: seq<byte>, reached: Option<nat>)
    requires FilesSound(f) && Write(f, id, offset, data, reached).1.Success?
    ensures Stored(Write(f, id, offset, data, reached).0, Accepted(id, offset, data))
  {
    var file := f.contents[id];
    if offset == |file| {
      assert (file + data)[offset..offset + |data|] == data;
    }
  }

  lemma OperateExtends(w: World, e: Event)
    requires FilesSound(w.files) && w.files.committing.None?
    ensures FilesSound(Operate(w, e).files) && Extends(w.files, Operate(w, e).files)
  {
    match e
    case Writing(id, offset, data, reached) => WriteExtends(w.files, id, offset, data, reached);
    case Beginning(id, value, destination, stored) =>
      var f := Begin(w.files, id, value, destination, stored).0;
      assert f.staged.Keys == f.contents.Keys;
    case _ =>
  }

  lemma StepExtends(w: World, e: Event, sha: seq<byte> -> nat)
    requires FilesSound(w.files)
    ensures FilesSound(Step(w, e, sha).files) && Extends(w.files, Step(w, e, sha).files)
  {
    if !e.ChooserOpens? && !e.PageChanges? && !e.Delivering? && !e.Abandoning? && w.files.committing.None? { OperateExtends(w, e); }
  }

  lemma StepKeepsSound(w: World, e: Event, sha: seq<byte> -> nat)
    requires Sound(w, sha)
    ensures Sound(Step(w, e, sha), sha)
  {
    var next := Step(w, e, sha);
    StepExtends(w, e, sha);
    forall a <- w.accepted ensures Stored(next.files, a) { ExtendsKeepsStored(w.files, next.files, a); }
    forall x <- w.effects ensures Delivered(next.files, x, sha) { ExtendsKeepsDelivered(w.files, next.files, x, sha); }
    if e.Writing? && w.files.committing.None? && Write(w.files, e.id, e.offset, e.data, e.reached).1.Success? {
      WriteStores(w.files, e.id, e.offset, e.data, e.reached);
    }
    if next.effects != w.effects {
      var added := next.effects[|w.effects|];
      forall x <- next.effects ensures Delivered(next.files, x, sha) { }
      forall i | 0 <= i < |w.effects| ensures w.effects[i].chooser != added.chooser {
        assert Delivered(w.files, w.effects[i], sha);
      }
    }
  }

  function Steps(w: World, events: seq<Event>, sha: seq<byte> -> nat): (r: World)
    requires Sound(w, sha)
    ensures Sound(r, sha)
    decreases |events|
  {
    if events == [] then w
    else
      StepKeepsSound(w, events[0], sha);
      Steps(Step(w, events[0], sha), events[1..], sha)
  }

  const NO_UPLOADS := World(NO_FILES, [], [])

  lemma {:induction false} StepsExtend(w: World, events: seq<Event>, sha: seq<byte> -> nat)
    requires Sound(w, sha)
    ensures Extends(w.files, Steps(w, events, sha).files)
    decreases |events|
  {
    if events == [] {
    } else {
      var next := Step(w, events[0], sha);
      StepKeepsSound(w, events[0], sha);
      StepExtends(w, events[0], sha);
      StepsExtend(next, events[1..], sha);
      ExtendsTransitive(w.files, next.files, Steps(w, events, sha).files);
    }
  }

  lemma ExtendsTransitive(f: Files, g: Files, h: Files)
    requires Extends(f, g) && Extends(g, h)
    ensures Extends(f, h)
  {
  }

  /** Whatever is retried, reordered, overlapped or lost, every accepted chunk is at its offset from then on, and no file
      outgrows its declared size. */
  lemma AcceptedChunksStay(events: seq<Event>, later: seq<Event>, sha: seq<byte> -> nat, k: nat)
    requires k < |Steps(NO_UPLOADS, events, sha).accepted|
    ensures var w := Steps(Steps(NO_UPLOADS, events, sha), later, sha);
            && Stored(w.files, Steps(NO_UPLOADS, events, sha).accepted[k])
            && forall id <- w.files.staged :: |w.files.contents[id]| <= w.files.staged[id].size
  {
    var w := Steps(NO_UPLOADS, events, sha);
    StepsExtend(w, later, sha);
    assert Stored(w.files, w.accepted[k]);
    ExtendsKeepsStored(w.files, Steps(w, later, sha).files, w.accepted[k]);
  }

  /** Sending an accepted chunk again, at any later time, is accepted again and changes nothing. */
  lemma RetriesAreHarmless(events: seq<Event>, sha: seq<byte> -> nat, k: nat, reached: Option<nat>)
    requires k < |Steps(NO_UPLOADS, events, sha).accepted|
    ensures var w := Steps(NO_UPLOADS, events, sha);
            var a := w.accepted[k];
            Write(w.files, a.id, a.offset, a.data, reached) == (w.files, Success(a.offset + |a.data|))
  {
    AcceptedHaveBytes(NO_UPLOADS, events, sha);
    var w := Steps(NO_UPLOADS, events, sha);
    assert Stored(w.files, w.accepted[k]);
    assert w.accepted[k] in w.accepted;
  }

  predicate Sized(w: World) {
    forall a <- w.accepted :: 0 < |a.data| <= CHUNK && a.id in w.files.staged
  }

  lemma {:induction false} AcceptedHaveBytes(w: World, events: seq<Event>, sha: seq<byte> -> nat)
    requires Sound(w, sha) && Sized(w)
    ensures Sized(Steps(w, events, sha))
    decreases |events|
  {
    if events == [] {
    } else {
      StepKeepsSound(w, events[0], sha);
      StepExtends(w, events[0], sha);
      AcceptedHaveBytes(Step(w, events[0], sha), events[1..], sha);
    }
  }

  /** No chooser ever receives two files. */
  lemma ChoosersAreUsedOnce(events: seq<Event>, sha: seq<byte> -> nat, i: nat, j: nat)
    requires var effects := Steps(NO_UPLOADS, events, sha).effects;
             i < |effects| && j < |effects| && effects[i].chooser == effects[j].chooser
    ensures i == j
  {
    assert Distinct(Steps(NO_UPLOADS, events, sha).effects);
  }

  ghost predicate CollisionFree(sha: seq<byte> -> nat) {
    forall a, b :: sha(a) == sha(b) ==> a == b
  }

  /** A file that reached a chooser is, then and at every later time, exactly the file whose digest was declared. */
  lemma DeliveredFilesAreTheSource(events: seq<Event>, later: seq<Event>, sha: seq<byte> -> nat, k: nat, source: seq<byte>)
    requires CollisionFree(sha) && k < |Steps(NO_UPLOADS, events, sha).effects|
    requires var w := Steps(NO_UPLOADS, events, sha); var e := w.effects[k]; e.upload in w.files.staged ==> w.files.staged[e.upload].digest == sha(source)
    ensures var w := Steps(NO_UPLOADS, events, sha);
            var after := Steps(w, later, sha).files;
            var upload := w.effects[k].upload;
            upload in w.files.contents && upload in after.contents && w.files.contents[upload] == source && after.contents[upload] == source
  {
    var w := Steps(NO_UPLOADS, events, sha);
    assert Delivered(w.files, w.effects[k], sha);
    StepsExtend(w, later, sha);
    ExtendsKeepsDelivered(w.files, Steps(w, later, sha).files, w.effects[k], sha);
  }
}
