/** The privacy check of a page: a worklist over the frames of its tree, of the trees of its out-of-process frames, and of
    the frames joined to a parent by id. The browser's answers are inputs, and may contradict each other. */
module FrameTraversal {
  import opened Wrappers

  const MAX_FRAMES := 64
  const MAX_PAGES := 16

  datatype Tree = Tree(frame: nat, children: seq<Tree>)

  /** What running the check in one frame answers. */
  datatype Verdict = Clear | Sensitive | Broken

  /** An out-of-process frame: its own tree with the parent it names, and the tree its target answers later. */
  datatype Oop = Oop(frame: nat, tree: Tree, parent: Option<nat>, reread: Option<Tree>)

  datatype Page = Page(pages: seq<nat>, target: nat, tree: Tree, oop: seq<Oop>)

  /** A frame still to be checked, with the target through which it was found. */
  datatype Item = Item(node: Tree, inherited: nat)

  function Root(p: Page): Item {
    Item(p.tree, p.target)
  }

  function Find(oop: seq<Oop>, frame: nat): Option<Oop> {
    if oop == [] then None else if oop[0].frame == frame then Some(oop[0]) else Find(oop[1..], frame)
  }

  function Owner(p: Page, item: Item): nat {
    if Find(p.oop, item.node.frame).Some? then item.node.frame else item.inherited
  }

  /** The out-of-process frames that name this parent, in the order they were read. */
  function Joined(oop: seq<Oop>, parent: nat): seq<Item> {
    if oop == [] then []
    else
      var last := oop[|oop| - 1];
      Joined(oop[..|oop| - 1], parent) + (if last.parent == Some(parent) then [Item(last.tree, last.frame)] else [])
  }

  function Under(trees: seq<Tree>, owner: nat): seq<Item> {
    seq(|trees|, i requires 0 <= i < |trees| => Item(trees[i], owner))
  }

  /** Entering an out-of-process frame from a foreign tree also asks its own target for its tree. */
  predicate Rereads(p: Page, item: Item) {
    Owner(p, item) != item.inherited
  }

  function Reread(p: Page, item: Item): Option<Tree> {
    var found := Find(p.oop, item.node.frame);
    if found.Some? then found.value.reread else None
  }

  function Successors(p: Page, item: Item): seq<Item> {
    var own := if Rereads(p, item) && Reread(p, item).Some? then Reread(p, item).value.children else [];
    Under(item.node.children + own, Owner(p, item)) + Joined(p.oop, item.node.frame)
  }

  predicate Admissible(p: Page) {
    && 1 <= |p.pages| <= MAX_PAGES && |p.oop| <= MAX_FRAMES && p.target in p.pages
    && forall k | 0 <= k < |p.oop| :: p.oop[k].tree.frame == p.oop[k].frame && p.oop[k].parent.Some?
  }

  /** The worklist as a function: None is an unconfirmed check, otherwise whether everything seen was clear. */
  function Traverse(p: Page, check: (nat, nat) -> Verdict, pending: seq<Item>, seen: set<nat>): Option<bool>
    requires |seen| <= MAX_FRAMES
    decreases MAX_FRAMES - |seen|, |pending|
  {
    if pending == [] then Some(true)
    else
      var item, rest := pending[|pending| - 1], pending[..|pending| - 1];
      var frame := item.node.frame;
      if frame in seen then Traverse(p, check, rest, seen)
      else if |seen| == MAX_FRAMES then None
      else if check(Owner(p, item), frame) == Broken then None
      else if check(Owner(p, item), frame) == Sensitive then Some(false)
      else if Rereads(p, item) && Reread(p, item).None? then None
      else Traverse(p, check, rest + Successors(p, item), seen + {frame})
  }

  function Outcome(p: Page, check: (nat, nat) -> Verdict): Option<bool> {
    if !Admissible(p) then None else Traverse(p, check, [Root(p)], {})
  }

  function Lookup(byParent: map<nat, seq<Item>>, parent: nat): seq<Item> {
    if parent in byParent then byParent[parent] else []
  }

  ghost predicate Groups(byParent: map<nat, seq<Item>>, oop: seq<Oop>) {
    forall parent :: Lookup(byParent, parent) == Joined(oop, parent)
  }

  lemma GroupingGrows(byParent: map<nat, seq<Item>>, oop: seq<Oop>, parent: nat)
    requires oop != [] && Groups(byParent, oop[..|oop| - 1]) && oop[|oop| - 1].parent == Some(parent)
    ensures var last := oop[|oop| - 1];
            Groups(byParent[parent := Lookup(byParent, parent) + [Item(last.tree, last.frame)]], oop)
  {
    var last := oop[|oop| - 1];
    var longer := byParent[parent := Lookup(byParent, parent) + [Item(last.tree, last.frame)]];
    forall other: nat ensures Lookup(longer, other) == Joined(oop, other) {
      assert Lookup(byParent, other) == Joined(oop[..|oop| - 1], other);
    }
  }

  /** Groups the out-of-process frames by the parent they name, rejecting one whose tree is not its own. */
  method JoinByParent(oop: seq<Oop>) returns (joined: Option<map<nat, seq<Item>>>)
    ensures joined.Some? <==> forall k | 0 <= k < |oop| :: oop[k].tree.frame == oop[k].frame && oop[k].parent.Some?
    ensures joined.Some? ==> Groups(joined.value, oop)
  {
    var byParent: map<nat, seq<Item>> := map[];
    for k := 0 to |oop|
      invariant forall j | 0 <= j < k :: oop[j].tree.frame == oop[j].frame && oop[j].parent.Some?
      invariant Groups(byParent, oop[..k])
    {
      var frame := oop[k];
      if frame.tree.frame != frame.frame || frame.parent.None? { return None; }
      var parent := frame.parent.value;
      assert oop[..k + 1][..k] == oop[..k];
      GroupingGrows(byParent, oop[..k + 1], parent);
      byParent := byParent[parent := Lookup(byParent, parent) + [Item(frame.tree, frame.frame)]];
    }
    assert oop[..|oop|] == oop;
    return Some(byParent);
  }

  /** The children found while walking are the successors of the definition. */
  lemma StitchedSuccessors(p: Page, byParent: map<nat, seq<Item>>, item: Item, children: seq<Tree>)
    requires Groups(byParent, p.oop)
    requires Rereads(p, item) ==> Reread(p, item).Some? && children == item.node.children + Reread(p, item).value.children
    requires !Rereads(p, item) ==> children == item.node.children
    ensures Under(children, Owner(p, item)) + Lookup(byParent, item.node.frame) == Successors(p, item)
  {
    assert item.node.children + [] == item.node.children;
  }

  method SensitiveClear(p: Page, check: (nat, nat) -> Verdict) returns (r: Option<bool>)
    ensures r == Outcome(p, check)
  {
    if !(1 <= |p.pages| <= MAX_PAGES) || |p.oop| > MAX_FRAMES || p.target !in p.pages { return None; }
    var joined := JoinByParent(p.oop);
    if joined.None? { return None; }
    var byParent := joined.value;
    var pending, seen: set<nat> := [Item(p.tree, p.target)], {};
    while pending != []
      invariant |seen| <= MAX_FRAMES
      invariant Outcome(p, check) == Traverse(p, check, pending, seen)
      decreases MAX_FRAMES - |seen|, |pending|
    {
      var item := pending[|pending| - 1];
      pending := pending[..|pending| - 1];
      var frame := item.node.frame;
      if frame in seen { continue; }
      if |seen + {frame}| > MAX_FRAMES { return None; }
      var found := Find(p.oop, frame);
      var owner := if found.Some? then frame else item.inherited;
      match check(owner, frame) {
        case Broken => return None;
        case Sensitive => return Some(false);
        case Clear =>
      }
      var children := item.node.children;
      if owner != item.inherited {
        if found.None? || found.value.reread.None? { return None; }
        children := children + found.value.reread.value.children;
      }
      StitchedSuccessors(p, byParent, item, children);
      seen := seen + {frame};
      pending := pending + (Under(children, owner) + Lookup(byParent, frame));
    }
    return Some(true);
  }

  // ---------------------------------------------------------------- what is reachable, on the page's own data

  /** This frame is a target of its own. */
  predicate OutOfProcess(p: Page, frame: nat) {
    exists o <- p.oop :: o.frame == frame
  }

  /** The k-th out-of-process frame is the one that answers for this frame. */
  predicate Answers(p: Page, frame: nat, k: int) {
    0 <= k < |p.oop| && p.oop[k].frame == frame && forall j | 0 <= j < k :: p.oop[j].frame != frame
  }

  /** The target a frame is checked through: its own, or the one it was found through. */
  function Through(p: Page, item: Item): nat {
    if OutOfProcess(p, item.node.frame) then item.node.frame else item.inherited
  }

  predicate LeadsToChild(p: Page, item: Item, next: Item) {
    next.inherited == Through(p, item) && next.node in item.node.children
  }

  /** An out-of-process frame found in a foreign tree also shows the children its own target answers later. */
  ghost predicate LeadsIntoItsTarget(p: Page, item: Item, next: Item) {
    && item.inherited != item.node.frame && next.inherited == item.node.frame
    && exists k :: Answers(p, item.node.frame, k) && p.oop[k].reread.Some? && next.node in p.oop[k].reread.value.children
  }

  /** The k-th out-of-process frame names this parent. */
  predicate Names(oop: seq<Oop>, k: int, parent: nat, next: Item) {
    0 <= k < |oop| && oop[k].parent == Some(parent) && next == Item(oop[k].tree, oop[k].frame)
  }

  ghost predicate LeadsByParent(p: Page, item: Item, next: Item) {
    exists k :: Names(p.oop, k, item.node.frame, next)
  }

  ghost predicate Leads(p: Page, item: Item, next: Item) {
    LeadsToChild(p, item, next) || LeadsIntoItsTarget(p, item, next) || LeadsByParent(p, item, next)
  }

  lemma {:induction false} FindAnswers(p: Page, oop: seq<Oop>, from: nat, frame: nat)
    requires from <= |p.oop| && oop == p.oop[from..] && forall j | 0 <= j < from :: p.oop[j].frame != frame
    ensures Find(oop, frame).Some? <==> OutOfProcess(p, frame)
    ensures Find(oop, frame).Some? ==> exists k :: Answers(p, frame, k) && p.oop[k] == Find(oop, frame).value
    decreases |oop|
  {
    if oop == [] {
    } else if oop[0].frame == frame {
      assert Answers(p, frame, from) && p.oop[from] in p.oop;
    } else {
      FindAnswers(p, oop[1..], from + 1, frame);
    }
  }

  lemma OwnerIsThrough(p: Page, item: Item)
    ensures Owner(p, item) == Through(p, item)
    ensures Rereads(p, item) <==> OutOfProcess(p, item.node.frame) && item.inherited != item.node.frame
    ensures Rereads(p, item) ==> exists k :: Answers(p, item.node.frame, k) && p.oop[k].reread == Reread(p, item)
  {
    assert p.oop[0..] == p.oop;
    FindAnswers(p, p.oop, 0, item.node.frame);
  }

  lemma {:induction false} JoinedByParent(oop: seq<Oop>, parent: nat, next: Item)
    ensures next in Joined(oop, parent) <==> exists k :: Names(oop, k, parent, next)
  {
    if oop == [] {
    } else {
      var n := |oop| - 1;
      JoinedByParent(oop[..n], parent, next);
      if k :| Names(oop, k, parent, next) {
        assert k < n ==> Names(oop[..n], k, parent, next);
      }
      if k :| Names(oop[..n], k, parent, next) {
        assert Names(oop, k, parent, next);
      }
      assert Names(oop, n, parent, next) <==> oop[n].parent == Some(parent) && next == Item(oop[n].tree, oop[n].frame);
    }
  }

  lemma UnderHoldsEveryTree(trees: seq<Tree>, owner: nat, next: Item)
    ensures next in Under(trees, owner) <==> next.inherited == owner && next.node in trees
  {
    if next.inherited == owner && next.node in trees {
      var k :| 0 <= k < |trees| && trees[k] == next.node;
      assert Under(trees, owner)[k] == next;
    }
  }

  /** The children the target of this frame answers, if it is asked. */
  lemma RereadLeadsInside(p: Page, item: Item, next: Item)
    ensures LeadsIntoItsTarget(p, item, next) <==>
              && Rereads(p, item) && Reread(p, item).Some?
              && next.node in Reread(p, item).value.children && next.inherited == item.node.frame
  {
    OwnerIsThrough(p, item);
    forall k | Answers(p, item.node.frame, k) ensures OutOfProcess(p, item.node.frame) { assert p.oop[k] in p.oop; }
    if Rereads(p, item) {
      var k :| Answers(p, item.node.frame, k) && p.oop[k].reread == Reread(p, item);
      forall j | Answers(p, item.node.frame, j) ensures j == k { }
    }
  }

  /** The walk goes exactly where the page leads. */
  lemma SuccessorsAreWhereItLeads(p: Page, item: Item, next: Item)
    ensures next in Successors(p, item) <==> Leads(p, item, next)
  {
    OwnerIsThrough(p, item);
    RereadLeadsInside(p, item, next);
    JoinedByParent(p.oop, item.node.frame, next);
    var own := if Rereads(p, item) && Reread(p, item).Some? then Reread(p, item).value.children else [];
    UnderHoldsEveryTree(item.node.children + own, Owner(p, item), next);
    assert next.node in item.node.children + own <==> next.node in item.node.children || next.node in own;
  }

  ghost predicate IsPath(p: Page, path: seq<Item>) {
    && path != [] && path[0] == Root(p)
    && forall k | 0 < k < |path| :: Leads(p, path[k - 1], path[k])
  }

  ghost predicate Reachable(p: Page, item: Item) {
    exists path :: IsPath(p, path) && path[|path| - 1] == item
  }

  lemma RootIsReachable(p: Page)
    ensures Reachable(p, Root(p))
  {
    assert IsPath(p, [Root(p)]);
  }

  lemma SuccessorsAreReachable(p: Page, item: Item)
    requires Reachable(p, item)
    ensures forall next <- Successors(p, item) :: Reachable(p, next)
  {
    var path :| IsPath(p, path) && path[|path| - 1] == item;
    forall next <- Successors(p, item) ensures Reachable(p, next) {
      SuccessorsAreWhereItLeads(p, item, next);
      assert IsPath(p, path + [next]);
    }
  }

  predicate HasFrame(items: seq<Item>, frame: nat) {
    exists item <- items :: item.node.frame == frame
  }

  /** done witnesses a finished check: it holds a frame for the root and for every successor of a frame it holds, and each
      was reachable and clear. */
  ghost predicate Certificate(p: Page, check: (nat, nat) -> Verdict, done: seq<Item>) {
    && HasFrame(done, p.tree.frame)
    && (forall item <- done :: Reachable(p, item) && check(Owner(p, item), item.node.frame) == Clear)
    && (forall item <- done :: forall next <- Successors(p, item) :: HasFrame(done, next.node.frame))
  }

  /** The traversal's invariant, with the items it has checked so far. */
  ghost predicate Progress(p: Page, check: (nat, nat) -> Verdict, pending: seq<Item>, seen: set<nat>, done: seq<Item>) {
    && (forall item <- pending :: Reachable(p, item))
    && (forall item <- done :: Reachable(p, item) && check(Owner(p, item), item.node.frame) == Clear && item.node.frame in seen)
    && (forall frame <- seen :: HasFrame(done, frame))
    && (p.tree.frame in seen || Root(p) in pending)
    && (forall item <- done :: forall next <- Successors(p, item) :: next.node.frame in seen || next in pending)
  }

  lemma SkipKeepsProgress(p: Page, check: (nat, nat) -> Verdict, pending: seq<Item>, seen: set<nat>, done: seq<Item>)
    requires Progress(p, check, pending, seen, done) && pending != [] && pending[|pending| - 1].node.frame in seen
    ensures Progress(p, check, pending[..|pending| - 1], seen, done)
  {
    var item, rest := pending[|pending| - 1], pending[..|pending| - 1];
    forall other <- pending ensures other == item || other in rest { }
  }

  lemma CheckKeepsProgress(p: Page, check: (nat, nat) -> Verdict, pending: seq<Item>, seen: set<nat>, done: seq<Item>)
    requires Progress(p, check, pending, seen, done) && pending != []
    requires var item := pending[|pending| - 1]; check(Owner(p, item), item.node.frame) == Clear
    ensures var item := pending[|pending| - 1];
            Progress(p, check, pending[..|pending| - 1] + Successors(p, item), seen + {item.node.frame}, done + [item])
  {
    var item, rest := pending[|pending| - 1], pending[..|pending| - 1];
    var more := rest + Successors(p, item);
    SuccessorsAreReachable(p, item);
    forall other <- pending ensures other == item || other in more { }
    forall frame <- seen + {item.node.frame} ensures HasFrame(done + [item], frame) {
      if frame == item.node.frame {
        assert (done + [item])[|done|] == item;
      } else {
        var prior :| prior in done && prior.node.frame == frame;
        assert prior in done + [item];
      }
    }
  }

  lemma {:induction false} TraversalCertifies(p: Page, check: (nat, nat) -> Verdict, pending: seq<Item>, seen: set<nat>, done: seq<Item>)
    returns (all: seq<Item>, frames: set<nat>)
    requires Progress(p, check, pending, seen, done) && |seen| <= MAX_FRAMES
    requires Traverse(p, check, pending, seen) == Some(true)
    ensures Certificate(p, check, all) && |frames| <= MAX_FRAMES && forall item <- all :: item.node.frame in frames
    decreases MAX_FRAMES - |seen|, |pending|
  {
    if pending == [] {
      return done, seen;
    }
    var item, rest := pending[|pending| - 1], pending[..|pending| - 1];
    if item.node.frame in seen {
      SkipKeepsProgress(p, check, pending, seen, done);
      all, frames := TraversalCertifies(p, check, rest, seen, done);
    } else {
      CheckKeepsProgress(p, check, pending, seen, done);
      all, frames := TraversalCertifies(p, check, rest + Successors(p, item), seen + {item.node.frame}, done + [item]);
    }
  }

  /** The browser describes one frame the same way wherever it appears. */
  ghost predicate Consistent(p: Page) {
    forall a, b :: Reachable(p, a) && Reachable(p, b) && a.node.frame == b.node.frame ==>
      forall next | Leads(p, a, next) :: exists same :: Leads(p, b, same) && same.node.frame == next.node.frame
  }

  /** The same, as the walk sees it. */
  ghost predicate Agrees(p: Page) {
    forall a, b :: Reachable(p, a) && Reachable(p, b) && a.node.frame == b.node.frame ==>
      forall next <- Successors(p, a) :: HasFrame(Successors(p, b), next.node.frame)
  }

  lemma ConsistentFramesAgree(p: Page, a: Item, b: Item, next: Item)
    requires forall next | Leads(p, a, next) :: exists same :: Leads(p, b, same) && same.node.frame == next.node.frame
    requires next in Successors(p, a)
    ensures HasFrame(Successors(p, b), next.node.frame)
  {
    SuccessorsAreWhereItLeads(p, a, next);
    var same :| Leads(p, b, same) && same.node.frame == next.node.frame;
    SuccessorsAreWhereItLeads(p, b, same);
  }

  lemma ConsistentPagesAgree(p: Page)
    requires Consistent(p)
    ensures Agrees(p)
  {
    forall a, b | Reachable(p, a) && Reachable(p, b) && a.node.frame == b.node.frame
      ensures forall next <- Successors(p, a) :: HasFrame(Successors(p, b), next.node.frame)
    {
      forall next <- Successors(p, a) ensures HasFrame(Successors(p, b), next.node.frame) { ConsistentFramesAgree(p, a, b, next); }
    }
  }

  predicate IsWalk(p: Page, path: seq<Item>) {
    && path != [] && path[0] == Root(p)
    && forall k | 0 < k < |path| :: path[k] in Successors(p, path[k - 1])
  }

  lemma PathsAreWalks(p: Page, path: seq<Item>)
    requires IsPath(p, path)
    ensures IsWalk(p, path)
  {
    forall k | 0 < k < |path| ensures path[k] in Successors(p, path[k - 1]) { SuccessorsAreWhereItLeads(p, path[k - 1], path[k]); }
  }

  lemma CoverageSpreads(p: Page, check: (nat, nat) -> Verdict, done: seq<Item>, item: Item, next: Item)
    requires Certificate(p, check, done) && Agrees(p) && Reachable(p, item) && next in Successors(p, item)
    requires HasFrame(done, item.node.frame)
    ensures HasFrame(done, next.node.frame)
  {
    var twin :| twin in done && twin.node.frame == item.node.frame;
    assert HasFrame(Successors(p, twin), next.node.frame);
    var same :| same in Successors(p, twin) && same.node.frame == next.node.frame;
    assert HasFrame(done, same.node.frame);
  }

  lemma {:induction false} CertificateCovers(p: Page, check: (nat, nat) -> Verdict, done: seq<Item>, path: seq<Item>)
    requires Certificate(p, check, done) && Agrees(p) && IsWalk(p, path)
    ensures Reachable(p, path[|path| - 1]) && HasFrame(done, path[|path| - 1].node.frame)
    decreases |path|
  {
    if |path| == 1 {
      RootIsReachable(p);
    } else {
      var before, last := path[..|path| - 1], path[|path| - 1];
      CertificateCovers(p, check, done, before);
      assert last in Successors(p, before[|before| - 1]);
      SuccessorsAreReachable(p, before[|before| - 1]);
      CoverageSpreads(p, check, done, before[|before| - 1], last);
    }
  }

  /** Some reachable appearance of the frame was checked and found clear. */
  ghost predicate FoundClear(p: Page, check: (nat, nat) -> Verdict, frame: nat) {
    exists item :: Reachable(p, item) && item.node.frame == frame && check(Through(p, item), frame) == Clear
  }

  /** A clear answer means that every frame the page leads to, through every child in a tree, through the tree an out-of-process
      frame's own target answers, and to every frame that names its parent, was checked through its own target or the one it was
      found through and found clear, and that there are at most 64. */
  lemma ClearCoversEveryFrame(p: Page, check: (nat, nat) -> Verdict) returns (frames: set<nat>)
    requires Outcome(p, check) == Some(true) && Consistent(p)
    ensures |frames| <= 64
    ensures forall item :: Reachable(p, item) ==> item.node.frame in frames && FoundClear(p, check, item.node.frame)
  {
    RootIsReachable(p);
    assert Root(p) in [Root(p)];
    ConsistentPagesAgree(p);
    var all, seen := TraversalCertifies(p, check, [Root(p)], {}, []);
    frames := seen;
    forall item | Reachable(p, item) ensures item.node.frame in frames && FoundClear(p, check, item.node.frame) {
      var path :| IsPath(p, path) && path[|path| - 1] == item;
      PathsAreWalks(p, path);
      CertificateCovers(p, check, all, path);
      var twin :| twin in all && twin.node.frame == item.node.frame;
      assert Reachable(p, twin);
      OwnerIsThrough(p, twin);
    }
  }

  /** The target of this frame has to be asked for its tree and does not answer. */
  ghost predicate Unreadable(p: Page, item: Item) {
    item.inherited != item.node.frame && exists k :: Answers(p, item.node.frame, k) && p.oop[k].reread.None?
  }

  ghost predicate Trouble(p: Page, check: (nat, nat) -> Verdict, item: Item) {
    Reachable(p, item) && (check(Through(p, item), item.node.frame) == Broken || Unreadable(p, item))
  }

  ghost predicate TooMany(p: Page, frames: set<nat>) {
    |frames| > 64 && forall frame <- frames :: exists item :: Reachable(p, item) && item.node.frame == frame
  }

  lemma {:induction false} TraversalExplains(p: Page, check: (nat, nat) -> Verdict, pending: seq<Item>, seen: set<nat>, done: seq<Item>)
    requires Progress(p, check, pending, seen, done) && |seen| <= MAX_FRAMES
    ensures Traverse(p, check, pending, seen) == Some(false) ==>
              exists item :: Reachable(p, item) && check(Through(p, item), item.node.frame) == Sensitive
    ensures Traverse(p, check, pending, seen) == None ==>
              (exists item :: Trouble(p, check, item)) || exists frames: set<nat> :: TooMany(p, frames)
    decreases MAX_FRAMES - |seen|, |pending|
  {
    if pending != [] {
      var item, rest := pending[|pending| - 1], pending[..|pending| - 1];
      var frame := item.node.frame;
      assert Reachable(p, item);
      OwnerIsThrough(p, item);
      if frame in seen {
        SkipKeepsProgress(p, check, pending, seen, done);
        TraversalExplains(p, check, rest, seen, done);
      } else if |seen| == MAX_FRAMES {
        forall f <- seen + {frame} ensures exists item :: Reachable(p, item) && item.node.frame == f {
          if f != frame { assert HasFrame(done, f); }
        }
        assert TooMany(p, seen + {frame});
      } else if check(Owner(p, item), frame) == Clear && !(Rereads(p, item) && Reread(p, item).None?) {
        CheckKeepsProgress(p, check, pending, seen, done);
        TraversalExplains(p, check, rest + Successors(p, item), seen + {frame}, done + [item]);
      } else {
        assert Trouble(p, check, item) || check(Through(p, item), frame) == Sensitive;
      }
    }
  }

  /** The other answers have their reasons too: false only for a sensitive reachable frame, and no answer only for a broken
      check, an unreadable frame, too many frames, or targets that do not fit together. So a page whose frames are all clear is
      found clear. */
  lemma OtherAnswersHaveReasons(p: Page, check: (nat, nat) -> Verdict)
    ensures Outcome(p, check) == Some(false) ==>
              exists item :: Reachable(p, item) && check(Through(p, item), item.node.frame) == Sensitive
    ensures var fits := 1 <= |p.pages| <= 16 && |p.oop| <= 64 && p.target in p.pages
                        && forall o <- p.oop :: o.tree.frame == o.frame && o.parent.Some?;
            && (!fits ==> Outcome(p, check) == None)
            && (fits && Outcome(p, check) == None ==>
                  (exists item :: Trouble(p, check, item)) || exists frames: set<nat> :: TooMany(p, frames))
  {
    RootIsReachable(p);
    assert Root(p) in [Root(p)];
    TraversalExplains(p, check, [Root(p)], {}, []);
  }
}
