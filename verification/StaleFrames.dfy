/** A page whose frames changed while the privacy check read them. */
module StaleFrames {
  import opened Wrappers
  import opened FrameTraversal

  /** Read one after the other: frame 2 still had its child in the page's tree, and was out of process without that child
      when its own tree was read. */
  const HIDDEN := Tree(3, [])
  const EARLY := Item(Tree(2, [HIDDEN]), 1)
  const LATE := Item(Tree(2, []), 2)
  const STALE_PAGE := Page([1], 1, Tree(1, [EARLY.node]), [Oop(2, LATE.node, Some(1), Some(LATE.node))])

  function OnlyThreeIsSensitive(owner: nat, frame: nat): Verdict {
    if frame == 3 then Sensitive else Clear
  }

  lemma StaleSuccessors()
    ensures Successors(STALE_PAGE, Root(STALE_PAGE)) == [EARLY, LATE]
    ensures Successors(STALE_PAGE, EARLY) == [Item(HIDDEN, 2)]
    ensures Successors(STALE_PAGE, LATE) == []
  {
    var oop := STALE_PAGE.oop;
    assert oop[..0] == [];
    assert Joined(oop, 1) == Joined([], 1) + [LATE] == [LATE] && Joined(oop, 2) == Joined([], 2) + [] == [];
    assert Under([EARLY.node] + [], 1) == [EARLY];
    assert Under([HIDDEN] + [], 2) == [Item(HIDDEN, 2)];
  }

  lemma StaleTraversal()
    ensures Outcome(STALE_PAGE, OnlyThreeIsSensitive) == Some(true)
  {
    StaleSuccessors();
    assert [EARLY, LATE][..1] == [EARLY] && [EARLY] + [] == [EARLY] && {1} + {2} == {1, 2} && {} + {1} == {1};
    assert Traverse(STALE_PAGE, OnlyThreeIsSensitive, [EARLY], {1, 2}) == Some(true);
    assert Traverse(STALE_PAGE, OnlyThreeIsSensitive, [EARLY, LATE], {1}) == Some(true);
    assert [Root(STALE_PAGE)][..0] + Successors(STALE_PAGE, Root(STALE_PAGE)) == [EARLY, LATE];
  }

  /** Without consistency the coverage fails: only the later description of frame 2 is followed, and the sensitive frame 3
      under the earlier one is never checked. */
  lemma InconsistentTreesCanHideAFrame()
    ensures Outcome(STALE_PAGE, OnlyThreeIsSensitive) == Some(true) && !Consistent(STALE_PAGE)
    ensures Reachable(STALE_PAGE, Item(HIDDEN, 2)) && OnlyThreeIsSensitive(2, 3) == Sensitive
  {
    StaleTraversal();
    StaleSuccessors();
    RootIsReachable(STALE_PAGE);
    SuccessorsAreReachable(STALE_PAGE, Root(STALE_PAGE));
    assert EARLY in [EARLY, LATE] && LATE in [EARLY, LATE] && Item(HIDDEN, 2) in [Item(HIDDEN, 2)];
    SuccessorsAreReachable(STALE_PAGE, EARLY);
    SuccessorsAreWhereItLeads(STALE_PAGE, EARLY, Item(HIDDEN, 2));
    forall same | Leads(STALE_PAGE, LATE, same) ensures false { SuccessorsAreWhereItLeads(STALE_PAGE, LATE, same); }
  }
}
