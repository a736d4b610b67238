/** Host-side provenance of collected downloads: the first observation decides who produced a file, and every observation
    can only restrict who may see it. */
module DownloadReceipts {
  import opened Wrappers

  datatype Receipt = Receipt(hidden: bool, assistant: bool, run: Option<nat>)

  /** In whose hands the browser was when it was listed: under an admitted run, or under an observe grant. */
  datatype Hands = Hands(agent: bool, observing: bool, run: Option<nat>)

  /** A listed file; the guest may claim more privacy for it, never less. */
  datatype Item = Item(file: nat, claimsPrivate: bool)

  datatype Sighting = Sighting(file: nat, receipt: Receipt)

  function See(hands: Hands, item: Item): Sighting {
    Sighting(item.file, Receipt(!(hands.agent || hands.observing) || item.claimsPrivate, hands.agent,
                                if hands.agent then hands.run else None))
  }

  /** Inserted once; afterwards only the hidden flag can be set. */
  function Note(rows: map<nat, Receipt>, s: Sighting): map<nat, Receipt> {
    if s.file !in rows then rows[s.file := s.receipt]
    else if s.receipt.hidden then rows[s.file := rows[s.file].(hidden := true)] else rows
  }

  function NoteAll(rows: map<nat, Receipt>, sightings: seq<Sighting>): map<nat, Receipt> {
    if sightings == [] then rows else Note(NoteAll(rows, sightings[..|sightings| - 1]), sightings[|sightings| - 1])
  }

  class Receipts {
    var rows: map<nat, Receipt>
    ghost var sightings: seq<Sighting>

    ghost predicate Valid()
      reads this
    {
      rows == NoteAll(map[], sightings)
    }

    constructor ()
      ensures Valid() && sightings == []
    {
      rows, sightings := map[], [];
    }

    method NoteItem(hands: Hands, item: Item) returns (receipt: Receipt)
      requires Valid()
      modifies this
      ensures Valid() && sightings == old(sightings) + [See(hands, item)]
      ensures rows == Note(old(rows), See(hands, item)) && receipt == rows[item.file]
    {
      var hidden := !(hands.agent || hands.observing) || item.claimsPrivate;
      if item.file !in rows {
        rows := rows[item.file := Receipt(hidden, hands.agent, if hands.agent then hands.run else None)];
      }
      if hidden {
        rows := rows[item.file := rows[item.file].(hidden := true)];
      }
      ghost var before := sightings;
      sightings := sightings + [See(hands, item)];
      assert sightings[..|sightings| - 1] == before;
      return rows[item.file];
    }

    /** Notes every file of a listing, in order, and answers each with the receipt that then stood. */
    method Collect(hands: Hands, items: seq<Item>) returns (receipts: seq<Receipt>)
      requires Valid()
      modifies this
      ensures Valid() && receipts == Told(old(rows), hands, items)
      ensures sightings == old(sightings) + SeeAll(hands, items)
    {
      receipts := [];
      for k := 0 to |items|
        invariant Valid() && rows == NoteAll(old(rows), SeeAll(hands, items[..k]))
        invariant sightings == old(sightings) + SeeAll(hands, items[..k])
        invariant receipts == Told(old(rows), hands, items[..k])
      {
        var receipt := NoteItem(hands, items[k]);
        receipts := receipts + [receipt];
        SeeOneMore(old(rows), old(sightings), hands, items, k);
      }
      assert items[..|items|] == items;
    }
  }

  function SeeAll(hands: Hands, items: seq<Item>): seq<Sighting> {
    if items == [] then [] else SeeAll(hands, items[..|items| - 1]) + [See(hands, items[|items| - 1])]
  }

  /** The receipts that stand right after each item of a listing was noted. */
  function Told(rows: map<nat, Receipt>, hands: Hands, items: seq<Item>): seq<Receipt> {
    if items == [] then []
    else
      var front, last := items[..|items| - 1], items[|items| - 1];
      Told(rows, hands, front) + [Note(NoteAll(rows, SeeAll(hands, front)), See(hands, last))[last.file]]
  }

  lemma SeeOneMore(rows: map<nat, Receipt>, start: seq<Sighting>, hands: Hands, items: seq<Item>, k: nat)
    requires k < |items|
    ensures var seen, all := SeeAll(hands, items[..k]), SeeAll(hands, items[..k + 1]);
            && start + seen + [See(hands, items[k])] == start + all
            && NoteAll(rows, all) == Note(NoteAll(rows, seen), See(hands, items[k]))
            && Told(rows, hands, items[..k + 1]) == Told(rows, hands, items[..k]) + [NoteAll(rows, all)[items[k].file]]
  {
    assert items[..k + 1][..k] == items[..k];
    var all := SeeAll(hands, items[..k + 1]);
    assert all[..|all| - 1] == SeeAll(hands, items[..k]);
  }

  predicate Seen(sightings: seq<Sighting>, file: nat) {
    exists k :: 0 <= k < |sightings| && sightings[k].file == file
  }

  predicate EverHidden(sightings: seq<Sighting>, file: nat) {
    exists k :: 0 <= k < |sightings| && sightings[k].file == file && sightings[k].receipt.hidden
  }

  lemma OneMoreSighting(front: seq<Sighting>, last: Sighting, file: nat)
    ensures Seen(front + [last], file) <==> Seen(front, file) || last.file == file
    ensures EverHidden(front + [last], file) <==> EverHidden(front, file) || (last.file == file && last.receipt.hidden)
  {
    var all := front + [last];
    assert all[|front|] == last;
    if Seen(front, file) {
      var k :| 0 <= k < |front| && front[k].file == file;
      assert all[k].file == file;
    }
    if EverHidden(front, file) {
      var k :| 0 <= k < |front| && front[k].file == file && front[k].receipt.hidden;
      assert all[k].file == file && all[k].receipt.hidden;
    }
  }

  /** A file has a receipt if and only if it was ever listed, and is hidden if and only if some listing hid it: out of the
      owner's sight or claimed private by the guest. So it never becomes visible again. */
  lemma {:induction false} HiddenOnceHidden(sightings: seq<Sighting>, file: nat)
    ensures var rows := NoteAll(map[], sightings);
            && (file in rows <==> Seen(sightings, file))
            && (file in rows ==> (rows[file].hidden <==> EverHidden(sightings, file)))
    decreases |sightings|
  {
    if sightings == [] {
    } else {
      var front, last := sightings[..|sightings| - 1], sightings[|sightings| - 1];
      HiddenOnceHidden(front, file);
      OneMoreSighting(front, last, file);
      assert sightings == front + [last];
    }
  }

  /** The producer and the run of a file are those of its first listing, whatever later listings say. */
  lemma {:induction false} FirstSightingPins(sightings: seq<Sighting>, k: nat)
    requires k < |sightings| && !Seen(sightings[..k], sightings[k].file)
    ensures var rows, file := NoteAll(map[], sightings), sightings[k].file;
            file in rows && rows[file].assistant == sightings[k].receipt.assistant && rows[file].run == sightings[k].receipt.run
    decreases |sightings|
  {
    var front := sightings[..|sightings| - 1];
    if k == |front| {
      HiddenOnceHidden(front, sightings[k].file);
    } else {
      assert front[..k] == sightings[..k];
      FirstSightingPins(front, k);
    }
  }

  predicate Lists(items: seq<Item>, file: nat) {
    exists item <- items :: item.file == file
  }

  /** The guest claims privacy for this file somewhere in the listing. */
  predicate Claims(items: seq<Item>, file: nat) {
    exists item <- items :: item.file == file && item.claimsPrivate
  }

  lemma OneMoreItem(front: seq<Item>, last: Item, file: nat)
    ensures Lists(front + [last], file) <==> Lists(front, file) || last.file == file
    ensures Claims(front + [last], file) <==> Claims(front, file) || (last.file == file && last.claimsPrivate)
  {
    assert forall item <- front :: item in front + [last];
    assert last in front + [last];
    assert forall item <- front + [last] :: item in front || item == last;
  }

  /** What was recorded of a file before a listing, and what the listing makes of it. */
  predicate Follows(rows: map<nat, Receipt>, hands: Hands, listed: bool, claimed: bool, file: nat, after: Receipt) {
    && (after.hidden <==> || (file in rows && rows[file].hidden) || claimed || (listed && !hands.agent && !hands.observing))
    && after.assistant == (if file in rows then rows[file].assistant else hands.agent)
    && after.run == (if file in rows then rows[file].run else if hands.agent then hands.run else None)
  }

  /** The row of a file after a listing. */
  lemma {:induction false} ListingsAddUp(rows: map<nat, Receipt>, hands: Hands, items: seq<Item>, file: nat)
    ensures var after := NoteAll(rows, SeeAll(hands, items));
            && (file in after <==> file in rows || Lists(items, file))
            && (file in after ==> Follows(rows, hands, Lists(items, file), Claims(items, file), file, after[file]))
    decreases |items|
  {
    if items == [] {
    } else {
      var front, last := items[..|items| - 1], items[|items| - 1];
      ListingsAddUp(rows, hands, front, file);
      OneMoreItem(front, last, file);
      assert front + [last] == items;
      var all := SeeAll(hands, items);
      assert all[..|all| - 1] == SeeAll(hands, front);
    }
  }

  /** What a listing tells of each of its files: hidden if it was hidden before, if the browser is neither in the agent's hands nor
      observed, or if the guest claimed so, here or earlier in the listing; produced as it was first recorded, and otherwise by the
      run in whose hands the browser is, if any. */
  lemma {:induction false} ListingsDecide(rows: map<nat, Receipt>, hands: Hands, items: seq<Item>, k: nat)
    requires k < |items|
    ensures var told, file := Told(rows, hands, items), items[k].file;
            |told| == |items| && Follows(rows, hands, true, Claims(items[..k + 1], file), file, told[k])
    decreases |items|
  {
    var front, last := items[..|items| - 1], items[|items| - 1];
    ToldOfEach(rows, hands, front);
    if k < |front| {
      ListingsDecide(rows, hands, front, k);
      assert front[..k + 1] == items[..k + 1];
    } else {
      ListingsAddUp(rows, hands, front, last.file);
      OneMoreItem(front, last, last.file);
      assert front + [last] == items == items[..k + 1];
    }
  }

  lemma {:induction false} ToldOfEach(rows: map<nat, Receipt>, hands: Hands, items: seq<Item>)
    ensures |Told(rows, hands, items)| == |items|
  {
    if items == [] {
    } else {
      ToldOfEach(rows, hands, items[..|items| - 1]);
    }
  }
}
