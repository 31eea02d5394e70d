// The browser-side trash (src/lib/trash.ts): deleted cards kept for thirty
// days under one localStorage key, newest first.
//
// The key's content is the `stored` field of `TrashStore`; the clock
// (`Date.now()`) is the `now` parameter of each operation, and whether
// `localStorage.setItem` throws is its `setFails` parameter (every write one
// operation makes fares the same).

module Trash {
  import opened Common
  import opened Cards

  datatype TrashItem = TrashItem(card: AdCard, deletedAt: int, id: string)

  const TrashStorageKey := "ad_mvp.trash.v1"

  /** Thirty days in milliseconds. */
  const RetentionMs := 30 * 24 * 60 * 60 * 1000

  predicate Unexpired(item: TrashItem, now: int) {
    now - item.deletedAt < RetentionMs
  }

  /** `trash.filter(item => now - item.deletedAt < TRASH_RETENTION_MS)`. */
  function Retained(items: seq<TrashItem>, now: int): (r: seq<TrashItem>)
    ensures |r| <= |items|
    ensures forall x :: x in r <==> x in items && Unexpired(x, now)
    ensures IsFilter(r, items, (x: TrashItem) => Unexpired(x, now))
  {
    if |items| == 0 then []
    else
      var last := items[|items| - 1];
      var init := Retained(items[..|items| - 1], now);
      FilterSnoc((x: TrashItem) => Unexpired(x, now), items, init);
      if Unexpired(last, now) then init + [last] else init
  }

  /** When nothing is dropped the filter returns the list itself, so `loadTrash` writes nothing back. */
  lemma {:induction false} RetainedAllKept(items: seq<TrashItem>, now: int)
    requires |Retained(items, now)| == |items|
    ensures Retained(items, now) == items
    ensures forall k :: 0 <= k < |items| ==> Unexpired(items[k], now)
  {
    if |items| > 0 {
      var init := items[..|items| - 1];
      var last := items[|items| - 1];
      var kept := Retained(init, now);
      assert Retained(items, now) == kept + (if Unexpired(last, now) then [last] else []);
      assert |kept| <= |init|;
      assert Unexpired(last, now);
      RetainedAllKept(init, now);
      assert items == init + [last];
    }
    forall k | 0 <= k < |items|
      ensures Unexpired(items[k], now)
    {
      assert items[k] in Retained(items, now);
    }
  }

  /** Loading at a later time keeps exactly what loading then would keep: expiry only grows. */
  lemma {:induction false} RetainedLater(items: seq<TrashItem>, earlier: int, later: int)
    requires earlier <= later
    ensures Retained(Retained(items, earlier), later) == Retained(items, later)
  {
    if |items| > 0 {
      var init := items[..|items| - 1];
      var last := items[|items| - 1];
      RetainedLater(init, earlier, later);
      var mid := Retained(init, earlier);
      if Unexpired(last, earlier) {
        assert Retained(items, earlier) == mid + [last];
        assert (mid + [last])[..|mid + [last]| - 1] == mid;
      } else {
        assert Retained(items, earlier) == mid;
        assert !Unexpired(last, later);
        assert Retained(items, later) == Retained(init, later) + [];
      }
    }
  }

  /** What `loadTrash()` returns for the stored content at time `now`. */
  function Loaded(hasWindow: bool, stored: Slot<seq<TrashItem>>, now: int): seq<TrashItem> {
    if hasWindow && stored.Holds? then Retained(stored.value, now) else []
  }

  /** The items `addToTrash` creates: one per card, in order, stamped with `now`. */
  function NewItems(cards: seq<AdCard>, now: nat): (r: seq<TrashItem>)
    ensures |r| == |cards|
    ensures forall k :: 0 <= k < |cards| ==>
      r[k] == TrashItem(cards[k], now, "trash_" + cards[k].id + "_" + DecimalString(now))
  {
    seq(|cards|, k requires 0 <= k < |cards| => TrashItem(cards[k], now, "trash_" + cards[k].id + "_" + DecimalString(now)))
  }

  /** The items whose id is among `ids`, in trash order. */
  function Selected(items: seq<TrashItem>, ids: set<string>): seq<TrashItem> {
    if |items| == 0 then []
    else
      var last := items[|items| - 1];
      Selected(items[..|items| - 1], ids) + (if last.id in ids then [last] else [])
  }

  /** The items whose id is not among `ids`, in trash order. */
  function Unselected(items: seq<TrashItem>, ids: set<string>): seq<TrashItem> {
    if |items| == 0 then []
    else
      var last := items[|items| - 1];
      Unselected(items[..|items| - 1], ids) + (if last.id !in ids then [last] else [])
  }

  function CardsOf(items: seq<TrashItem>): (r: seq<AdCard>)
    ensures |r| == |items|
  {
    if |items| == 0 then [] else CardsOf(items[..|items| - 1]) + [items[|items| - 1].card]
  }

  lemma SelectedStep(items: seq<TrashItem>, i: nat, ids: set<string>)
    requires i < |items|
    ensures Selected(items[..i + 1], ids) == Selected(items[..i], ids) + (if items[i].id in ids then [items[i]] else [])
    ensures Unselected(items[..i + 1], ids) == Unselected(items[..i], ids) + (if items[i].id !in ids then [items[i]] else [])
  {
    assert items[..i + 1][..i] == items[..i];
  }

  /** The restored items are exactly those chosen, the remaining ones exactly the others. */
  lemma {:induction false} SelectionMembers(items: seq<TrashItem>, ids: set<string>)
    ensures forall x :: x in Selected(items, ids) <==> x in items && x.id in ids
    ensures forall x :: x in Unselected(items, ids) <==> x in items && x.id !in ids
  {
    if |items| > 0 {
      var init := items[..|items| - 1];
      SelectionMembers(init, ids);
      assert items == init + [items[|items| - 1]];
    }
  }

  lemma CardsOfSnoc(items: seq<TrashItem>, item: TrashItem)
    ensures CardsOf(items + [item]) == CardsOf(items) + [item.card]
  {
    assert (items + [item])[..|items|] == items;
  }

  /** Appending one item adds it to exactly one side of the split. */
  lemma SplitSnoc(init: seq<TrashItem>, last: TrashItem, ids: set<string>)
    ensures Selected(init + [last], ids) == Selected(init, ids) + (if last.id in ids then [last] else [])
    ensures Unselected(init + [last], ids) == Unselected(init, ids) + (if last.id !in ids then [last] else [])
  {
    assert (init + [last])[..|init|] == init;
  }

  /** Restored and remaining items split the trash: together they are exactly its items. */
  lemma {:induction false} RestorePartitions(items: seq<TrashItem>, ids: set<string>)
    ensures multiset(Selected(items, ids)) + multiset(Unselected(items, ids)) == multiset(items)
    ensures |Selected(items, ids)| + |Unselected(items, ids)| == |items|
  {
    if |items| > 0 {
      var init := items[..|items| - 1];
      var last := items[|items| - 1];
      RestorePartitions(init, ids);
      assert items == init + [last];
      SplitSnoc(init, last, ids);
      var added: seq<TrashItem> := if last.id in ids then [last] else [];
      var kept: seq<TrashItem> := if last.id !in ids then [last] else [];
      SplitStep(Selected(init, ids), Unselected(init, ids), init, last, added, kept);
    }
  }

  /** Adding one element to one side of a split of `whole` gives a split of `whole + [x]`. */
  lemma SplitStep<T>(left: seq<T>, right: seq<T>, whole: seq<T>, x: T, added: seq<T>, kept: seq<T>)
    requires multiset(left) + multiset(right) == multiset(whole) && |left| + |right| == |whole|
    requires (added == [x] && kept == []) || (added == [] && kept == [x])
    ensures multiset(left + added) + multiset(right + kept) == multiset(whole + [x])
    ensures |left + added| + |right + kept| == |whole + [x]|
  {
    assert multiset(whole + [x]) == multiset(whole) + multiset{x};
    assert multiset(left + added) == multiset(left) + multiset(added);
    assert multiset(right + kept) == multiset(right) + multiset(kept);
  }

  class TrashStore {
    /** Whether a `window` exists; without one every read is empty and every write is skipped. */
    const hasWindow: bool
    /** The content under `ad_mvp.trash.v1`. */
    var stored: Slot<seq<TrashItem>>

    constructor (hasWindow: bool, stored: Slot<seq<TrashItem>>)
      ensures this.hasWindow == hasWindow && this.stored == stored
    {
      this.hasWindow := hasWindow;
      this.stored := stored;
    }

    /** `saveTrash`: a `setItem` that throws is caught and leaves the key as it was. */
    method Save(trash: seq<TrashItem>, setFails: bool)
      modifies this
      ensures stored == if hasWindow && !setFails then Holds(trash) else old(stored)
    {
      if hasWindow && !setFails {
        stored := Holds(trash);
      }
    }

    /**
     * `loadTrash`: the unexpired items; a missing key or unreadable content
     * gives none. The cleaned list is written back only when something was
     * dropped.
     */
    method Load(now: int, setFails: bool) returns (trash: seq<TrashItem>)
      modifies this
      ensures trash == Loaded(hasWindow, old(stored), now)
      ensures forall x :: x in trash ==> Unexpired(x, now)
      ensures stored == if hasWindow && !setFails && old(stored).Holds? && |trash| < |old(stored).value| then Holds(trash)
                        else old(stored)
      ensures Loaded(hasWindow, stored, now) == Loaded(hasWindow, old(stored), now)
    {
      if !hasWindow {
        return [];
      }
      match stored
      case Holds(items) =>
        trash := Retained(items, now);
        if |trash| != |items| {
          Save(trash, setFails);
          RetainedLater(items, now, now);
        } else {
          RetainedAllKept(items, now);
        }
      case _ =>
        trash := [];
    }

    /** `addToTrash`: the new items, newest first, ahead of the current trash; the result is what is saved. */
    method AddToTrash(cards: seq<AdCard>, now: nat, setFails: bool) returns (updated: seq<TrashItem>)
      modifies this
      ensures updated == NewItems(cards, now) + Loaded(hasWindow, old(stored), now)
      ensures updated[..|cards|] == NewItems(cards, now)
      ensures stored == if hasWindow && !setFails then Holds(updated) else old(stored)
    {
      var trash := Load(now, setFails);
      updated := NewItems(cards, now) + trash;
      Save(updated, setFails);
    }

    /**
     * `restoreFromTrash`: walks the trash once, sending the cards of the
     * chosen items to `restoredCards` and the other items to
     * `remainingTrash`; only the remaining items are saved.
     */
    method RestoreFromTrash(trashIds: seq<string>, now: int, setFails: bool) returns (restoredCards: seq<AdCard>, remainingTrash: seq<TrashItem>)
      modifies this
      ensures var trash := Loaded(hasWindow, old(stored), now);
        && restoredCards == CardsOf(Selected(trash, set id | id in trashIds))
        && remainingTrash == Unselected(trash, set id | id in trashIds)
      ensures stored == if hasWindow && !setFails then Holds(remainingTrash) else old(stored)
    {
      var trash := Load(now, setFails);
      var ids := set id | id in trashIds;
      restoredCards, remainingTrash := [], [];
      var i := 0;
      while i < |trash|
        invariant 0 <= i <= |trash|
        invariant restoredCards == CardsOf(Selected(trash[..i], ids))
        invariant remainingTrash == Unselected(trash[..i], ids)
        invariant !hasWindow || setFails ==> stored == old(stored)
      {
        var item := trash[i];
        SelectedStep(trash, i, ids);
        if item.id in ids {
          assert Selected(trash[..i + 1], ids) == Selected(trash[..i], ids) + [item];
          CardsOfSnoc(Selected(trash[..i], ids), item);
          assert Unselected(trash[..i + 1], ids) == Unselected(trash[..i], ids) + [];
          restoredCards := restoredCards + [item.card];
          assert restoredCards == CardsOf(Selected(trash[..i + 1], ids));
        } else {
          assert Selected(trash[..i + 1], ids) == Selected(trash[..i], ids);
          remainingTrash := remainingTrash + [item];
          assert restoredCards == CardsOf(Selected(trash[..i + 1], ids));
        }
        i := i + 1;
      }
      assert trash[..|trash|] == trash;
      Save(remainingTrash, setFails);
    }

    /** `permanentlyDelete`: keeps exactly the items whose id is not among `trashIds`. */
    method PermanentlyDelete(trashIds: seq<string>, now: int, setFails: bool)
      modifies this
      ensures stored == if hasWindow && !setFails then Holds(Unselected(Loaded(hasWindow, old(stored), now), set id | id in trashIds))
                        else old(stored)
    {
      var trash := Load(now, setFails);
      Save(Unselected(trash, set id | id in trashIds), setFails);
    }

    /** `clearTrash`. */
    method ClearTrash(setFails: bool)
      modifies this
      ensures stored == if hasWindow && !setFails then Holds([]) else old(stored)
    {
      Save([], setFails);
    }

    /** `getTrashCount`: the number of unexpired items. */
    method GetTrashCount(now: int, setFails: bool) returns (count: nat)
      modifies this
      ensures count == |Loaded(hasWindow, old(stored), now)|
      ensures Loaded(hasWindow, stored, now) == Loaded(hasWindow, old(stored), now)
    {
      var trash := Load(now, setFails);
      count := |trash|;
    }
  }
}
