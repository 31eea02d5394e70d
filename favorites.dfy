// The favourites hook (src/hooks/useFavorites.ts): a set of ad ids,
// loaded once from localStorage and written back in full after every toggle.
//
// A JavaScript `Set` keeps insertion order, and `Array.from` writes the ids
// in that order, so the set is modelled as a duplicate-free sequence.

module Favorites {
  import opened Common

  const FavoritesKey := "favorites"

  predicate NoDuplicates(s: seq<string>) {
    forall i, j :: 0 <= i < j < |s| ==> s[i] != s[j]
  }

  /** `new Set(list)`: the first occurrence of each id, in order. */
  function Dedup(list: seq<string>): (r: seq<string>)
    ensures NoDuplicates(r)
    ensures forall x :: x in r <==> x in list
  {
    if |list| == 0 then []
    else
      var init := Dedup(list[..|list| - 1]);
      var last := list[|list| - 1];
      assert forall x :: x in list <==> x in list[..|list| - 1] || x == last;
      if last in init then init else init + [last]
  }

  /** `delete` on an insertion-ordered set. */
  function RemoveId(s: seq<string>, id: string): (r: seq<string>)
    ensures forall x :: x in r <==> x in s && x != id
    ensures NoDuplicates(s) ==> NoDuplicates(r)
  {
    if |s| == 0 then []
    else
      var rest := RemoveId(s[1..], id);
      assert forall x :: x in s <==> x == s[0] || x in s[1..];
      assert NoDuplicates(s) ==> NoDuplicates(s[1..]) && s[0] !in s[1..] by {
        if NoDuplicates(s) {
          forall i, j | 0 <= i < j < |s| - 1 ensures s[1..][i] != s[1..][j] {
            assert s[1..][i] == s[i + 1] && s[1..][j] == s[j + 1];
          }
          forall k | 0 <= k < |s| - 1 ensures s[1..][k] != s[0] {
            assert s[1..][k] == s[k + 1];
          }
        }
      }
      if s[0] == id then rest else [s[0]] + rest
  }

  /** One toggle: delete the id when present, otherwise add it at the end. */
  function Toggle(s: seq<string>, id: string): (r: seq<string>)
    requires NoDuplicates(s)
    ensures NoDuplicates(r)
    ensures id in r <==> id !in s
    ensures forall x :: x != id ==> (x in r <==> x in s)
  {
    if id in s then RemoveId(s, id) else s + [id]
  }

  /** Toggling the same id twice gives back the same set of ids (an added id may come back later in the order). */
  lemma ToggleTwice(s: seq<string>, id: string)
    requires NoDuplicates(s)
    ensures forall x :: x in Toggle(Toggle(s, id), id) <==> x in s
  {
  }

  class FavoritesHook {
    /** The `favorites` state, in insertion order. */
    var favorites: seq<string>
    /** The array under the `favorites` key, as `JSON.parse` reads it back. */
    var stored: Slot<seq<string>>

    constructor (stored: Slot<seq<string>>)
      ensures favorites == [] && this.stored == stored
    {
      favorites := [];
      this.stored := stored;
    }

    /**
     * The mount effect: a stored array becomes the set; an unreadable one
     * makes `JSON.parse` throw out of the effect, leaving the set as it was.
     */
    method LoadStored() returns (threw: bool)
      modifies this
      ensures threw <==> old(stored).Garbled?
      ensures old(stored).Holds? ==> favorites == Dedup(old(stored).value)
      ensures !old(stored).Holds? ==> favorites == old(favorites)
      ensures stored == old(stored)
    {
      threw := false;
      match stored
      case Holds(list) =>
        favorites := Dedup(list);
      case Garbled =>
        threw := true;
      case Missing =>
    }

    /**
     * `toggleFavorite(adId)`: flips membership of `adId` only and stores the
     * new set. The `setItem` inside the updater is unguarded: when it throws
     * (`setFails`) the error leaves the updater, so neither the set nor the
     * stored array changes and the caller gets the error.
     */
    method ToggleFavorite(adId: string, setFails: bool) returns (threw: bool)
      modifies this
      requires NoDuplicates(favorites)
      ensures threw <==> setFails
      ensures setFails ==> favorites == old(favorites) && stored == old(stored)
      ensures !setFails ==> favorites == Toggle(old(favorites), adId) && stored == Holds(favorites)
      ensures !setFails ==> (IsFavorite(adId) <==> !old(IsFavorite(adId)))
      ensures forall other :: other != adId ==> (IsFavorite(other) <==> old(IsFavorite(other)))
    {
      var next := favorites;
      if adId in next {
        next := RemoveId(next, adId);
      } else {
        next := next + [adId];
      }
      if setFails {
        return true;
      }
      threw := false;
      stored := Holds(next);
      favorites := next;
    }

    /** `isFavorite(adId)`: some entry of the list is `adId`. */
    function IsFavorite(adId: string): (r: bool)
      reads this
      ensures r <==> exists k :: 0 <= k < |favorites| && favorites[k] == adId
    {
      adId in favorites
    }
  }
}
