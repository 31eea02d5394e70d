// The gallery page (src/pages/GalleryDetail.tsx): who may edit, how loaded
// images become cards, the soft delete of a card, and drag-and-drop
// reordering with its optimistic update, position writes and revert.
//
// The `gallery_images` table is a field of the page (`table`), so that the
// scoped updates the page issues can be stated; whether each remote call
// fails is an input.

module GalleryDetail {
  import opened Common

  datatype GalleryContainer = GalleryContainer(id: string, name: string, userId: Option<string>, createdAt: string)

  /** A row of `gallery_images` as far as this page reads and writes it. */
  datatype ImageRow = ImageRow(galleryId: string, url: string, title: Option<string>, description: Option<string>,
                               position: Option<int>, visible: bool, createdAt: string)

  /** A row as the images query returns it. */
  datatype LoadedImage = LoadedImage(id: string, url: string, title: Option<string>, description: Option<string>,
                                     position: Option<int>, createdAt: string)

  datatype GalleryCard = GalleryCard(id: string, title: Option<string>, description: Option<string>, url: string,
                                     imageUrl: string, position: int, createdAt: string)

  /** `isOwner`: the gallery's owner, or an `admin` or `super_admin`, once both gallery and user are known. */
  function IsOwner(gallery: Option<GalleryContainer>, userId: Option<string>, role: Option<string>): (r: bool)
    ensures r <==> (gallery.Some? && userId.Some?
      && (gallery.value.userId == Some(userId.value) || role == Some("admin") || role == Some("super_admin")))
  {
    match gallery
    case None => false
    case Some(g) =>
      match userId
      case None => false
      case Some(u) => g.userId == Some(u) || role == Some("admin") || role == Some("super_admin")
  }

  /** `value || undefined`: the empty string becomes absent. */
  function OrUndefined(s: Option<string>): Option<string> {
    if s.Some? && s.value != "" then s else None
  }

  /** The card made from the image at `index` of the query result. */
  function CardOf(img: LoadedImage, index: nat): (c: GalleryCard)
    ensures c.id == img.id && c.url == img.url && c.imageUrl == img.url
    ensures c.position == if img.position.Some? then img.position.value else index
  {
    GalleryCard(img.id, OrUndefined(img.title), OrUndefined(img.description), img.url, img.url,
      if img.position.Some? then img.position.value else index, img.createdAt)
  }

  function CardsOf(images: seq<LoadedImage>): (r: seq<GalleryCard>)
    ensures |r| == |images|
    ensures forall k :: 0 <= k < |images| ==> r[k] == CardOf(images[k], k)
  {
    seq(|images|, k requires 0 <= k < |images| => CardOf(images[k], k))
  }

  // ---------------------------------------------------------------------
  // arrayMove

  function Remove<T>(s: seq<T>, i: nat): (r: seq<T>)
    requires i < |s|
    ensures |r| == |s| - 1
  {
    s[..i] + s[i + 1..]
  }

  function Insert<T>(s: seq<T>, i: nat, x: T): (r: seq<T>)
    requires i <= |s|
    ensures |r| == |s| + 1
  {
    s[..i] + [x] + s[i..]
  }

  /** dnd-kit's `arrayMove(array, from, to)`: take out the element at `from`, put it back at `to`. */
  function ArrayMove<T>(s: seq<T>, from: nat, to: nat): (r: seq<T>)
    requires from < |s| && to < |s|
    ensures |r| == |s|
  {
    Insert(Remove(s, from), to, s[from])
  }

  /** The moved element lands at `to`; the others keep their relative order. */
  lemma ArrayMoveShape<T>(s: seq<T>, from: nat, to: nat)
    requires from < |s| && to < |s|
    ensures ArrayMove(s, from, to)[to] == s[from]
    ensures Remove(ArrayMove(s, from, to), to) == Remove(s, from)
  {
    var r := Remove(s, from);
    var m := ArrayMove(s, from, to);
    assert m == r[..to] + [s[from]] + r[to..];
    assert Remove(m, to) == r;
  }

  /** A move is a permutation. */
  lemma ArrayMovePermutes<T>(s: seq<T>, from: nat, to: nat)
    requires from < |s| && to < |s|
    ensures multiset(ArrayMove(s, from, to)) == multiset(s)
  {
    var r := Remove(s, from);
    assert s == s[..from] + [s[from]] + s[from + 1..];
    assert r[..to] + r[to..] == r;
    calc {
      multiset(ArrayMove(s, from, to));
      multiset(r[..to]) + multiset([s[from]]) + multiset(r[to..]);
      multiset(r) + multiset([s[from]]);
      multiset(s[..from]) + multiset(s[from + 1..]) + multiset([s[from]]);
      multiset(s);
    }
  }

  lemma InsertRemove<T>(s: seq<T>, i: nat)
    requires i < |s|
    ensures Insert(Remove(s, i), i, s[i]) == s
  {
    var r := Remove(s, i);
    assert r[..i] == s[..i] && r[i..] == s[i + 1..];
  }

  /** Moving back from `to` to `from` undoes the move. */
  lemma ArrayMoveInverse<T>(s: seq<T>, from: nat, to: nat)
    requires from < |s| && to < |s|
    ensures ArrayMove(ArrayMove(s, from, to), to, from) == s
  {
    ArrayMoveShape(s, from, to);
    InsertRemove(s, from);
  }

  /** `findIndex(c => c.id === id)`: the first card with that id. */
  function FindIndex(cards: seq<GalleryCard>, id: string): (r: Option<nat>)
    ensures r.Some? ==> (r.value < |cards| && cards[r.value].id == id
      && forall k :: 0 <= k < r.value ==> cards[k].id != id)
    ensures r.None? ==> forall k :: 0 <= k < |cards| ==> cards[k].id != id
  {
    if |cards| == 0 then None
    else if cards[0].id == id then Some(0)
    else match FindIndex(cards[1..], id)
      case None => None
      case Some(k) => Some(k + 1)
  }

  // ---------------------------------------------------------------------
  // Position writes

  /** `update({position}).eq('id', id).eq('gallery_container_id', g)`: only a row of that gallery changes. */
  function SetPosition(table: map<string, ImageRow>, id: string, gallery: string, pos: int): (r: map<string, ImageRow>)
    ensures r.Keys == table.Keys
    ensures forall x :: x in table && x != id ==> r[x] == table[x]
    ensures id in table && table[id].galleryId == gallery ==> r[id] == table[id].(position := Some(pos))
    ensures !(id in table && table[id].galleryId == gallery) ==> r == table
  {
    if id in table && table[id].galleryId == gallery then table[id := table[id].(position := Some(pos))] else table
  }

  /** The table after the first m position updates of the new order. */
  function WritePositions(table: map<string, ImageRow>, cards: seq<GalleryCard>, gallery: string, m: nat)
    : map<string, ImageRow>
    requires m <= |cards|
  {
    if m == 0 then table else SetPosition(WritePositions(table, cards, gallery, m - 1), cards[m - 1].id, gallery, m - 1)
  }

  predicate DistinctIds(cards: seq<GalleryCard>) {
    forall j, k :: 0 <= j < k < |cards| ==> cards[j].id != cards[k].id
  }

  /**
   * After the first m writes, every card among them that is a row of this
   * gallery has its index as position; every other row is as before, apart
   * from its position only if some written card shares its id.
   */
  lemma {:induction false} WritePositionsEffect(table: map<string, ImageRow>, cards: seq<GalleryCard>, gallery: string, m: nat)
    requires m <= |cards| && DistinctIds(cards)
    ensures var t := WritePositions(table, cards, gallery, m);
      && t.Keys == table.Keys
      && (forall k :: 0 <= k < m && cards[k].id in table && table[cards[k].id].galleryId == gallery ==>
            t[cards[k].id] == table[cards[k].id].(position := Some(k)))
      && (forall id :: id in table && (table[id].galleryId != gallery || forall k :: 0 <= k < m ==> cards[k].id != id) ==>
            t[id] == table[id])
  {
    if m > 0 {
      WritePositionsEffect(table, cards, gallery, m - 1);
      var before := WritePositions(table, cards, gallery, m - 1);
      var last := cards[m - 1].id;
      var t := SetPosition(before, last, gallery, m - 1);
      assert WritePositions(table, cards, gallery, m) == t;
      assert last in table ==> before[last] == table[last] by {
        assert forall k :: 0 <= k < m - 1 ==> cards[k].id != last;
      }
      forall k | 0 <= k < m && cards[k].id in table && table[cards[k].id].galleryId == gallery
        ensures t[cards[k].id] == table[cards[k].id].(position := Some(k))
      {
        if k < m - 1 {
          assert cards[k].id != last;
        }
      }
    }
  }

  datatype DragOutcome = Ignored | Reordered | Reverted(failedAt: nat)

  datatype DeleteOutcome = NotAllowed | Declined | Deleted | DeleteFailed

  class GalleryDetailPage {
    const galleryId: string
    var gallery: Option<GalleryContainer>
    var userId: Option<string>
    var role: Option<string>
    var cards: seq<GalleryCard>
    var isLoading: bool
    var isReordering: bool
    /** The `gallery_images` table. */
    var table: map<string, ImageRow>

    constructor (galleryId: string, userId: Option<string>, role: Option<string>, table: map<string, ImageRow>)
      ensures this.galleryId == galleryId && this.userId == userId && this.role == role && this.table == table
      ensures gallery == None && cards == [] && isLoading && !isReordering
    {
      this.galleryId := galleryId;
      this.userId := userId;
      this.role := role;
      this.table := table;
      gallery := None;
      cards := [];
      isLoading := true;
      isReordering := false;
    }

    /**
     * `loadGallery`: a container error or a missing container leaves the
     * cards alone; an images error keeps the container but not the images;
     * otherwise the cards are the mapped images. Loading ends either way.
     */
    method LoadGallery(container: Result<Option<GalleryContainer>, string>, images: Result<seq<LoadedImage>, string>)
      modifies this
      ensures galleryId == "" ==> gallery == old(gallery) && cards == old(cards) && isLoading == old(isLoading)
      ensures galleryId != "" ==> !isLoading
      ensures galleryId != "" && container.Ok? && container.value.Some? ==> gallery == container.value
      ensures galleryId != "" && container.Ok? && container.value.Some? && images.Ok?
        ==> cards == CardsOf(images.value)
      ensures !(galleryId != "" && container.Ok? && container.value.Some? && images.Ok?) ==> cards == old(cards)
      ensures !(galleryId != "" && container.Ok? && container.value.Some?) ==> gallery == old(gallery)
      ensures table == old(table) && userId == old(userId) && role == old(role) && isReordering == old(isReordering)
    {
      if galleryId == "" {
        return;
      }
      isLoading := true;
      if container.Err? || container.value.None? {
        isLoading := false;
        return;
      }
      gallery := container.value;
      if images.Err? {
        isLoading := false;
        return;
      }
      cards := CardsOf(images.value);
      isLoading := false;
    }

    function IsOwnerNow(): bool
      reads this
    {
      IsOwner(gallery, userId, role)
    }

    /**
     * `handleDeleteCard`: only an owner, after confirming, hides the card
     * (`visible = false`, scoped to this gallery) and, when that write
     * succeeds, drops it from the list.
     */
    method HandleDeleteCard(cardId: string, confirmed: bool, writeFails: bool) returns (outcome: DeleteOutcome)
      modifies this
      ensures !old(IsOwnerNow()) || galleryId == "" ==> outcome == NotAllowed
      ensures outcome == NotAllowed || outcome == Declined ==> cards == old(cards) && table == old(table)
      ensures outcome == Declined <==> old(IsOwnerNow()) && galleryId != "" && !confirmed
      ensures outcome == DeleteFailed ==> cards == old(cards) && table == old(table)
      ensures outcome == Deleted ==>
        && cards == Without(old(cards), cardId)
        && table == (if cardId in old(table) && old(table)[cardId].galleryId == galleryId
                     then old(table)[cardId := old(table)[cardId].(visible := false)] else old(table))
      ensures old(IsOwnerNow()) && galleryId != "" && confirmed ==> (outcome == Deleted <==> !writeFails)
      ensures gallery == old(gallery) && userId == old(userId) && role == old(role)
    {
      if !IsOwnerNow() || galleryId == "" {
        return NotAllowed;
      }
      if !confirmed {
        return Declined;
      }
      if writeFails {
        return DeleteFailed;
      }
      if cardId in table && table[cardId].galleryId == galleryId {
        table := table[cardId := table[cardId].(visible := false)];
      }
      cards := Without(cards, cardId);
      outcome := Deleted;
    }

    /**
     * The position writes of `handleDragEnd`: card k of the new order gets
     * position k, in order, until the first write that fails.
     */
    method WritePositionsInOrder(newCards: seq<GalleryCard>, writeFails: nat -> bool) returns (failedAt: Option<nat>)
      modifies this`table
      ensures failedAt.None? ==>
        table == WritePositions(old(table), newCards, galleryId, |newCards|) && forall k :: 0 <= k < |newCards| ==> !writeFails(k)
      ensures failedAt.Some? ==>
        && failedAt.value < |newCards| && writeFails(failedAt.value) && (forall k :: 0 <= k < failedAt.value ==> !writeFails(k))
        && table == WritePositions(old(table), newCards, galleryId, failedAt.value)
    {
      var k := 0;
      while k < |newCards|
        invariant 0 <= k <= |newCards|
        invariant forall j :: 0 <= j < k ==> !writeFails(j)
        invariant table == WritePositions(old(table), newCards, galleryId, k)
      {
        if writeFails(k) {
          return Some(k);
        }
        table := SetPosition(table, newCards[k].id, galleryId, k);
        k := k + 1;
      }
      return None;
    }

    /**
     * `handleDragEnd`: ignored unless an owner drops one card on another
     * card of the list; otherwise the list is moved at once, then the
     * positions 0 .. n-1 are written in the new order. The first failing
     * write stops the loop and restores the old list.
     */
    method HandleDragEnd(activeId: string, overId: Option<string>, writeFails: nat -> bool) returns (outcome: DragOutcome)
      modifies this
      ensures var ignore := !old(IsOwnerNow()) || galleryId == "" || overId.None? || activeId == overId.value
        || FindIndex(old(cards), activeId).None? || FindIndex(old(cards), overId.value).None?;
        && (ignore <==> outcome == Ignored)
        && (ignore ==> cards == old(cards) && table == old(table) && isReordering == old(isReordering))
      ensures outcome != Ignored ==>
        var from := FindIndex(old(cards), activeId).value;
        var to := FindIndex(old(cards), overId.value).value;
        var moved := ArrayMove(old(cards), from, to);
        && !isReordering
        && (outcome == Reordered ==>
              cards == moved && table == WritePositions(old(table), moved, galleryId, |moved|)
              && forall k :: 0 <= k < |moved| ==> !writeFails(k))
        && (outcome.Reverted? ==>
              cards == old(cards) && outcome.failedAt < |moved| && writeFails(outcome.failedAt)
              && (forall k :: 0 <= k < outcome.failedAt ==> !writeFails(k))
              && table == WritePositions(old(table), moved, galleryId, outcome.failedAt))
      ensures gallery == old(gallery) && userId == old(userId) && role == old(role)
    {
      if !IsOwnerNow() || galleryId == "" {
        return Ignored;
      }
      if overId.None? || activeId == overId.value {
        return Ignored;
      }
      var oldIndex := FindIndex(cards, activeId);
      var newIndex := FindIndex(cards, overId.value);
      if oldIndex.None? || newIndex.None? {
        return Ignored;
      }
      var previous := cards;
      var newCards := ArrayMove(cards, oldIndex.value, newIndex.value);
      cards := newCards;
      isReordering := true;
      var failedAt := WritePositionsInOrder(newCards, writeFails);
      outcome := if failedAt.Some? then Reverted(failedAt.value) else Reordered;
      if outcome.Reverted? {
        cards := previous;
      }
      isReordering := false;
    }
  }

  /** `cards.filter(card => card.id !== cardId)`. */
  function Without(cards: seq<GalleryCard>, id: string): (r: seq<GalleryCard>)
    ensures |r| <= |cards|
    ensures forall c :: c in r <==> c in cards && c.id != id
    ensures IsFilter(r, cards, (c: GalleryCard) => c.id != id)
  {
    if |cards| == 0 then []
    else
      var init := Without(cards[..|cards| - 1], id);
      FilterSnoc((c: GalleryCard) => c.id != id, cards, init);
      if cards[|cards| - 1].id != id then init + [cards[|cards| - 1]] else init
  }

  /** Removing a card that is not listed changes nothing. */
  lemma {:induction false} WithoutAbsent(cards: seq<GalleryCard>, id: string)
    requires forall k :: 0 <= k < |cards| ==> cards[k].id != id
    ensures Without(cards, id) == cards
  {
    if |cards| > 0 {
      var init := cards[..|cards| - 1];
      WithoutAbsent(init, id);
      assert init + [cards[|cards| - 1]] == cards;
    }
  }

  /** With distinct ids, deleting a listed card shortens the list by exactly one. */
  lemma {:induction false} WithoutRemovesOne(cards: seq<GalleryCard>, i: nat)
    requires i < |cards| && DistinctIds(cards)
    ensures |Without(cards, cards[i].id)| == |cards| - 1
  {
    var id := cards[i].id;
    var init := cards[..|cards| - 1];
    assert DistinctIds(init) by {
      forall j, k | 0 <= j < k < |init| ensures init[j].id != init[k].id {
        assert init[j] == cards[j] && init[k] == cards[k];
      }
    }
    if i == |cards| - 1 {
      WithoutAbsent(init, id);
    } else {
      assert init[i] == cards[i] && cards[|cards| - 1].id != id;
      WithoutRemovesOne(init, i);
    }
  }

  /** Distinct ids stay distinct through a move, so position writes touch each card once. */
  lemma ArrayMoveKeepsDistinct(cards: seq<GalleryCard>, from: nat, to: nat)
    requires from < |cards| && to < |cards| && DistinctIds(cards)
    ensures DistinctIds(ArrayMove(cards, from, to))
  {
    var m := ArrayMove(cards, from, to);
    forall j, k | 0 <= j < k < |m| ensures m[j].id != m[k].id {
      ArrayMoveAt(cards, from, to, j);
      ArrayMoveAt(cards, from, to, k);
      var a, b := MovedFrom(from, to, j), MovedFrom(from, to, k);
      MovedFromInjective(from, to, j, k);
      if a < b {
        assert cards[a].id != cards[b].id;
      } else {
        assert cards[b].id != cards[a].id;
      }
    }
  }

  /** The index in the list before a move of the card that sits at `j` after it. */
  function MovedFrom(from: nat, to: nat, j: nat): nat {
    var rj := if j < to then j else j - 1;
    if j == to then from else if rj < from then rj else rj + 1
  }

  /** After a move, place `j` holds what place `MovedFrom(from, to, j)` held before. */
  lemma ArrayMoveAt<T>(s: seq<T>, from: nat, to: nat, j: nat)
    requires from < |s| && to < |s| && j < |s|
    ensures MovedFrom(from, to, j) < |s| && ArrayMove(s, from, to)[j] == s[MovedFrom(from, to, j)]
  {
    var r := Remove(s, from);
    if j != to {
      var rj := if j < to then j else j - 1;
      assert ArrayMove(s, from, to)[j] == r[rj];
      assert r[rj] == if rj < from then s[rj] else s[rj + 1];
    }
  }

  /** Different places after a move hold cards from different places before it. */
  lemma MovedFromInjective(from: nat, to: nat, j: nat, k: nat)
    requires j != k
    ensures MovedFrom(from, to, j) != MovedFrom(from, to, k)
  {
  }
}
