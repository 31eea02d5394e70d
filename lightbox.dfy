// The image lightbox (src/components/Lightbox.tsx): a zoomable, draggable
// view of one image with keyboard shortcuts and a download button.
//
// The component's state hooks are the fields of `Lightbox`, each handler a
// method. Zoom moves in steps of one half between 0.5 and 3, so it is kept
// as a whole number of halves between 1 and 6 (2 is 100%). Whether the box
// is open belongs to its owner: `SetOpen` is the owner changing the prop
// (with the effect that resets the view), and the Escape key only asks the
// owner to close. Fetching the image for a download is not modelled; the
// file name it is saved under is.

module LightboxView {
  import opened Common

  /** Zoom in halves: 0.5 is 1 and 3 is 6; the initial zoom, 1, is 2. */
  const MinZoom := 1
  const MaxZoom := 6
  const InitialZoom := 2

  datatype Point = Point(x: int, y: int)

  const Origin := Point(0, 0)

  /** The zoom factor a count of halves stands for. */
  function ZoomFactor(z: int): real {
    z as real / 2.0
  }

  /** `Math.min(prev + 0.5, 3)`. */
  function ZoomedIn(z: int): int {
    if z + 1 <= MaxZoom then z + 1 else MaxZoom
  }

  /** `Math.max(prev - 0.5, 0.5)`. */
  function ZoomedOut(z: int): int {
    if z - 1 >= MinZoom then z - 1 else MinZoom
  }

  /** The zoom-out button is disabled at `zoom <= 0.5`. */
  predicate ZoomOutDisabled(z: int) {
    ZoomFactor(z) <= 0.5
  }

  /** The zoom-in button is disabled at `zoom >= 3`. */
  predicate ZoomInDisabled(z: int) {
    ZoomFactor(z) >= 3.0
  }

  /** Both steps keep the zoom between 0.5 and 3, and move it by at most one half. */
  lemma ZoomStaysInRange(z: int)
    requires MinZoom <= z <= MaxZoom
    ensures MinZoom <= ZoomedIn(z) <= MaxZoom && MinZoom <= ZoomedOut(z) <= MaxZoom
    ensures z <= ZoomedIn(z) <= z + 1 && z - 1 <= ZoomedOut(z) <= z
    ensures 0.5 <= ZoomFactor(ZoomedIn(z)) <= 3.0 && 0.5 <= ZoomFactor(ZoomedOut(z)) <= 3.0
  {
  }

  /** Away from the bounds, zooming out undoes zooming in and the other way round. */
  lemma ZoomStepsUndo(z: int)
    ensures MinZoom <= z < MaxZoom ==> ZoomedOut(ZoomedIn(z)) == z
    ensures MinZoom < z <= MaxZoom ==> ZoomedIn(ZoomedOut(z)) == z
  {
  }

  /** A zoom button is disabled exactly when pressing it would change nothing. */
  lemma DisabledIffNoEffect(z: int)
    requires MinZoom <= z <= MaxZoom
    ensures ZoomInDisabled(z) <==> ZoomedIn(z) == z
    ensures ZoomOutDisabled(z) <==> ZoomedOut(z) == z
  {
  }

  /** Zooming in k times in a row. */
  function ZoomInTimes(z: int, k: nat): int
    decreases k
  {
    if k == 0 then z else ZoomInTimes(ZoomedIn(z), k - 1)
  }

  /** Repeated zooming in climbs one half at a time and stops at 3. */
  lemma {:induction false} ZoomInTimesClamps(z: int, k: nat)
    requires z <= MaxZoom
    ensures ZoomInTimes(z, k) == Min(z + k, MaxZoom)
    decreases k
  {
    if k > 0 {
      ZoomInTimesClamps(ZoomedIn(z), k - 1);
    }
  }

  /** From the initial 100%, four presses reach 300%. */
  lemma FourStepsToMax()
    ensures ZoomInTimes(InitialZoom, 4) == MaxZoom
    ensures ZoomInTimes(InitialZoom, 3) < MaxZoom
  {
    ZoomInTimesClamps(InitialZoom, 4);
    ZoomInTimesClamps(InitialZoom, 3);
  }

  /** `Math.round(zoom * 100)`, the percentage shown between the buttons. */
  function ZoomPercent(z: int): (p: int)
    ensures p as real == ZoomFactor(z) * 100.0
    ensures MinZoom <= z <= MaxZoom ==> 50 <= p <= 300
  {
    50 * z
  }

  /** Where a drag is anchored: the pointer minus the image's position. */
  function Anchor(pointer: Point, position: Point): Point {
    Point(pointer.x - position.x, pointer.y - position.y)
  }

  /** The position while dragging: the pointer minus the anchor. */
  function Follow(pointer: Point, anchor: Point): Point {
    Point(pointer.x - anchor.x, pointer.y - anchor.y)
  }

  /**
   * A drag moves the image by exactly the distance the pointer moved since
   * the button went down, so the image does not jump when it is grabbed.
   */
  lemma DragTracksPointer(position: Point, down: Point, pointer: Point)
    ensures Follow(pointer, Anchor(down, position))
      == Point(position.x + (pointer.x - down.x), position.y + (pointer.y - down.y))
    ensures Follow(down, Anchor(down, position)) == position
  {
  }

  /** The lightbox's view state. */
  class Lightbox {
    var isOpen: bool
    var zoom: int
    var isDragging: bool
    var position: Point
    var dragStart: Point

    /** The zoom stays between 0.5 and 3. */
    predicate Valid()
      reads this
    {
      MinZoom <= zoom <= MaxZoom
    }

    /** Mounting: zoom 1, not dragging, no offset. */
    constructor (isOpen: bool)
      ensures Valid()
      ensures this.isOpen == isOpen && zoom == InitialZoom && !isDragging
      ensures position == Origin && dragStart == Origin
    {
      this.isOpen := isOpen;
      zoom := InitialZoom;
      isDragging := false;
      position := Origin;
      dragStart := Origin;
    }

    /** The owner opens or closes the box; closing resets the zoom to 1 and the position to the origin. */
    method SetOpen(open: bool)
      requires Valid()
      modifies this`isOpen, this`zoom, this`position
      ensures Valid()
      ensures isOpen == open
      ensures !open ==> zoom == InitialZoom && position == Origin
      ensures open ==> zoom == old(zoom) && position == old(position)
    {
      isOpen := open;
      if !open {
        zoom := InitialZoom;
        position := Origin;
      }
    }

    /** `handleZoomIn`. */
    method ZoomIn()
      requires Valid()
      modifies this`zoom
      ensures Valid()
      ensures zoom == ZoomedIn(old(zoom))
    {
      zoom := Min(zoom + 1, MaxZoom);
    }

    /** `handleZoomOut`. */
    method ZoomOut()
      requires Valid()
      modifies this`zoom
      ensures Valid()
      ensures zoom == ZoomedOut(old(zoom))
    {
      zoom := Max(zoom - 1, MinZoom);
    }

    /**
     * The key handler: ignored while closed; Escape asks the owner to close,
     * `+` or `=` zooms in, `-` or `_` zooms out, any other key does nothing.
     */
    method HandleKey(key: string) returns (closeRequested: bool)
      requires Valid()
      modifies this`zoom
      ensures Valid()
      ensures closeRequested <==> isOpen && key == "Escape"
      ensures isOpen && (key == "+" || key == "=") ==> zoom == ZoomedIn(old(zoom))
      ensures isOpen && (key == "-" || key == "_") ==> zoom == ZoomedOut(old(zoom))
      ensures !isOpen || !(key in {"+", "=", "-", "_"}) ==> zoom == old(zoom)
    {
      closeRequested := false;
      if !isOpen {
        return;
      }
      if key == "Escape" {
        closeRequested := true;
      } else if key == "+" || key == "=" {
        ZoomIn();
      } else if key == "-" || key == "_" {
        ZoomOut();
      }
    }

    /** `handleMouseDown`: a drag starts only above 100%, anchored where the pointer grabbed the image. */
    method MouseDown(pointer: Point)
      modifies this`isDragging, this`dragStart
      ensures zoom > InitialZoom ==> isDragging && dragStart == Anchor(pointer, position)
      ensures zoom <= InitialZoom ==> isDragging == old(isDragging) && dragStart == old(dragStart)
    {
      if zoom > InitialZoom {
        isDragging := true;
        dragStart := Point(pointer.x - position.x, pointer.y - position.y);
      }
    }

    /** `handleMouseMove`: the image follows the pointer only while dragging above 100%. */
    method MouseMove(pointer: Point)
      modifies this`position
      ensures isDragging && zoom > InitialZoom ==> position == Follow(pointer, dragStart)
      ensures !(isDragging && zoom > InitialZoom) ==> position == old(position)
    {
      if isDragging && zoom > InitialZoom {
        position := Point(pointer.x - dragStart.x, pointer.y - dragStart.y);
      }
    }

    /** `handleMouseUp`, also bound to the pointer leaving the image: the drag ends. */
    method MouseUp()
      modifies this`isDragging
      ensures !isDragging
    {
      isDragging := false;
    }
  }

  // ---------------------------------------------------------------------
  // The download file name

  /** The text after a run of leading blanks. */
  function DropBlanks(s: string): (r: string)
    ensures |r| <= |s| && r == s[|s| - |r|..]
    ensures |r| > 0 ==> !IsBlank(r[0])
    ensures forall i :: 0 <= i < |s| - |r| ==> IsBlank(s[i])
  {
    if |s| > 0 && IsBlank(s[0]) then DropBlanks(s[1..]) else s
  }

  /** `replace(/\s+/g, '-')`: every run of blanks becomes one dash. */
  function DashRuns(s: string): (r: string)
    ensures |r| <= |s|
    ensures forall i :: 0 <= i < |r| ==> !IsBlank(r[i])
    decreases |s|
  {
    if |s| == 0 then ""
    else if IsBlank(s[0]) then "-" + DashRuns(DropBlanks(s[1..]))
    else [s[0]] + DashRuns(s[1..])
  }

  /** Text without blanks is left as it is. */
  lemma {:induction false} DashRunsUnblanked(s: string)
    ensures (forall i :: 0 <= i < |s| ==> !IsBlank(s[i])) ==> DashRuns(s) == s
    decreases |s|
  {
    if |s| > 0 && forall i :: 0 <= i < |s| ==> !IsBlank(s[i]) {
      assert !IsBlank(s[0]);
      DashRunsUnblanked(s[1..]);
      assert s == [s[0]] + s[1..];
    }
  }

  /** A run made only of blanks becomes a single dash. */
  lemma {:induction false} DashRunsBlankRun(b: string)
    requires |b| > 0 && forall i :: 0 <= i < |b| ==> IsBlank(b[i])
    ensures DashRuns(b) == "-"
  {
    assert DropBlanks(b[1..]) == "";
  }

  /** Dropping the leading blanks of a text that has something else ignores what follows it. */
  lemma {:induction false} DropBlanksAppend(a: string, b: string)
    requires DropBlanks(a) != ""
    ensures DropBlanks(a + b) == DropBlanks(a) + b
    decreases |a|
  {
    if IsBlank(a[0]) {
      assert (a + b)[1..] == a[1..] + b;
      DropBlanksAppend(a[1..], b);
    }
  }

  /**
   * Dashing runs works piece by piece when the cut does not fall inside a
   * run of blanks. With `DashRunsBlankRun` and the blank-free case this pins
   * the result down: text between runs is kept as it is, in order, and each
   * maximal run of blanks becomes exactly one dash.
   */
  lemma {:induction false} DashRunsAppend(a: string, b: string)
    requires |a| == 0 || |b| == 0 || !IsBlank(a[|a| - 1]) || !IsBlank(b[0])
    ensures DashRuns(a + b) == DashRuns(a) + DashRuns(b)
    decreases |a|
  {
    if |a| == 0 {
      assert a + b == b;
    } else if |b| == 0 {
      assert a + b == a;
    } else if !IsBlank(a[0]) {
      assert (a + b)[0] == a[0] && (a + b)[1..] == a[1..] + b;
      DashRunsAppend(a[1..], b);
      assert DashRuns(a + b) == [a[0]] + DashRuns(a[1..] + b);
      AppendAssoc([a[0]], DashRuns(a[1..]), DashRuns(b));
    } else {
      assert (a + b)[0] == a[0] && (a + b)[1..] == a[1..] + b;
      var rest := DropBlanks(a[1..]);
      if rest == "" {
        assert forall i :: 0 <= i < |a| - 1 ==> IsBlank(a[1..][i]);
        assert forall i :: 0 <= i < |a| ==> IsBlank(a[i]);
        BlankRunThenText(a, b);
      } else {
        DropBlanksAppend(a[1..], b);
        assert rest[|rest| - 1] == a[|a| - 1];
        DashRunsAppend(rest, b);
        assert DashRuns(a + b) == "-" + DashRuns(rest + b);
        AppendAssoc("-", DashRuns(rest), DashRuns(b));
      }
    }
  }

  /** A text that is one run of blanks, followed by text that starts with something else. */
  lemma BlankRunThenText(a: string, b: string)
    requires |a| > 0 && forall i :: 0 <= i < |a| ==> IsBlank(a[i])
    requires |b| > 0 && !IsBlank(b[0])
    ensures DashRuns(a + b) == DashRuns(a) + DashRuns(b)
  {
    var rest := a[1..];
    assert DashRuns(a + b) == "-" + DashRuns(b) by {
      assert (a + b)[0] == a[0] && IsBlank(a[0]);
      assert (a + b)[1..] == rest + b;
      assert forall i :: 0 <= i < |rest| ==> IsBlank(rest[i]);
      DropBlanksPastBlanks(rest, b);
    }
    DashRunsBlankRun(a);
  }

  /** Blanks followed by text that starts with something else drop away entirely. */
  lemma {:induction false} DropBlanksPastBlanks(a: string, b: string)
    requires forall i :: 0 <= i < |a| ==> IsBlank(a[i])
    requires |b| > 0 && !IsBlank(b[0])
    ensures DropBlanks(a + b) == b
    decreases |a|
  {
    if |a| == 0 {
      assert a + b == b;
    } else {
      assert (a + b)[1..] == a[1..] + b;
      DropBlanksPastBlanks(a[1..], b);
    }
  }

  /** The name a download is saved under: the alt text, blanks dashed and lower-cased, with `.png`. */
  function DownloadName(imageAlt: string): (r: string)
    ensures EndsWith(r, ".png") && |r| <= |imageAlt| + 4
    ensures forall i :: 0 <= i < |r| ==> !IsBlank(r[i]) && !('A' <= r[i] <= 'Z')
    ensures (forall i :: 0 <= i < |imageAlt| ==> !IsBlank(imageAlt[i])) ==> r == Lower(imageAlt) + ".png"
    ensures r == Lower(DashRuns(imageAlt)) + ".png"
  {
    var stem := Lower(DashRuns(imageAlt));
    LowerUnblank(DashRuns(imageAlt));
    DashRunsUnblanked(imageAlt);
    PngNameClean(stem);
    stem + ".png"
  }

  /** Adding `.png` to a stem without blanks or capitals gives a name without them. */
  lemma PngNameClean(stem: string)
    requires forall i :: 0 <= i < |stem| ==> !IsBlank(stem[i]) && !('A' <= stem[i] <= 'Z')
    ensures EndsWith(stem + ".png", ".png")
    ensures forall i :: 0 <= i < |stem + ".png"| ==> !IsBlank((stem + ".png")[i]) && !('A' <= (stem + ".png")[i] <= 'Z')
  {
    ConcatEnds(stem, ".png");
    assert forall i :: |stem| <= i < |stem| + 4 ==> (stem + ".png")[i] == ".png"[i - |stem|];
  }

  /** Lower-casing text without blanks leaves it without blanks or capitals. */
  lemma LowerUnblank(s: string)
    requires forall i :: 0 <= i < |s| ==> !IsBlank(s[i])
    ensures forall i :: 0 <= i < |s| ==> !IsBlank(Lower(s)[i]) && !('A' <= Lower(s)[i] <= 'Z')
  {
  }
}
