/**
 * The decision rules of the widget: window placement, the artwork
 * sub-tree and when it is rebuilt, the minimize toggle, and the buttons
 * (src/ui.rs).
 */
module Ui {
  import opened Wrappers
  import opened Metadata

  type Point = (real, real)

  /** The display's rectangle: left, top, right and bottom edges. */
  datatype Rect = Rect(x0: real, y0: real, x1: real, y1: real)

  /**
   * The top-left position of a `width` x `height` window anchored at
   * corner `pos`: its gap to each anchored edge is the matching offset.
   */
  function PlaceWidget(width: real, height: real, pos: ScreenLoc, offset: Offset, rect: Rect): (p: Point)
    ensures (pos == TopLeft || pos == BottomLeft) ==> p.0 - rect.x0 == offset.0
    ensures (pos == TopRight || pos == BottomRight) ==> rect.x1 - (p.0 + width) == offset.0
    ensures (pos == TopLeft || pos == TopRight) ==> p.1 - rect.y0 == offset.1
    ensures (pos == BottomLeft || pos == BottomRight) ==> rect.y1 - (p.1 + height) == offset.1
  {
    match pos
    case TopRight => (rect.x1 - width - offset.0, rect.y0 + offset.1)
    case TopLeft => (rect.x0 + offset.0, rect.y0 + offset.1)
    case BottomLeft => (rect.x0 + offset.0, rect.y1 - height - offset.1)
    case BottomRight => (rect.x1 - width - offset.0, rect.y1 - height - offset.1)
  }

  /**
   * A window that fits in the display together with its (non-negative)
   * offsets is placed wholly inside the display, whatever the corner.
   */
  lemma PlacedInside(width: real, height: real, pos: ScreenLoc, offset: Offset, rect: Rect)
    requires 0.0 <= width && 0.0 <= height && 0.0 <= offset.0 && 0.0 <= offset.1
    requires width + offset.0 <= rect.x1 - rect.x0 && height + offset.1 <= rect.y1 - rect.y0
    ensures var p := PlaceWidget(width, height, pos, offset, rect);
            rect.x0 <= p.0 && p.0 + width <= rect.x1 && rect.y0 <= p.1 && p.1 + height <= rect.y1
  {
  }

  /** The full-size window in the bottom-right corner, without and with an offset. */
  lemma PlaceBottomRightExample(rect: Rect)
    ensures PlaceWidget(460.0, 160.0, BottomRight, (0.0, 0.0), rect) == (rect.x1 - 460.0, rect.y1 - 160.0)
    ensures PlaceWidget(460.0, 160.0, BottomRight, (10.0, 20.0), rect) == (rect.x1 - 470.0, rect.y1 - 180.0)
  {
  }

  // Buttons

  datatype Button = PrevButton | PauseButton | NextButton

  /**
   * The buttons disabled for `data`: each one is disabled on its own stored
   * capability flag, and the three flags are independent.
   */
  function Disabled(data: Info): (off: set<Button>)
    ensures PrevButton in off <==> data.canPrev
    ensures PauseButton in off <==> data.canPause
    ensures NextButton in off <==> data.canNext
  {
    (if data.canPrev then {PrevButton} else {}) +
    (if data.canPause then {PauseButton} else {}) +
    (if data.canNext then {NextButton} else {})
  }

  /** The play/pause button's label offers the opposite of the current state. */
  function PauseLabel(data: Info): (caption: string)
    ensures caption == "Play" || caption == "Pause"
    ensures caption == "Play" <==> data.isPaused
  {
    if data.isPaused then "Play" else "Pause"
  }

  /**
   * The snapshot stores each capability negated and the button is
   * disabled on the stored flag, so the two negations cancel: a button is
   * enabled exactly when the player reports the capability.
   */
  lemma ButtonsFollowCapabilities(player: Player, location: ScreenLoc, offset: Offset, env: Env)
    requires Snapshot(player, location, offset, env).Ok?
    ensures var info := Snapshot(player, location, offset, env).value;
            && (PrevButton !in Disabled(info) <==> player.canGoPrevious == Some(true))
            && (PauseButton !in Disabled(info) <==> player.canPause == Some(true))
            && (NextButton !in Disabled(info) <==> player.canGoNext == Some(true))
            && (PauseLabel(info) == "Play" <==> player.status == Some(Paused))
  {
    SnapshotFlags(player, location, offset, env);
  }

  // The artwork sub-tree

  const BorderGrey: real := 0.6
  const BorderWidth: real := 2.0

  /** What the framed box holds. */
  datatype Content = Picture(image: ImageBuf) | EmptyBox

  /** The artwork sub-tree: the unbuilt empty box, or a bordered, centred box. */
  datatype Widget = Unbuilt | Framed(grey: real, width: real, content: Content)

  /** The built sub-tree shows the data's picture when it has one, and an empty box otherwise. */
  function BuildWidget(data: Info): (w: Widget)
    ensures w.Framed? && w.grey == BorderGrey && w.width == BorderWidth
    ensures w.content.Picture? <==> data.art.Some?
    ensures data.art.Some? ==> w.content.image == data.art.value
  {
    match data.art
    case Some(image) => Framed(BorderGrey, BorderWidth, Picture(image))
    case None => Framed(BorderGrey, BorderWidth, EmptyBox)
  }

  /**
   * The rebuild test of `DynImage::update`. Its `!same` half is implied by
   * its URL half, so the box is rebuilt exactly when the URL changed.
   */
  predicate NeedsRebuild(oldData: Info, data: Info): (r: bool)
    ensures r <==> oldData.artUrl != data.artUrl
  {
    !Same(oldData, data) && !(oldData.artUrl == data.artUrl)
  }

  /** The widget lifecycle events the artwork box distinguishes. */
  datatype LifeCycle = WidgetAdded | OtherEvent

  /** The artwork box, which swaps its inner sub-tree in place. */
  class DynImage {
    var inner: Widget

    /** A new box holds the unbuilt empty box. */
    constructor ()
      ensures inner == Unbuilt
    {
      inner := Unbuilt;
    }

    /** Replaces the inner sub-tree with one built from `data`. */
    method RebuildInner(data: Info)
      modifies this
      ensures inner == BuildWidget(data)
    {
      inner := BuildWidget(data);
    }

    /** The inner sub-tree is built when the box is added, and kept otherwise. */
    method Lifecycle(event: LifeCycle, data: Info)
      modifies this
      ensures event == WidgetAdded ==> inner == BuildWidget(data)
      ensures event != WidgetAdded ==> inner == old(inner)
    {
      if event == WidgetAdded {
        RebuildInner(data);
      }
    }

    /**
     * On a data change the sub-tree is rebuilt, and the children reported
     * changed, exactly when the artwork URL differs.
     */
    method Update(oldData: Info, data: Info) returns (childrenChanged: bool)
      modifies this
      ensures childrenChanged <==> oldData.artUrl != data.artUrl
      ensures childrenChanged ==> inner == BuildWidget(data)
      ensures !childrenChanged ==> inner == old(inner)
    {
      childrenChanged := false;
      if NeedsRebuild(oldData, data) {
        RebuildInner(data);
        childrenChanged := true;
      }
    }
  }

  // The minimize toggle

  const FullSize: Point := (460.0, 160.0)
  const MinimizedSize: Point := (20.0, 40.0)

  /** The native window's size and position, which the click handler sets. */
  class Window {
    var size: Point
    var position: Point

    constructor (size: Point, position: Point)
      ensures this.size == size && this.position == position
    {
      this.size := size;
      this.position := position;
    }
  }

  /** The window size that goes with the data's `minimize` flag. */
  function SizeFor(minimize: bool): Point {
    if minimize then MinimizedSize else FullSize
  }

  /**
   * The size and position the minimize click applies: minimizing places
   * the small window with the data's offset, restoring places the full
   * window with no offset.
   */
  function ToggleGeometry(data: Info, rect: Rect): (g: (Point, Point))
    ensures g.0 == SizeFor(!data.minimize)
    ensures !data.minimize ==> g.1 == PlaceWidget(MinimizedSize.0, MinimizedSize.1, data.location, data.offset, rect)
    ensures data.minimize ==> g.1 == PlaceWidget(FullSize.0, FullSize.1, data.location, (0.0, 0.0), rect)
  {
    if !data.minimize then
      (MinimizedSize, PlaceWidget(MinimizedSize.0, MinimizedSize.1, data.location, data.offset, rect))
    else
      (FullSize, PlaceWidget(FullSize.0, FullSize.1, data.location, (0.0, 0.0), rect))
  }

  /**
   * The minimize click: resizes and places the window, then flips the
   * flag, so the window's size agrees with the new flag.
   */
  method MinimizeClicked(window: Window, data: Info, rect: Rect) returns (updated: Info)
    modifies window
    ensures updated == data.(minimize := !data.minimize)
    ensures (window.size, window.position) == ToggleGeometry(data, rect)
    ensures window.size == SizeFor(updated.minimize)
  {
    if data.minimize == false {
      window.size := MinimizedSize;
      window.position := PlaceWidget(MinimizedSize.0, MinimizedSize.1, data.location, data.offset, rect);
    } else {
      window.size := FullSize;
      window.position := PlaceWidget(FullSize.0, FullSize.1, data.location, (0.0, 0.0), rect);
    }
    updated := data.(minimize := !data.minimize);
  }

  /**
   * Each click changes the size, and the second click restores the size
   * that goes with the original flag; from the full window, two clicks
   * bring back the full window at its offset-free place.
   */
  lemma ToggleTwice(data: Info, rect: Rect)
    ensures var once := data.(minimize := !data.minimize);
            && ToggleGeometry(data, rect).0 != ToggleGeometry(once, rect).0
            && ToggleGeometry(once, rect).0 == SizeFor(data.minimize)
            && (!data.minimize ==>
                  ToggleGeometry(once, rect) == (FullSize, PlaceWidget(FullSize.0, FullSize.1, data.location, (0.0, 0.0), rect)))
  {
  }

  /** The restored window lies inside any display at least 460 x 160. */
  lemma RestoredInside(data: Info, rect: Rect)
    requires data.minimize
    requires FullSize.0 <= rect.x1 - rect.x0 && FullSize.1 <= rect.y1 - rect.y0
    ensures var p := ToggleGeometry(data, rect).1;
            rect.x0 <= p.0 && p.0 + FullSize.0 <= rect.x1 && rect.y0 <= p.1 && p.1 + FullSize.1 <= rect.y1
  {
    PlacedInside(FullSize.0, FullSize.1, data.location, (0.0, 0.0), rect);
  }
}
