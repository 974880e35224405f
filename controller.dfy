/** The page's event handlers over its closure state: the sticker collection,
    the drag controller (`activeItem`, `offsetX`, `offsetY`), the effect engine
    with its pending listeners and timers, and the drawing surface. */
module Controller {
  import opened Options
  import opened Canvas
  import opened Effects
  import opened Geometry
  import opened Stage

  /** What a pointer-down landed on: a sticker, a particle or clone, or one of
      the page's own elements (the container, the canvas, the buttons), none
      of which carries `user-item`. */
  datatype Target = OnItem(index: nat) | OnDecoration(id: nat) | OnPage

  class Board {
    var items: seq<Item>
    var decorations: seq<Option<Decoration>>
    var listeners: seq<Listener>
    var timers: seq<Timer>
    /** `activeItem`: the index of the held sticker, if any. */
    var active: Option<nat>
    var offsetX: int
    var offsetY: int
    /** The drawing surface's RGBA bytes. */
    var canvas: seq<bv8>
    var strokeColor: string

    function Snapshot(): Scene
      reads this
    {
      Scene(items, decorations, listeners, timers)
    }

    ghost predicate Valid()
      reads this
    {
      WellFormed(Snapshot()) && (active.Some? ==> active.value < |items|) && |canvas| % 4 == 0
    }

    predicate Idle()
      reads this
    {
      active.None?
    }

    /** The single-drag invariant over the current state. */
    ghost predicate FlagInvariant()
      reads this
    {
      DraggingOnlyHeld(Snapshot(), active)
    }

    /** Page load: no stickers, nothing held, a blank surface of `pixels`
        pixels and a first stroke color. */
    constructor (pixels: nat, color: string)
      ensures Valid() && Idle() && FlagInvariant()
      ensures Snapshot() == Scene([], [], [], [])
      ensures canvas == Cleared(4 * pixels) && IsCanvasBlank(canvas) && strokeColor == color
    {
      items, decorations, listeners, timers := [], [], [], [];
      active, offsetX, offsetY := None, 0, 0;
      canvas, strokeColor := Cleared(4 * pixels), color;
    }

    // ------------------------------------------------------------- drawing

    /** Strokes drawn on the surface; the canvas renders them and the resulting
        pixels are the parameter. */
    method Sketch(pixels: seq<bv8>)
      requires Valid() && |pixels| == |canvas|
      modifies this`canvas
      ensures Valid() && canvas == pixels
    {
      canvas := pixels;
    }

    /** The clear button: wipe the surface and pick the next stroke color. */
    method ClearCanvas(nextColor: string)
      requires Valid()
      modifies this`canvas, this`strokeColor
      ensures Valid()
      ensures canvas == Cleared(|old(canvas)|) && IsCanvasBlank(canvas)
      ensures strokeColor == nextColor
    {
      canvas := Cleared(|canvas|);
      strokeColor := nextColor;
    }

    /** The done button. A blank surface is refused (the page alerts) and
        nothing changes; otherwise the drawing becomes a new sticker in the
        current stroke color, the surface is wiped and a new color is picked. */
    method Done(appWidth: int, appHeight: int, x: int, y: int, size: int, nextColor: string)
      returns (created: bool)
      requires Valid() && 0 <= size
      requires SpawnChoice(x, appWidth - ItemFootprint) && SpawnChoice(y, appHeight - ItemFootprint)
      modifies this`items, this`canvas, this`strokeColor
      ensures Valid()
      ensures created <==> !old(IsCanvasBlank(canvas))
      ensures !created ==> items == old(items) && canvas == old(canvas) && strokeColor == old(strokeColor)
      ensures created ==> items == old(items) + [NewItem(old(canvas), old(strokeColor), x, y, size)]
      ensures created ==> canvas == Cleared(|old(canvas)|) && IsCanvasBlank(canvas) && strokeColor == nextColor
      ensures old(FlagInvariant()) ==> FlagInvariant()
    {
      if IsCanvasBlank(canvas) {
        return false;
      }
      var currentColor := strokeColor;
      CreateDraggableItem(canvas, currentColor, appWidth, appHeight, x, y, size);
      canvas := Cleared(|canvas|);
      strokeColor := nextColor;
      created := true;
    }

    /** Appends a sticker at a corner drawn from `[0, width - 200)` and
        `[0, height - 200)` of the container. */
    method CreateDraggableItem(image: seq<bv8>, color: string, appWidth: int, appHeight: int,
                               x: int, y: int, size: int)
      requires Valid() && 0 <= size
      requires SpawnChoice(x, appWidth - ItemFootprint) && SpawnChoice(y, appHeight - ItemFootprint)
      modifies this`items
      ensures Valid()
      ensures items == old(items) + [NewItem(image, color, x, y, size)]
      ensures old(FlagInvariant()) ==> FlagInvariant()
    {
      items := items + [NewItem(image, color, x, y, size)];
    }

    // ---------------------------------------------------------------- drag

    predicate TargetExists(t: Target)
      reads this
    {
      match t
      case OnItem(k) => k < |items|
      case OnDecoration(id) => id < |decorations| && decorations[id].Some?
      case OnPage => true
    }

    /** The class list of the element a pointer-down landed on. */
    function TargetClasses(t: Target): set<Class>
      reads this
      requires TargetExists(t)
    {
      match t
      case OnItem(k) => items[k].classes
      case OnDecoration(id) => decorations[id].value.classes
      case OnPage => {}
    }

    /** `startDrag`: a pointer-down on an element with class `user-item` grabs
        it, flags it `dragging` and records where in it the pointer is; a
        pointer-down anywhere else changes nothing. */
    method StartDrag(t: Target, px: int, py: int)
      requires Valid() && TargetExists(t)
      modifies this`active, this`offsetX, this`offsetY, this`items
      ensures Valid()
      ensures UserItem in old(TargetClasses(t)) <==> t.OnItem?
      ensures !t.OnItem? ==> unchanged(this)
      ensures t.OnItem? ==>
        && active == Some(t.index)
        && Snapshot() == Grabbed(old(Snapshot()), t.index)
        && offsetX == px - old(items[t.index].left)
        && offsetY == py - old(items[t.index].top)
      ensures old(Idle() && FlagInvariant()) ==> FlagInvariant()
    {
      if UserItem in TargetClasses(t) {
        var k := t.index;
        active := Some(k);
        items := items[k := items[k].(classes := items[k].classes + {Dragging})];
        offsetX := px - items[k].left;
        offsetY := py - items[k].top;
      }
    }

    /** `drag`: while a sticker is held and the pointer has coordinates, the
        sticker's corner goes to the pointer less the grab offset, clamped so
        that it stays in the viewport. Otherwise nothing changes. */
    method Drag(px: Option<int>, py: Option<int>, viewportWidth: int, viewportHeight: int)
      requires Valid()
      modifies this`items
      ensures Valid()
      ensures old(active).None? || px.None? || py.None? ==> items == old(items)
      ensures active.Some? && px.Some? && py.Some? ==>
        items == old(items)[active.value := Moved(old(items[active.value]), px.value - offsetX,
                                                  py.value - offsetY, viewportWidth, viewportHeight)]
      ensures old(FlagInvariant()) ==> FlagInvariant()
    {
      if active.Some? {
        if px.None? || py.None? {
          return;
        }
        var k := active.value;
        var x := px.value - offsetX;
        var y := py.value - offsetY;
        var itemSize := items[k].size;
        x := Max(0, Min(x, viewportWidth - itemSize));
        y := Max(0, Min(y, viewportHeight - itemSize));
        items := items[k := items[k].(left := x, top := y)];
      }
    }

    /** `endDrag`: the held sticker loses its `dragging` flag, receives the
        effect drawn (`choice` stands for the random index into the catalogue)
        and is let go.
        With nothing held, nothing happens. */
    method EndDrag(choice: nat)
      requires Valid() && choice < |Catalogue|
      modifies this`items, this`decorations, this`listeners, this`timers, this`active
      ensures Valid() && Idle()
      ensures old(active).None? ==> Snapshot() == old(Snapshot())
      ensures old(active).Some? ==>
        Snapshot() == Applied(Released(old(Snapshot()), old(active).value), old(active).value, Catalogue[choice])
      ensures old(FlagInvariant()) ==> forall i :: 0 <= i < |items| ==> Dragging !in items[i].classes
    {
      if active.Some? {
        var k := active.value;
        items := items[k := items[k].(classes := items[k].classes - {Dragging})];
        ApplyEffect(k, choice);
        active := None;
      }
    }

    // ------------------------------------------------------------- effects

    /** `applyEffect` with catalogue entry `choice` drawn: strip every effect class,
        then add the entry's class and its cleanups, or spawn its particles or
        clones. */
    method ApplyEffect(k: nat, choice: nat)
      requires Valid() && k < |items| && choice < |Catalogue|
      modifies this`items, this`decorations, this`listeners, this`timers
      ensures Valid()
      ensures Snapshot() == Applied(old(Snapshot()), k, Catalogue[choice])
      ensures old(FlagInvariant()) ==> FlagInvariant()
    {
      var e := Catalogue[choice];
      ghost var s0 := Snapshot();
      SpecialsSpawn(e);
      items := items[k := items[k].(classes := Strip(items[k].classes))];
      match SpawnOf(e)
      case Burst(kind) =>
        CreateParticles(k, kind);
        AppliedBurst(s0, k, e);
      case Split(count) =>
        CreateSplit(k, count);
        AppliedSplit(s0, k, e);
      case Nothing =>
        items := items[k := items[k].(classes := items[k].classes + {Fx(e)})];
        listeners := listeners + [Listener(k, e)];
        if KindOf(e) == Color {
          timers := timers + [RemoveClass(k, Fx(e))];
        }
        AppliedPlain(s0, k, e);
    }

    /** `createParticles`: fifteen particles of the given type at the
        sticker's center, each with its own removal timer. */
    method CreateParticles(k: nat, kind: Class)
      requires Valid() && k < |items| && kind in {Sparkle, Heart}
      modifies this`decorations, this`timers
      ensures Valid()
      ensures decorations == old(decorations) + Attached(ParticlesFrom(items[k], kind))
      ensures timers == old(timers) + Removals(|old(decorations)|, ParticleCount)
    {
      var item := items[k];
      var originX, originY := Center(item.left, item.size), Center(item.top, item.size);
      ghost var ps := ParticlesFrom(item, kind);
      for i := 0 to ParticleCount
        invariant Valid()
        invariant decorations == old(decorations) + Attached(ps[..i])
        invariant timers == old(timers) + Removals(|old(decorations)|, i)
      {
        var id := |decorations|;
        decorations := decorations + [Some(ParticleNode({Particle, kind}, originX, originY))];
        timers := timers + [RemoveNode(id)];
      }
      assert ps[..ParticleCount] == ps;
    }

    /** `createSplit`: hide the sticker, append `count` clones spread evenly
        around it, each with its own removal timer, and schedule the sticker's
        return. */
    method CreateSplit(k: nat, count: nat)
      requires Valid() && k < |items|
      modifies this`items, this`decorations, this`timers
      ensures Valid()
      ensures items == old(items)[k := old(items[k]).(opacity := 0)]
      ensures decorations == old(decorations) + Attached(ClonesOf(old(items[k]), count))
      ensures timers == old(timers) + Removals(|old(decorations)|, count) + [RestoreOpacity(k)]
    {
      items := items[k := items[k].(opacity := 0)];
      ghost var cs := ClonesOf(old(items[k]), count);
      for i := 0 to count
        invariant Valid() && items == old(items)[k := old(items[k]).(opacity := 0)]
        invariant decorations == old(decorations) + Attached(cs[..i])
        invariant timers == old(timers) + Removals(|old(decorations)|, i)
      {
        var item := items[k];
        var clone := CloneNode(CloneClasses(item.classes), item.left, item.top, item.color, item.image,
                               SplitAngle(count, i));
        var id := |decorations|;
        decorations := decorations + [Some(clone)];
        timers := timers + [RemoveNode(id)];
      }
      assert cs[..count] == cs;
      timers := timers + [RestoreOpacity(k)];
    }

    // ---------------------------------------------------- deferred cleanups

    /** An animation on sticker `k` ended: its pending listeners fire once
        each, removing the names of animation effects. */
    method AnimationEnd(k: nat)
      requires Valid() && k < |items|
      modifies this`items, this`listeners
      ensures Valid()
      ensures Snapshot() == AnimationEnded(old(Snapshot()), k)
      ensures old(FlagInvariant()) ==> FlagInvariant()
    {
      var item := items[k];
      items := items[k := item.(classes := item.classes - EndedClasses(listeners, k))];
      listeners := Unheard(listeners, k);
    }

    /** Pending timer `j` fires. */
    method FireTimer(j: nat)
      requires Valid() && j < |timers|
      modifies this`items, this`decorations, this`timers
      ensures Valid()
      ensures Snapshot() == Fired(old(Snapshot()), j)
      ensures old(FlagInvariant()) ==> FlagInvariant()
    {
      var t := timers[j];
      timers := timers[..j] + timers[j + 1..];
      match t
      case RemoveClass(k, c) =>
        items := items[k := items[k].(classes := items[k].classes - {c})];
      case RemoveNode(id) =>
        decorations := decorations[id := None];
      case RestoreOpacity(k) =>
        items := items[k := items[k].(opacity := 1)];
    }
  }

  /** A sticker placed at (100, 100), grabbed 50 px right of and 30 px below
      its corner, pushed past the viewport's bottom-right and top edges, then
      brought back: it stops at the edges and then follows the pointer less
      the grab offset. A move without coordinates is ignored. */
  method DragAcrossViewport() returns (pushedLeft: int, pushedTop: int, left: int, top: int)
    ensures pushedLeft == 1080 && pushedTop == 0
    ensures left == 400 && top == 240
  {
    var board := new Board(1, "hsl(0, 100%, 50%)");
    board.CreateDraggableItem([255, 0, 0, 255], "hsl(0, 100%, 50%)", 1000, 800, 100, 100, 200);
    assert board.items == [NewItem([255, 0, 0, 255], "hsl(0, 100%, 50%)", 100, 100, 200)];
    board.StartDrag(OnItem(0), 150, 130);
    assert board.offsetX == 50 && board.offsetY == 30 && board.active == Some(0);
    board.Drag(Some(2000), Some(-5), 1280, 720);
    pushedLeft, pushedTop := board.items[0].left, board.items[0].top;
    assert pushedLeft == 1080 && pushedTop == 0;
    board.Drag(Some(450), Some(270), 1280, 720);
    assert board.items[0].left == 400 && board.items[0].top == 240;
    board.Drag(None, Some(0), 1280, 720);
    left, top := board.items[0].left, board.items[0].top;
  }

  /** One full gesture on any sticker, from the idle state: grab at
      (px, py), move to (qx, qy), release with entry `choice` drawn. The
      sticker ends where the pointer left it less the grab offset, clamped to
      the viewport; nothing is held and no sticker is flagged; and the
      sticker carries the drawn name alone, or no name for a special. */
  method Gesture(board: Board, k: nat, px: int, py: int, qx: int, qy: int,
                 viewportWidth: int, viewportHeight: int, choice: nat)
    requires board.Valid() && board.Idle() && board.FlagInvariant()
    requires k < |board.items| && choice < |Catalogue|
    modifies board
    ensures board.Valid() && board.Idle() && board.FlagInvariant()
    ensures |board.items| == old(|board.items|)
    ensures board.items[k].left == Clamp(qx - (px - old(board.items[k].left)), viewportWidth - old(board.items[k].size))
    ensures board.items[k].top == Clamp(qy - (py - old(board.items[k].top)), viewportHeight - old(board.items[k].size))
    ensures forall c :: c in board.items[k].classes && c.Fx? ==> c == Fx(Catalogue[choice])
    ensures Fx(Catalogue[choice]) in board.items[k].classes <==> KindOf(Catalogue[choice]) != Special
    ensures UserItem in board.items[k].classes
  {
    board.StartDrag(OnItem(k), px, py);
    board.Drag(Some(qx), Some(qy), viewportWidth, viewportHeight);
    ghost var moved := board.Snapshot();
    board.EndDrag(choice);
    AppliedItems(Released(moved, k), k, Catalogue[choice]);
  }

  /** Two touches that begin on two stickers before either ends: once the
      second is released nothing is held, yet the first sticker still
      carries `dragging`. The second `touchstart` reports the first finger's
      point, which is where both grabs take their coordinates from. */
  method TwoTouches() returns (strandedFlag: bool, held: bool)
    ensures strandedFlag && !held
  {
    var board := new Board(1, "hsl(0, 100%, 50%)");
    board.Sketch([0, 0, 0, 255]);
    assert board.canvas[3] != 0;
    var made := board.Done(1000, 800, 10, 10, 200, "hsl(120, 100%, 50%)");
    assert |board.items| == 1;
    board.Sketch([0, 0, 0, 255]);
    assert board.canvas[3] != 0;
    made := board.Done(1000, 800, 300, 300, 200, "hsl(240, 100%, 50%)");
    assert |board.items| == 2 && UserItem in board.items[0].classes && UserItem in board.items[1].classes;
    board.StartDrag(OnItem(0), 50, 50);
    assert Dragging in board.items[0].classes;
    board.StartDrag(OnItem(1), 50, 50);
    assert board.active == Some(1) && Dragging in board.items[0].classes;
    ghost var before := board.Snapshot();
    board.EndDrag(0);
    assert board.items[0] == before.items[0];
    strandedFlag := Dragging in board.items[0].classes;
    held := !board.Idle();
  }
}
