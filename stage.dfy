/** The page's state as a value, and what each event does to it.

    A `Scene` holds the stickers (items, in creation order; an item is named by
    its index), the transient particles and clones (decorations, in creation
    order; a node is named by its index, and its slot is `None` once the node
    has removed itself from the document),
    the registered once-only `animationend` listeners and the pending timers.
    The controller class steps its fields exactly as the functions here say. */
module Stage {
  import opened Options
  import opened Effects
  import opened Geometry

  /** Particles per burst. */
  const ParticleCount: nat := 15

  /** A sticker: position and rendered width in CSS pixels, its class list,
      its inline opacity, its fill color and the exported drawing masking it. */
  datatype Item = Item(left: int, top: int, size: int, classes: set<Class>,
                       opacity: int, color: string, image: seq<bv8>)

  /** A short-lived element appended by a special effect. */
  datatype Decoration =
    | ParticleNode(classes: set<Class>, originX: real, originY: real)
    | CloneNode(classes: set<Class>, left: int, top: int, color: string,
                image: seq<bv8>, angle: real)

  /** A pending `setTimeout` callback. */
  datatype Timer =
    | RemoveClass(item: nat, cls: Class)   // the 1000 ms color cleanup
    | RemoveNode(id: nat)                  // a particle (1000 ms) or clone (800 ms) removing itself
    | RestoreOpacity(item: nat)            // the 800 ms end of a split

  /** A once-only `animationend` listener registered on an item. */
  datatype Listener = Listener(item: nat, effect: Effect)

  datatype Scene = Scene(items: seq<Item>, decorations: seq<Option<Decoration>>,
                         listeners: seq<Listener>, timers: seq<Timer>)

  /** Timer `t` names an existing item, or a node that was appended. */
  predicate TimerFits(t: Timer, items: nat, nodes: nat) {
    match t
    case RemoveClass(k, c) => k < items && c.Fx?
    case RemoveNode(id) => id < nodes
    case RestoreOpacity(k) => k < items
  }

  /** What every reachable scene satisfies: each item carries `user-item` and
      no decoration does (so only items can be grabbed), and listeners and
      timers name existing items and nodes. */
  predicate WellFormed(s: Scene) {
    && (forall i :: 0 <= i < |s.items| ==> UserItem in s.items[i].classes)
    && (forall id :: 0 <= id < |s.decorations| && s.decorations[id].Some? ==>
          UserItem !in s.decorations[id].value.classes)
    && (forall j :: 0 <= j < |s.listeners| ==>
          s.listeners[j].item < |s.items|)
    && (forall j :: 0 <= j < |s.timers| ==> TimerFits(s.timers[j], |s.items|, |s.decorations|))
  }

  /** The single-drag invariant: an item carries `dragging` only while it is the held one. */
  predicate DraggingOnlyHeld(s: Scene, active: Option<nat>) {
    forall i :: 0 <= i < |s.items| && Dragging in s.items[i].classes ==> active == Some(i)
  }

  // ---------------------------------------------------------------- creation

  /** The element `createDraggableItem` appends: class `user-item`, the stroke
      color, the exported drawing, at the chosen corner. */
  function NewItem(image: seq<bv8>, color: string, x: int, y: int, size: int): Item {
    Item(x, y, size, {UserItem}, 1, color, image)
  }

  // -------------------------------------------------------------------- drag

  /** The item after a pointer move: its corner at the requested position,
      clamped on each axis to the viewport less the item's width. The item's
      width is used for both axes. */
  function Moved(item: Item, x: int, y: int, vw: int, vh: int): (r: Item)
    ensures r.left >= 0 && r.top >= 0
    ensures item.size <= vw ==> r.left + r.size <= vw
    ensures item.size <= vh ==> r.top + r.size <= vh
    ensures 0 <= x <= vw - item.size ==> r.left == x
    ensures 0 <= y <= vh - item.size ==> r.top == y
    ensures r.(left := item.left, top := item.top) == item
  {
    item.(left := Clamp(x, vw - item.size), top := Clamp(y, vh - item.size))
  }

  /** The scene once item `k` is grabbed: it gains the `dragging` flag. */
  function Grabbed(s: Scene, k: nat): Scene
    requires k < |s.items|
  {
    s.(items := s.items[k := s.items[k].(classes := s.items[k].classes + {Dragging})])
  }

  /** The scene once the held item `k` is let go: its `dragging` flag cleared. */
  function Released(s: Scene, k: nat): Scene
    requires k < |s.items|
  {
    s.(items := s.items[k := s.items[k].(classes := s.items[k].classes - {Dragging})])
  }

  // ----------------------------------------------------------------- effects

  /** The center of an item along one axis. */
  function Center(corner: int, size: int): real {
    corner as real + size as real / 2.0
  }

  /** The particles of one burst, all starting at the item's center. */
  function ParticlesFrom(item: Item, kind: Class): seq<Decoration> {
    seq(ParticleCount, _ => ParticleNode({Particle, kind}, Center(item.left, item.size), Center(item.top, item.size)))
  }

  /** `className.replace('user-item', 'split-clone')` on a class list that
      carries `user-item`. */
  function CloneClasses(classes: set<Class>): set<Class> {
    classes - {UserItem} + {SplitClone}
  }

  /** The clones of a split, clone `i` heading `(360 / count) * i` degrees. */
  function ClonesOf(item: Item, count: nat): seq<Decoration> {
    seq(count, i requires 0 <= i < count =>
      CloneNode(CloneClasses(item.classes), item.left, item.top, item.color, item.image, SplitAngle(count, i)))
  }

  /** The elements effect `e` appends, given the item as it is once stripped. */
  function Spawned(item: Item, e: Effect): seq<Decoration> {
    match SpawnOf(e)
    case Nothing => []
    case Burst(kind) => ParticlesFrom(item, kind)
    case Split(n) => ClonesOf(item, n)
  }

  /** Appended elements, each in the document. */
  function Attached(sp: seq<Decoration>): seq<Option<Decoration>> {
    seq(|sp|, i requires 0 <= i < |sp| => Some(sp[i]))
  }

  /** One self-removal timer per appended element, in creation order. */
  function Removals(first: nat, n: nat): seq<Timer> {
    seq(n, i requires 0 <= i < n => RemoveNode(first + i))
  }

  /** The timers effect `e` starts on item `k`. */
  function TimersFor(k: nat, e: Effect, first: nat): seq<Timer> {
    match SpawnOf(e)
    case Nothing => if KindOf(e) == Color then [RemoveClass(k, Fx(e))] else []
    case Burst(_) => Removals(first, ParticleCount)
    case Split(n) => Removals(first, n) + [RestoreOpacity(k)]
  }

  /** Animation and color effects register one `animationend` listener. */
  function ListenersFor(k: nat, e: Effect): seq<Listener> {
    if KindOf(e) == Special then [] else [Listener(k, e)]
  }

  /** The item itself after effect `e`: new class list, and hidden by a split. */
  function Affected(item: Item, e: Effect): Item
  {
    item.(classes := WithEffect(item.classes, e),
          opacity := if SpawnOf(e).Split? then 0 else item.opacity)
  }

  /** `applyEffect(items[k])` with effect `e` drawn. */
  function Applied(s: Scene, k: nat, e: Effect): Scene
    requires k < |s.items|
  {
    var item := s.items[k];
    var sp := Spawned(item.(classes := Strip(item.classes)), e);
    Scene(s.items[k := Affected(item, e)],
          s.decorations + Attached(sp),
          s.listeners + ListenersFor(k, e),
          s.timers + TimersFor(k, e, |s.decorations|))
  }

  /** `Applied` for an animation or a color effect: the stripped item gains
      the effect's name and one listener, and a color also one timer. */
  lemma AppliedPlain(s: Scene, k: nat, e: Effect)
    requires k < |s.items| && KindOf(e) != Special
    ensures Applied(s, k, e) ==
      Scene(s.items[k := s.items[k].(classes := Strip(s.items[k].classes) + {Fx(e)})],
            s.decorations,
            s.listeners + [Listener(k, e)],
            s.timers + if KindOf(e) == Color then [RemoveClass(k, Fx(e))] else [])
  {
  }

  /** `Applied` for a burst: the stripped item and its particles. */
  lemma AppliedBurst(s: Scene, k: nat, e: Effect)
    requires k < |s.items| && SpawnOf(e).Burst?
    ensures var stripped := s.items[k].(classes := Strip(s.items[k].classes));
      Applied(s, k, e) ==
      Scene(s.items[k := stripped],
            s.decorations + Attached(ParticlesFrom(stripped, SpawnOf(e).particle)),
            s.listeners,
            s.timers + Removals(|s.decorations|, ParticleCount))
  {
  }

  /** `Applied` for a split: the stripped item hidden, and its clones. */
  lemma AppliedSplit(s: Scene, k: nat, e: Effect)
    requires k < |s.items| && SpawnOf(e).Split?
    ensures var stripped := s.items[k].(classes := Strip(s.items[k].classes));
      Applied(s, k, e) ==
      Scene(s.items[k := stripped.(opacity := 0)],
            s.decorations + Attached(ClonesOf(stripped, SpawnOf(e).count)),
            s.listeners,
            s.timers + Removals(|s.decorations|, SpawnOf(e).count) + [RestoreOpacity(k)])
  {
  }

  // ------------------------------------------------------- deferred cleanups

  /** The names the listeners registered on item `k` remove when it fires
      `animationend`: those of animation effects only. */
  function EndedClasses(ls: seq<Listener>, k: nat): set<Class> {
    set l | l in ls && l.item == k && KindOf(l.effect) != Color :: Fx(l.effect)
  }

  /** The listeners left once those on item `k` have fired. */
  function Unheard(ls: seq<Listener>, k: nat): (r: seq<Listener>)
    ensures forall l :: l in r <==> l in ls && l.item != k
    ensures forall l :: multiset(r)[l] == if l.item == k then 0 else multiset(ls)[l]
    ensures |r| <= |ls|
  {
    if ls == [] then []
    else
      assert ls == [ls[0]] + ls[1..];
      if ls[0].item == k then Unheard(ls[1..], k)
      else [ls[0]] + Unheard(ls[1..], k)
  }

  /** An animation on item `k` ended: every listener on it fires once. */
  function AnimationEnded(s: Scene, k: nat): Scene
    requires k < |s.items|
  {
    var item := s.items[k];
    s.(items := s.items[k := item.(classes := item.classes - EndedClasses(s.listeners, k))],
       listeners := Unheard(s.listeners, k))
  }

  /** Timer `j` fires and is discarded. */
  function Fired(s: Scene, j: nat): Scene
    requires j < |s.timers| && TimerFits(s.timers[j], |s.items|, |s.decorations|)
  {
    var rest := s.timers[..j] + s.timers[j + 1..];
    match s.timers[j]
    case RemoveClass(k, c) =>
      s.(items := s.items[k := s.items[k].(classes := s.items[k].classes - {c})], timers := rest)
    case RemoveNode(id) =>
      s.(decorations := s.decorations[id := None], timers := rest)
    case RestoreOpacity(k) =>
      s.(items := s.items[k := s.items[k].(opacity := 1)], timers := rest)
  }

  // ------------------------------------------------------------- properties

  /** Grabbing from the idle state keeps the single-drag invariant. */
  lemma GrabKeepsFlagInvariant(s: Scene, k: nat)
    requires k < |s.items| && DraggingOnlyHeld(s, None)
    ensures DraggingOnlyHeld(Grabbed(s, k), Some(k))
  {
  }

  /** Releasing the held item, whatever effect it then receives, leaves no
      item flagged. */
  lemma ReleaseClearsFlags(s: Scene, k: nat, e: Effect)
    requires k < |s.items| && DraggingOnlyHeld(s, Some(k))
    ensures DraggingOnlyHeld(Applied(Released(s, k), k, e), None)
  {
  }

  /** The single-drag invariant needs the idle precondition of `GrabKeepsFlagInvariant`:
      a second grab while item `a` is held, followed by the release of the
      second item `b`, leaves `a` flagged `dragging` with nothing held. */
  lemma SecondGrabStrandsFlag(s: Scene, a: nat, b: nat, e: Effect)
    requires a < |s.items| && b < |s.items| && a != b
    ensures var r := Applied(Released(Grabbed(Grabbed(s, a), b), b), b, e);
      Dragging in r.items[a].classes && !DraggingOnlyHeld(r, None)
  {
  }

  /** Applying an effect keeps the scene well formed. */
  lemma AppliedWellFormed(s: Scene, k: nat, e: Effect)
    requires WellFormed(s) && k < |s.items|
    ensures WellFormed(Applied(s, k, e))
  {
  }

  /** What an effect does to the items: only item `k` changes; it keeps its
      place, size, color, drawing, `user-item` and `dragging` flags, and ends
      with the chosen name alone when the effect is an animation or a color,
      and no effect name when it is special; a split also hides it. */
  lemma AppliedItems(s: Scene, k: nat, e: Effect)
    requires k < |s.items| && UserItem in s.items[k].classes
    ensures var r := Applied(s, k, e).items;
      && |r| == |s.items|
      && (forall i :: 0 <= i < |r| && i != k ==> r[i] == s.items[i])
      && r[k].left == s.items[k].left && r[k].top == s.items[k].top && r[k].size == s.items[k].size
      && r[k].color == s.items[k].color && r[k].image == s.items[k].image
      && UserItem in r[k].classes
      && (Dragging in r[k].classes <==> Dragging in s.items[k].classes)
      && (forall c :: c in r[k].classes && c.Fx? ==> c == Fx(e))
      && (Fx(e) in r[k].classes <==> KindOf(e) != Special)
      && r[k].opacity == (if SpawnOf(e).Split? then 0 else s.items[k].opacity)
  {
  }

  /** How many nodes an effect appends: fifteen for a burst, `count` for a
      split, none otherwise. Earlier nodes are untouched, and each new node
      has its own pending removal. */
  lemma AppliedSpawns(s: Scene, k: nat, e: Effect)
    requires k < |s.items|
    ensures var r := Applied(s, k, e);
      && |r.decorations| == |s.decorations| + (match SpawnOf(e)
           case Nothing => 0
           case Burst(_) => ParticleCount
           case Split(n) => n)
      && r.decorations[..|s.decorations|] == s.decorations
      && (forall id :: |s.decorations| <= id < |r.decorations| ==>
            r.decorations[id].Some? && RemoveNode(id) in r.timers)
  {
    var r := Applied(s, k, e);
    var first := |s.decorations|;
    var n := |r.decorations| - first;
    assert r.timers[|s.timers|..|s.timers| + n] == Removals(first, n) by {
      if SpawnOf(e).Split? {
        assert TimersFor(k, e, first)[..n] == Removals(first, n);
      }
    }
    forall id | first <= id < |r.decorations|
      ensures RemoveNode(id) in r.timers
    {
      assert r.timers[|s.timers| + (id - first)] == Removals(first, n)[id - first];
    }
  }

  /** The clones of a split carry the item's classes with `user-item`
      replaced by `split-clone`, and head in directions spaced `360 / count`
      degrees apart, all within one turn. */
  lemma CloneHeadings(item: Item, count: nat)
    ensures |ClonesOf(item, count)| == count
    ensures forall i :: 0 <= i < count ==>
      && ClonesOf(item, count)[i].classes == CloneClasses(item.classes)
      && UserItem !in ClonesOf(item, count)[i].classes
      && SplitClone in ClonesOf(item, count)[i].classes
      && 0.0 <= ClonesOf(item, count)[i].angle < 360.0
      && ClonesOf(item, count)[i].angle == (360.0 / count as real) * i as real
  {
  }

  /** An animation effect, once its animation ends, leaves the item with no
      effect name and every other class as before, and no listener pending
      on it. */
  lemma AnimationRoundTrip(s: Scene, k: nat, e: Effect)
    requires k < |s.items| && KindOf(e) == Animation
    ensures var r := AnimationEnded(Applied(s, k, e), k);
      && r.items[k].classes == Strip(s.items[k].classes)
      && (forall l :: l in r.listeners ==> l.item != k)
  {
  }

  /** A color effect outlives `animationend`; its timer, the one the effect
      appended, then brings the item back to no effect name. */
  lemma ColorRoundTrip(s: Scene, k: nat, e: Effect)
    requires k < |s.items| && KindOf(e) == Color
    ensures Fx(e) in AnimationEnded(Applied(s, k, e), k).items[k].classes
    ensures |Applied(s, k, e).timers| == |s.timers| + 1
    ensures var r := Fired(Applied(s, k, e), |s.timers|);
      r.items[k].classes == Strip(s.items[k].classes) && r.timers == s.timers
  {
  }

  /** A split's last timer shows the item again, class list untouched. */
  lemma SplitRoundTrip(s: Scene, k: nat, e: Effect)
    requires k < |s.items| && SpawnOf(e).Split?
    ensures var a := Applied(s, k, e);
      && |a.timers| == |s.timers| + SpawnOf(e).count + 1
      && a.items[k].opacity == 0
      && var r := Fired(a, |a.timers| - 1);
         r.items[k].opacity == 1 && r.items[k].classes == Strip(s.items[k].classes)
  {
  }

  /** An `animationend` keeps the scene well formed, and leaves the other
      items as they were. */
  lemma AnimationEndedWellFormed(s: Scene, k: nat)
    requires WellFormed(s) && k < |s.items|
    ensures WellFormed(AnimationEnded(s, k))
    ensures forall i :: 0 <= i < |s.items| && i != k ==> AnimationEnded(s, k).items[i] == s.items[i]
  {
  }

  /** A timer firing keeps the scene well formed and removes exactly that
      timer from the pending ones. */
  lemma FiredWellFormed(s: Scene, j: nat)
    requires WellFormed(s) && j < |s.timers|
    ensures WellFormed(Fired(s, j))
    ensures multiset(Fired(s, j).timers) + multiset{s.timers[j]} == multiset(s.timers)
  {
    var r := Fired(s, j);
    assert s.timers == s.timers[..j] + [s.timers[j]] + s.timers[j + 1..];
    forall i | 0 <= i < |r.timers|
      ensures TimerFits(r.timers[i], |r.items|, |r.decorations|)
    {
      if i < j {
        assert r.timers[i] == s.timers[i];
      } else {
        assert r.timers[i] == s.timers[i + 1];
      }
    }
  }
}

