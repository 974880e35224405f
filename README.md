# OekakiEffect core, modelled in Dafny

OekakiEffect is a browser drawing toy. The user sketches on a canvas and
presses "done"; a non-blank drawing becomes a sticker (a `user-item`
element, masked by the drawing and filled with the stroke color) at a
random place in the container. Stickers can be dragged with mouse or touch.
On release, the sticker gets one effect drawn uniformly from a catalogue of
46:

- an animation class, removed by a once-only `animationend` listener;
- a color class, which outlives `animationend` and is removed by a 1000 ms
  timer;
- a burst of 15 particles, each removing itself after 1000 ms;
- a split into 2 or 3 clones fanned out evenly. The sticker is hidden while
  the clones play and shown again by an 800 ms timer.

The project models this decision core of `script.js` as the page keeps it:

- `Controller.Board` holds the closure state the handlers mutate: the
  stickers, the particle and clone nodes, the pending listeners and timers,
  `activeItem` with its grab offset, and the drawing surface. Each handler
  is a method on the board.
- `Stage` describes the same state as a value (`Scene`) and says what each
  event does to it (`Applied`, `Grabbed`, `Released`, `AnimationEnded`,
  `Fired`). The board's methods are proved to step their fields exactly as
  those functions say. The properties of the page are then proved as lemmas
  about the functions.
- `Effects` holds the catalogue, the kind of each entry and the class-list
  arithmetic of `applyEffect`.
- `Geometry` holds the drag clamp, the spawn range and the split angles.
- `Canvas` holds the blank-surface test.

Randomness is always a parameter:

- the catalogue index (`choice`);
- the spawn corner, constrained to what `Math.random() * (width - 200)` can
  give;
- the next stroke color.

Browser events are method calls. The deferred work is explicit. A pending
`animationend` listener fires through `AnimationEnd(k)` and a pending timer
through `FireTimer(j)`, in whatever order the caller picks.

Class names are a datatype (`Effects.Class`, with `Fx(e)` for a catalogue
name). `Effects.CssName` and `Effects.CssClass` give their CSS spellings.
Because the catalogue lists every `Effect` (`Effects.CatalogueComplete`),
"is a catalogue name" is simply `c.Fx?`.

## Model

| member | source | states |
|---|---|---|
| Canvas.Word | script.js:75-77 | a 32-bit word of the pixel buffer is zero exactly when its four bytes are |
| Canvas.AnyWordSet | script.js:79 | `some(color => color !== 0)` over the word view is true exactly when some byte of the buffer is non-zero |
| Canvas.IsCanvasBlank | script.js:74-80 | the surface is blank exactly when every byte is zero |
| Canvas.ClearedIsBlank | script.js:59 | `clearRect` over the whole surface keeps its size and leaves it blank |
| Canvas.InkIsNotBlank | script.js:74-80 | one non-zero byte anywhere makes the surface non-blank |
| Geometry.Clamp | script.js:233-234 | `Math.max(0, Math.min(v, hi))` is never negative, at most `hi` when `hi >= 0`, the identity inside `[0, hi]`, and pinned to the violated edge outside it |
| Geometry.ClampIdempotent | script.js:233-234 | clamping an already clamped position changes nothing |
| Geometry.ClampMonotonic | script.js:233-234 | clamping keeps the order of positions |
| Geometry.SpawnInsideContainer | script.js:202-206 | a spawn corner drawn from `random * (width - 200)` leaves the 200 px item inside a container at least 200 px wide; for a narrower one it lies in `(width - 200, 0]` |
| Geometry.SplitAnglesEven | script.js:159 | clone `i` of `count` heads `(360 / count) * i` degrees: within `[0, 360)` and spaced exactly `360 / count` apart |
| Geometry.DragFollowsPointer | script.js:218-234 | with the offset taken at the grab, an unclamped drag moves the corner by exactly the pointer's displacement |
| Effects.RowKinds | script.js:87-105 | the catalogue's type column, first part: the first 32 entries are animations and the 4 that follow are exactly the specials |
| Effects.ColorRowKinds | script.js:106-110 | the type column, last part: the colors are exactly the last row without `color-rainbow`, and `color-rainbow`, the last entry, is an animation |
| Effects.CatalogueSize | script.js:87-111 | the catalogue holds 46 entries |
| Effects.CatalogueComplete | script.js:87-111 | every effect is a catalogue entry, so the names `applyEffect` strips are exactly the `Fx` classes |
| Effects.Strip | script.js:173-174 | removing every catalogue name keeps every other class and leaves no catalogue name |
| Effects.StripIdempotent | script.js:173-174 | stripping twice is stripping once; a class list without effect names is unchanged |
| Effects.SpecialsSpawn | script.js:176-181 | a special entry always spawns something (particles of kind sparkle or heart, or 2 or 3 clones), and no other entry spawns anything |
| Effects.WithEffect | script.js:173-183 | after `applyEffect` the class list holds the chosen name alone for an animation or color, no catalogue name for a special, and every non-catalogue class as before |
| Effects.AnimationEndRestores | script.js:184-189 | for an animation, the `animationend` listener removes exactly what the effect added |
| Effects.ColorOnlyClearedByTimer | script.js:184-192 | for a color, the listener leaves the name in place and only the timer's removal restores the stripped list |
| Stage.Moved | script.js:228-236 | after a drag step the corner is non-negative on both axes, within the viewport whenever the item fits, equal to the requested position when that is in range, and nothing but the position changes |
| Stage.Unheard | script.js:189 | once-only listeners on item `k` are consumed when it fires `animationend`; those on other items stay |
| Stage.GrabKeepsFlagInvariant | script.js:211-217 | a grab from the idle state leaves `dragging` on the held item only |
| Stage.ReleaseClearsFlags | script.js:240-246 | releasing the held item, whatever effect follows, leaves no item flagged when only it was flagged |
| Stage.SecondGrabStrandsFlag | script.js:211-246 | a second grab while one item is held, then a release, leaves the first item flagged `dragging` with nothing held |
| Stage.AppliedWellFormed | script.js:170-194 | applying an effect keeps every item a `user-item`, no node a `user-item`, and every listener and timer pointing at something that exists |
| Stage.AppliedItems | script.js:170-194 | only the chosen item changes; it keeps place, size, color, drawing, `user-item` and `dragging`; it carries the chosen name alone, or no name for a special; a split sets its opacity to 0 |
| Stage.AppliedSpawns | script.js:131-181 | an effect appends 15 particles for a burst, `count` clones for a split, nothing otherwise; earlier nodes are untouched and each new node has its own removal timer |
| Stage.CloneHeadings | script.js:152-159 | each clone carries the item's classes with `user-item` replaced by `split-clone`, and clone `i` heads `(360 / count) * i` degrees, within one turn |
| Stage.AnimationRoundTrip | script.js:182-189 | an animation effect followed by its `animationend` leaves the stripped class list and no listener pending on the item |
| Stage.ColorRoundTrip | script.js:182-192 | a color name survives `animationend`; the timer the effect added then restores the stripped class list and the earlier timers |
| Stage.SplitRoundTrip | script.js:147-168 | a split hides the item; its last timer shows it again with its class list untouched |
| Stage.AnimationEndedWellFormed | script.js:184-189 | an `animationend` keeps the scene well formed and touches no other item |
| Stage.FiredWellFormed | script.js:143-191 | a timer firing keeps the scene well formed and removes exactly that timer from the pending ones |
| Controller.Board.constructor | script.js:17-20 | the page starts with no stickers, nothing held, a blank surface and a first stroke color |
| Controller.Board.Sketch | script.js:37-44 | strokes replace the surface's pixels and change nothing else |
| Controller.Board.ClearCanvas | script.js:58-61 | the clear button blanks the surface and picks a new stroke color |
| Controller.Board.Done | script.js:63-72 | on a blank surface nothing changes; otherwise exactly one sticker is appended with the drawing and the current color, the surface is blanked and a new color picked |
| Controller.Board.CreateDraggableItem | script.js:196-208 | appends one `user-item` at the chosen corner, with the given drawing and color |
| Controller.Board.StartDrag | script.js:211-223 | the state changes exactly when the target has `user-item`; the target is then held, flagged `dragging`, and the offset is pointer minus corner; the single-drag invariant is kept from the idle state |
| Controller.Board.Drag | script.js:225-238 | while idle, or with a coordinate undefined, nothing moves; otherwise the held item goes to pointer minus offset, clamped to the viewport |
| Controller.Board.EndDrag | script.js:240-246 | while idle nothing changes; otherwise the held item loses `dragging`, receives exactly one effect, the board returns to idle and no item stays flagged |
| Controller.Board.ApplyEffect | script.js:170-194 | steps the board exactly as `Stage.Applied` with the drawn entry, keeping the board valid and the single-drag invariant |
| Controller.Board.CreateParticles | script.js:131-145 | appends exactly 15 particle nodes of the given kind at the item's center, each with its own removal timer |
| Controller.Board.CreateSplit | script.js:147-168 | hides the item, appends exactly `count` clones with angles `(360 / count) * i`, each with its removal timer, then one opacity-restoring timer |
| Controller.Board.AnimationEnd | script.js:184-189 | fires the item's pending listeners as `Stage.AnimationEnded` says, keeping the board valid |
| Controller.Board.FireTimer | script.js:143-191 | fires one pending timer as `Stage.Fired` says, keeping the board valid |
| Controller.DragAcrossViewport | script.js:211-238 | a grab at offset (50, 30), a drag past the viewport's edges stops at (1080, 0); a drag back follows the pointer to (400, 240); a move without coordinates is ignored |
| Controller.Gesture | script.js:211-246 | a grab from idle, a move and a release leave the sticker at the final pointer less the grab offset, clamped; nothing held, no sticker flagged, and the drawn name alone on the sticker, or none for a special |
| Controller.TwoTouches | script.js:211-246 | two touches that start on two stickers, then the release of the second, leave nothing held while the first sticker still carries `dragging` |

## Left out

- Stroke drawing (`startLine`, `drawLine`, `stopLine`, `getPos`, the `ctx` calls) is a thin layer over the 2D canvas API. `Sketch` stands in for it: it takes the resulting pixels as its parameter.
- `toDataURL` is not modelled. The sticker keeps the raw pixel bytes as its drawing.
- Web Audio (`initAudio`, `playRandomSound`, the `resume` in `startDrag`) is left out. It is a foreign API with floating-point frequencies and envelopes.
- Every `Math.random` is a parameter:
  - the catalogue index;
  - the spawn corner (`SpawnChoice`);
  - the next stroke color's string.
- Particle directions and distances, and the `--tx`/`--ty` offsets computed with `Math.cos`/`Math.sin`, are floating-point and left out. For clones only the angle is kept.
- Timer durations and CSS animations are left out. A timer or `animationend` fires when the caller calls `FireTimer` or `AnimationEnd`, in any order.
  - `Controller.Board.CreateSplit`: the opacity-restoring timer is independent of the clones' removal timers, so the item may reappear before or after its clones are gone. The code uses two separate 800 ms timers and ties neither to the other, and the model follows the code.
- `alert` is left out; the blank case is the `created == false` result of `Done`.
- `preventDefault`, `void item.offsetWidth`, and the listener registrations (script.js:248-255) are left out. `mouseup`, `mouseleave`, `touchend` and `touchcancel` all mean a call to `EndDrag`.
- Positions are whole pixels. The page writes fractional `px` values, both from `Math.random() * (width - 200)` and from fractional pointer coordinates.
- `getBoundingClientRect` is taken to equal the item's `left`/`top` and `offsetWidth` (`size`). This assumes the container sits at the viewport's origin with no transform, and that items are square. `getComputedStyle(item).backgroundColor` is taken to be the item's fill color.
- `className.replace('user-item', 'split-clone')` is modelled on the class set: `user-item` is replaced by `split-clone`.
- Geometry.SpawnInsideContainer: a container narrower than 200 px gives a negative corner, so the sticker starts partly outside. The code does this, so "always within container bounds" is stated only for containers at least 200 px wide.
- Controller.Board.StartDrag: the single-drag invariant (only the held item carries `dragging`) is promised only from the idle state. The page does not remove the flag from an item already held when a second `touchstart` lands on another sticker. `Stage.SecondGrabStrandsFlag` and `Controller.TwoTouches` show the stranded flag.
- Stale references do not arise: stickers are never removed, and each particle or clone is removed only by its own timer (its slot becomes `None`), so no cleanup can find its target gone.
- Pointer coordinates: for touch events `px`/`py` are those of the first touch point (`e.touches[0]`), which need not lie over the target of a later `touchstart`.
