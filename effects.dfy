/** The fixed effect catalogue and what applying an effect does to an item's
    set of CSS classes.

    Class names are tokens of the datatype `Class`; `CssClass` gives the string
    each one stands for, and distinct tokens stand for distinct strings. */
module Effects {
  /** The `type` of a catalogue entry. */
  datatype Kind = Animation | Special | Color

  /** The effect names, one per catalogue entry. */
  datatype Effect =
    | RotateCw | RotateCcw | SpinFast | RotateY | RotateX | Rotate180 | Bow | Swing
    | ScaleUp2 | ScaleUp1_5 | ScaleDown0_5 | ScaleDown0_1 | Pulse | StretchX | StretchY | Inflate
    | Jump | HighJump | SlideRight | SlideLeft | DrawCircle | BounceDown | Float | Warp
    | Blink3 | BlinkSlow | FadeOutIn | Outline | Blur | AddShadow | Sepia | Grayscale
    | ParticlesSparkle | ParticlesHeart | Split2 | Split3
    | ColorRed | ColorBlue | ColorYellow | ColorGreen | ColorOrange | ColorPink | ColorPurple
    | ColorCyan | ColorGold | ColorRainbow

  /** The CSS class string of each effect name. */
  function CssName(n: Effect): string {
    match n
    case RotateCw => "rotate-cw"             case RotateCcw => "rotate-ccw"
    case SpinFast => "spin-fast"             case RotateY => "rotate-y"
    case RotateX => "rotate-x"               case Rotate180 => "rotate-180"
    case Bow => "bow"                        case Swing => "swing"
    case ScaleUp2 => "scale-up-2"            case ScaleUp1_5 => "scale-up-1.5"
    case ScaleDown0_5 => "scale-down-0.5"    case ScaleDown0_1 => "scale-down-0.1"
    case Pulse => "pulse"                    case StretchX => "stretch-x"
    case StretchY => "stretch-y"             case Inflate => "inflate"
    case Jump => "jump"                      case HighJump => "high-jump"
    case SlideRight => "slide-right"         case SlideLeft => "slide-left"
    case DrawCircle => "draw-circle"         case BounceDown => "bounce-down"
    case Float => "float"                    case Warp => "warp"
    case Blink3 => "blink-3"                 case BlinkSlow => "blink-slow"
    case FadeOutIn => "fade-out-in"          case Outline => "outline"
    case Blur => "blur"                      case AddShadow => "add-shadow"
    case Sepia => "sepia"                    case Grayscale => "grayscale"
    case ParticlesSparkle => "particles-sparkle"
    case ParticlesHeart => "particles-heart"
    case Split2 => "split-2"                 case Split3 => "split-3"
    case ColorRed => "color-red"             case ColorBlue => "color-blue"
    case ColorYellow => "color-yellow"       case ColorGreen => "color-green"
    case ColorOrange => "color-orange"       case ColorPink => "color-pink"
    case ColorPurple => "color-purple"       case ColorCyan => "color-cyan"
    case ColorGold => "color-gold"           case ColorRainbow => "color-rainbow"
  }

  /** The `type` the catalogue gives each name. Note that "color-rainbow" is an
      animation, not a color. */
  function KindOf(n: Effect): Kind {
    match n
    case ParticlesSparkle | ParticlesHeart | Split2 | Split3 => Special
    case ColorRed | ColorBlue | ColorYellow | ColorGreen | ColorOrange
       | ColorPink | ColorPurple | ColorCyan | ColorGold => Color
    case _ => Animation
  }

  /** The 46 entries in the page's order, written as six rows; a release
      draws one of them uniformly. Each entry's `type` is `KindOf` its name. */
  const Catalogue: seq<Effect> := Turns + Resizes + Moves + Looks + Specials + Colors

  const Turns: seq<Effect> := [RotateCw, RotateCcw, SpinFast, RotateY, RotateX, Rotate180, Bow, Swing]
  const Resizes: seq<Effect> := [ScaleUp2, ScaleUp1_5, ScaleDown0_5, ScaleDown0_1, Pulse, StretchX, StretchY, Inflate]
  const Moves: seq<Effect> := [Jump, HighJump, SlideRight, SlideLeft, DrawCircle, BounceDown, Float, Warp]
  const Looks: seq<Effect> := [Blink3, BlinkSlow, FadeOutIn, Outline, Blur, AddShadow, Sepia, Grayscale]
  const Specials: seq<Effect> := [ParticlesSparkle, ParticlesHeart, Split2, Split3]
  const Colors: seq<Effect> := [ColorRed, ColorBlue, ColorYellow, ColorGreen, ColorOrange, ColorPink,
                                ColorPurple, ColorCyan, ColorGold, ColorRainbow]

  /** The `type` column of the catalogue, first part: the first 32 entries
      are animations and the next 4 are exactly the specials. */
  lemma RowKinds()
    ensures forall e :: e in Turns + Resizes + Moves + Looks ==> KindOf(e) == Animation
    ensures forall e :: e in Specials <==> KindOf(e) == Special
  {
  }

  /** The `type` column, last part: the colors are exactly the last row
      without its final entry, `color-rainbow`, which is an animation
      despite its name. */
  lemma ColorRowKinds()
    ensures forall e :: KindOf(e) == Color ==> e in Colors && e != ColorRainbow
    ensures forall e :: e in Colors && e != ColorRainbow ==> KindOf(e) == Color
    ensures Colors[9] == ColorRainbow && KindOf(ColorRainbow) == Animation
  {
  }

  /** The catalogue holds 46 entries. */
  lemma CatalogueSize()
    ensures |Catalogue| == 46
  {
  }

  /** A class an element of the page can carry. */
  datatype Class =
    | Fx(effect: Effect)
    | UserItem | Dragging | SplitClone | Particle | Sparkle | Heart

  /** The CSS class string each token stands for. */
  function CssClass(c: Class): string {
    match c
    case Fx(n) => CssName(n)
    case UserItem => "user-item"
    case Dragging => "dragging"
    case SplitClone => "split-clone"
    case Particle => "particle"
    case Sparkle => "sparkle"
    case Heart => "heart"
  }

  /** The catalogue lists every effect, so the `Fx` tokens are exactly the
      catalogue's names: the classes `applyEffect` strips. */
  lemma CatalogueComplete(e: Effect)
    ensures e in Catalogue
  {
  }

  /** `classList.remove(...effects)`: the result carries no catalogue name,
      and every other class is kept. */
  function Strip(classes: set<Class>): (r: set<Class>)
    ensures r <= classes
    ensures forall c :: c in r ==> !c.Fx?
    ensures forall c :: c in classes && !c.Fx? ==> c in r
  {
    set c | c in classes && !c.Fx?
  }

  /** Stripping is idempotent, and stripping a set that carries no effect is a
      no-op. */
  lemma StripIdempotent(classes: set<Class>)
    ensures Strip(Strip(classes)) == Strip(classes)
    ensures (forall c :: c in classes ==> !c.Fx?) ==> Strip(classes) == classes
  {
  }

  /** What a special effect spawns instead of adding a class. */
  datatype Spawn = Nothing | Burst(particle: Class) | Split(count: nat)

  /** The name dispatch of the special branch. Entries of other kinds, and a
      special name the dispatch does not know, spawn nothing. */
  function SpawnOf(e: Effect): Spawn {
    if KindOf(e) != Special then Nothing
    else match e
      case ParticlesSparkle => Burst(Sparkle)
      case ParticlesHeart => Burst(Heart)
      case Split2 => Split(2)
      case Split3 => Split(3)
      case _ => Nothing
  }

  /** Every special entry of the catalogue is one the dispatch handles, and
      only special entries spawn anything. */
  lemma SpecialsSpawn(e: Effect)
    ensures KindOf(e) == Special <==> SpawnOf(e) != Nothing
    ensures SpawnOf(e).Burst? ==> SpawnOf(e).particle in {Sparkle, Heart}
    ensures SpawnOf(e).Split? ==> SpawnOf(e).count in {2, 3}
  {
  }

  /** The item's classes once effect `e` is applied: catalogue classes are
      stripped; an animation or color effect then adds its own name, a special
      one adds nothing. So afterwards the item carries exactly the chosen
      effect's name, or no effect name at all, and nothing else changes. */
  function WithEffect(classes: set<Class>, e: Effect): (r: set<Class>)
    ensures forall c :: c in r && c.Fx? ==> c == Fx(e) && KindOf(e) != Special
    ensures KindOf(e) != Special ==> Fx(e) in r
    ensures forall c: Class :: !c.Fx? ==> (c in r <==> c in classes)
  {
    if KindOf(e) == Special then Strip(classes) else Strip(classes) + {Fx(e)}
  }

  /** The classes the once-only `animationend` listener of effect `e` removes:
      the effect's own name for an animation, nothing for a color. */
  function ListenerRemoves(e: Effect): set<Class> {
    if KindOf(e) != Color then {Fx(e)} else {}
  }

  /** An animation effect ends with the item back in its base state: the
      `animationend` cleanup undoes exactly what the effect added. */
  lemma AnimationEndRestores(classes: set<Class>, e: Effect)
    requires KindOf(e) == Animation
    ensures WithEffect(classes, e) - ListenerRemoves(e) == Strip(classes)
  {
  }

  /** A color effect survives `animationend`; only its 1000 ms timer, which
      removes the name, brings the item back to its base state. */
  lemma ColorOnlyClearedByTimer(classes: set<Class>, e: Effect)
    requires KindOf(e) == Color
    ensures Fx(e) in WithEffect(classes, e) - ListenerRemoves(e)
    ensures WithEffect(classes, e) - {Fx(e)} == Strip(classes)
  {
  }
}
