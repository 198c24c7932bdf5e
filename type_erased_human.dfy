/**
  The struct-based type erasers for the `Human` protocol
  (TypeErased page: Sources/AnyHuman.swift, Sources/AnyHuman_.swift, and the
  concrete humans of the page itself).

  `Human` requires `speak()`, `run()` and `see()`. The concrete humans print
  one line per call; here a call returns the lines it prints, and a caller
  appends them to the output it has so far.
 */
module TypeErasedHuman {

  /** The three requirements of the `Human` protocol. */
  datatype Action = Speak | Run | See

  /** Every `Human` the page builds. */
  datatype Human =
    | Chinese(name: string)
    | British(name: string)
    | Emoji(name: string)
    | AnyHuman(box: HumanBox)         // `AnyHuman`: forwards through its box
    | AnyHumanUnboxed(stored: Human)  // `AnyHuman_`: forwards to its stored `_base`

  /** `HumanBox<Base>`: holds the concrete value (`_base`). */
  datatype HumanBox = HumanBox(wrapped: Human)

  predicate IsConcrete(h: Human) {
    h.Chinese? || h.British? || h.Emoji?
  }

  /** The line a concrete human prints for one call: its name, a space, the
      word for the action in its own style, and "...". */
  function Line(h: Human, a: Action): (line: string)
    requires IsConcrete(h)
    ensures |h.name| + 5 <= |line|
    ensures line[..|h.name|] == h.name && line[|h.name|] == ' '
    ensures line[|line| - 3..] == "..."
  {
    match h
    case Chinese(name) =>
      name + match a { case Speak => " 说话..." case Run => " 跑..." case See => " 看..." }
    case British(name) =>
      name + match a { case Speak => " speak..." case Run => " run..." case See => " see..." }
    case Emoji(name) =>
      name + match a { case Speak => " 🎤..." case Run => " 🏃..." case See => " 👀..." }
  }

  /** The concrete human at the bottom of any nesting of erasers. */
  function Concrete(h: Human): (c: Human)
    ensures IsConcrete(c)
    ensures IsConcrete(h) ==> c == h
  {
    match h
    case AnyHuman(box) => Concrete(box.wrapped)
    case AnyHumanUnboxed(stored) => Concrete(stored)
    case _ => h
  }

  // ---------------------------------------------------------------------------
  // Calling the protocol's requirements

  /** `h.speak()`, `h.run()` or `h.see()`: the lines the call prints.
      Whatever the erasers around it, a call prints exactly the one line of
      the concrete human inside. */
  function Perform(h: Human, a: Action): (out: seq<string>)
    ensures out == [Line(Concrete(h), a)]
    decreases h, 1
  {
    match h
    case AnyHuman(box) => BoxPerform(box, a)
    case AnyHumanUnboxed(stored) => Perform(stored, a)
    case _ => [Line(h, a)]
  }

  /** `HumanBox.speak()` and friends: forward to `_base`. */
  function BoxPerform(box: HumanBox, a: Action): (out: seq<string>)
    ensures out == [Line(Concrete(box.wrapped), a)]
    decreases box, 0
  {
    Perform(box.wrapped, a)
  }

  /** `array.forEach { $0.speak() }` (or `run`, `see`): the lines printed by
      calling `a` on each element in turn. */
  function PerformEach(hs: seq<Human>, a: Action): (out: seq<string>)
    ensures |out| == |hs|
    ensures forall i :: 0 <= i < |hs| ==> out[i] == Line(Concrete(hs[i]), a)
  {
    if hs == [] then [] else Perform(hs[0], a) + PerformEach(hs[1..], a)
  }

  // ---------------------------------------------------------------------------
  // AnyHuman (with a box)

  /** Only `AnyHuman.init` makes boxes, and a box never holds an `AnyHuman`. */
  predicate SingleBoxed(h: Human) {
    h.AnyHuman? ==> !h.box.wrapped.AnyHuman?
  }

  /** `AnyHuman(base)`: an `AnyHuman` is reused as it is; anything else is
      put in a new `HumanBox`. */
  function WrapAnyHuman(base: Human): (r: Human)
    ensures r.AnyHuman?
    ensures base.AnyHuman? ==> r == base
    ensures SingleBoxed(base) ==> SingleBoxed(r)
    ensures forall a :: Perform(r, a) == Perform(base, a)
  {
    if base.AnyHuman? then base else AnyHuman(HumanBox(base))
  }

  /** `AnyHuman.base`: the value inside the box. */
  function AnyHumanBase(h: Human): (b: Human)
    requires h.AnyHuman?
    ensures forall a :: Perform(b, a) == Perform(h, a)
  {
    h.box.wrapped
  }

  /** Wrapping twice is wrapping once: no second box. */
  lemma WrapAnyHumanIdempotent(x: Human)
    ensures WrapAnyHuman(WrapAnyHuman(x)) == WrapAnyHuman(x)
  {
  }

  /** `AnyHuman(AnyHuman(x)).base == AnyHuman(x).base == x` for a value `x`
      that is not itself an `AnyHuman`. */
  lemma AnyHumanBaseIsOriginal(x: Human)
    requires !x.AnyHuman?
    ensures AnyHumanBase(WrapAnyHuman(x)) == x
    ensures AnyHumanBase(WrapAnyHuman(WrapAnyHuman(x))) == x
  {
  }

  // ---------------------------------------------------------------------------
  // AnyHuman_ (without a box)

  /** `AnyHuman_(base)`: an `AnyHuman_` is reused as it is; anything else is
      stored directly. */
  function WrapAnyHumanUnboxed(base: Human): (r: Human)
    ensures r.AnyHumanUnboxed?
    ensures base.AnyHumanUnboxed? ==> r == base
    ensures !base.AnyHumanUnboxed? ==> r.stored == base
    ensures forall a :: Perform(r, a) == Perform(base, a)
  {
    if base.AnyHumanUnboxed? then base else AnyHumanUnboxed(base)
  }

  /** `AnyHuman_.base`: the stored value. */
  function AnyHumanUnboxedBase(h: Human): (b: Human)
    requires h.AnyHumanUnboxed?
    ensures forall a :: Perform(b, a) == Perform(h, a)
  {
    h.stored
  }

  lemma WrapAnyHumanUnboxedIdempotent(x: Human)
    ensures WrapAnyHumanUnboxed(WrapAnyHumanUnboxed(x)) == WrapAnyHumanUnboxed(x)
  {
  }

  lemma AnyHumanUnboxedBaseIsOriginal(x: Human)
    requires !x.AnyHumanUnboxed?
    ensures AnyHumanUnboxedBase(WrapAnyHumanUnboxed(x)) == x
    ensures AnyHumanUnboxedBase(WrapAnyHumanUnboxed(WrapAnyHumanUnboxed(x))) == x
  {
  }

  // ---------------------------------------------------------------------------
  // Arrays of erased humans

  function MapWrapAnyHuman(xs: seq<Human>): (r: seq<Human>)
    ensures |r| == |xs| && forall i :: 0 <= i < |xs| ==> r[i] == WrapAnyHuman(xs[i])
  {
    seq(|xs|, i requires 0 <= i < |xs| => WrapAnyHuman(xs[i]))
  }

  function MapWrapAnyHumanUnboxed(xs: seq<Human>): (r: seq<Human>)
    ensures |r| == |xs| && forall i :: 0 <= i < |xs| ==> r[i] == WrapAnyHumanUnboxed(xs[i])
  {
    seq(|xs|, i requires 0 <= i < |xs| => WrapAnyHumanUnboxed(xs[i]))
  }

  /** Erasing every element of an array, either way, does not change what
      calling `a` on each element prints, nor its order. */
  lemma ErasingKeepsBehaviour(xs: seq<Human>, a: Action)
    ensures PerformEach(MapWrapAnyHuman(xs), a) == PerformEach(xs, a)
    ensures PerformEach(MapWrapAnyHumanUnboxed(xs), a) == PerformEach(xs, a)
  {
  }

  /** Erasers are transparent to `Concrete`. */
  lemma ConcreteOfWrap(x: Human)
    ensures Concrete(WrapAnyHuman(x)) == Concrete(x)
    ensures Concrete(WrapAnyHumanUnboxed(x)) == Concrete(x)
  {
  }

  /** The page's first array: `see()` on each `AnyHuman` prints the three
      concrete lines in array order. */
  lemma BoxedArraySeesInOrder()
    ensures PerformEach(MapWrapAnyHuman([Chinese("杨恒"), British("rocky"), Emoji("😈")]), See)
         == ["杨恒 看...", "rocky see...", "😈 👀..."]
  {
    var hs := MapWrapAnyHuman([Chinese("杨恒"), British("rocky"), Emoji("😈")]);
    assert Concrete(hs[0]) == Chinese("杨恒");
    assert Concrete(hs[1]) == British("rocky");
    assert Concrete(hs[2]) == Emoji("😈");
    assert Line(Chinese("杨恒"), See) == "杨恒 看...";
    assert Line(British("rocky"), See) == "rocky see...";
    assert Line(Emoji("😈"), See) == "😈 👀...";
  }

  /** The page's second array: `speak()` on each `AnyHuman_` prints the three
      concrete lines in array order. */
  lemma UnboxedArraySpeaksInOrder()
    ensures PerformEach(MapWrapAnyHumanUnboxed([Chinese("杨恒"), British("rocky"), Emoji("👿")]), Speak)
         == ["杨恒 说话...", "rocky speak...", "👿 🎤..."]
  {
    var hs := MapWrapAnyHumanUnboxed([Chinese("杨恒"), British("rocky"), Emoji("👿")]);
    assert Concrete(hs[0]) == Chinese("杨恒");
    assert Concrete(hs[1]) == British("rocky");
    assert Concrete(hs[2]) == Emoji("👿");
    assert Line(Chinese("杨恒"), Speak) == "杨恒 说话...";
    assert Line(British("rocky"), Speak) == "rocky speak...";
    assert Line(Emoji("👿"), Speak) == "👿 🎤...";
  }
}
