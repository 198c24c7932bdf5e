# LearnCombine study pages: the repository's own logic, in Dafny

The repository is a set of Swift Playground pages about Apple's Combine
framework. Most of each page calls the framework and prints what it returns.
This project models the few pieces of logic the pages define themselves:

- **Node builder and `Group`** (FunctionBuilder page, `Sources/Group.swift`).
  A result builder whose block children (`Cell`, `EmptyNode`, optionals) each
  flatten to a list of nodes. A group's `nodes` are those lists concatenated in
  order. Module `FunctionBuilder`, all functions and lemmas.
- **Class-based sequence eraser** (TypeErased page,
  `Sources/MyAnySequence_class.swift`). `MyAnySequenceImpl_class` stores the
  wrapped sequence. Each `makeIterator()` returns a new `IteratorImpl` whose
  `next()` advances the wrapped iterator in place. Module `TypeErasedSequence`.
  It has the classes `IteratorImpl` and `AnySequence`, and the wrapped
  iterator is the value type `SeqIterator`.
- **Struct-based `Human` erasers** (`AnyHuman` with its `HumanBox`, and the
  box-less `AnyHuman_`), plus the page's concrete humans. Module
  `TypeErasedHuman`. `AnyHuman_` is the constructor `AnyHumanUnboxed`. The
  protocol's `speak`/`run`/`see` are one function, `Perform`, taking an
  `Action`. What a call prints is returned as a list of lines.
- **`romanNumeral(from:)`**, which appears identically on the
  TransformingOperators and Operators pages. It is a five-entry table that
  throws `ParseError` for any other number. Module `RomanNumerals`; the thrown
  error is a `Result` value.
- **`MyLogger.write`** (Debugging page). It drops text that is blank after
  trimming whitespace and newlines. Any other text is printed once, untrimmed,
  after the prefix `MyLogger `. Module `Debugging`.

The `Group { ... }` initialiser does not type-check as written
(FunctionBuilder.xcplaygroundpage/Sources/Group.swift:103). Its closure is
declared to return one `Nodeable`, but `buildBlock` returns `[Nodeable]`. The
model follows the evident intent: the group's nodes are the flattened
children of the block (`GroupOfBlock`). The `compactMap { $0 }` in that
initialiser runs over non-optional values, so it keeps every element and is
not modelled separately.

## Model

| member | source | states |
|---|---|---|
| `FunctionBuilder.BuildNodes` | DoCombine.playground/Pages/FunctionBuilder.xcplaygroundpage/Sources/Group.swift:52-78 | flattening any `Nodeable` yields at most one node, and only cells; the result is non-empty exactly when a cell is reachable through present optionals |
| `FunctionBuilder.CellBuildsItself` | DoCombine.playground/Pages/FunctionBuilder.xcplaygroundpage/Sources/Group.swift:56-59 | a `Cell` (default conformance) flattens to the one-element list holding itself |
| `FunctionBuilder.EmptyNodeBuildsNothing` | DoCombine.playground/Pages/FunctionBuilder.xcplaygroundpage/Sources/Group.swift:76-78 | `EmptyNode` flattens to the empty list |
| `FunctionBuilder.OptionalIsTransparent` | DoCombine.playground/Pages/FunctionBuilder.xcplaygroundpage/Sources/Group.swift:62-67 | a `nil` optional flattens to `[]`; a present one flattens to what its wrapped node flattens to |
| `FunctionBuilder.BuildNodesIdempotent` | DoCombine.playground/Pages/FunctionBuilder.xcplaygroundpage/Sources/Group.swift:56-78 | every node a flattening yields flattens to itself again |
| `FunctionBuilder.BuildEmptyBlock` | DoCombine.playground/Pages/FunctionBuilder.xcplaygroundpage/Sources/Group.swift:7-9 | the empty block builds the empty list |
| `FunctionBuilder.BuildBlock` | DoCombine.playground/Pages/FunctionBuilder.xcplaygroundpage/Sources/Group.swift:25-27 | the variadic block returns its children with the same count and order |
| `FunctionBuilder.BuildIf` | DoCombine.playground/Pages/FunctionBuilder.xcplaygroundpage/Sources/Group.swift:34-37 | an absent branch becomes `EmptyNode`, a present branch is returned as it is; either way the result flattens exactly as the optional itself would |
| `FunctionBuilder.BuildEitherFirst` | DoCombine.playground/Pages/FunctionBuilder.xcplaygroundpage/Sources/Group.swift:39-42 | the `if` branch passes through unchanged |
| `FunctionBuilder.BuildEitherSecond` | DoCombine.playground/Pages/FunctionBuilder.xcplaygroundpage/Sources/Group.swift:44-47 | the `else` branch passes through unchanged |
| `FunctionBuilder.FlatMapNodes` | DoCombine.playground/Pages/FunctionBuilder.xcplaygroundpage/Sources/Group.swift:108-110 | the `flatMap` yields no more nodes than there are elements, all of them cells |
| `FunctionBuilder.GroupOf` | DoCombine.playground/Pages/FunctionBuilder.xcplaygroundpage/Sources/Group.swift:107-111 | `Group(of:node:)` holds at most one cell per element |
| `FunctionBuilder.GroupOfBlock` | DoCombine.playground/Pages/FunctionBuilder.xcplaygroundpage/Sources/Group.swift:103-105 | the builder group holds at most one cell per block child |
| `FunctionBuilder.FlatMapNodesAppend` | DoCombine.playground/Pages/FunctionBuilder.xcplaygroundpage/Sources/Group.swift:108-110 | flattening `a + b` is flattening `a` followed by flattening `b` |
| `FunctionBuilder.FlatMapNodesSingle` | DoCombine.playground/Pages/FunctionBuilder.xcplaygroundpage/Sources/Group.swift:108-110 | a single element contributes exactly its own flattened node |
| `FunctionBuilder.GroupOfCellsKeepsEveryElement` | DoCombine.playground/Pages/FunctionBuilder.xcplaygroundpage/Sources/Group.swift:107-111 | with a cell-producing closure, the group has one node per element, in order: the cell made for it |
| `FunctionBuilder.GroupOfCellBlock` | DoCombine.playground/Pages/FunctionBuilder.xcplaygroundpage/Sources/Group.swift:103-105 | a block of cells yields a group of exactly those cells |
| `FunctionBuilder.AbsentIfContributesNothing` | DoCombine.playground/Pages/FunctionBuilder.xcplaygroundpage/Sources/Group.swift:34-37 | an `if` whose branch is absent leaves the group equal to the group of the other children |
| `FunctionBuilder.IfElseContributesTakenBranch` | DoCombine.playground/Pages/FunctionBuilder.xcplaygroundpage/Sources/Group.swift:39-47 | an `if`/`else` contributes the nodes of the taken branch, between the nodes of its neighbours |
| `FunctionBuilder.FourCellGroup` | DoCombine.playground/Pages/FunctionBuilder.xcplaygroundpage/Contents.swift:170-180 | the page's group of cells a, b, c, d has exactly those four nodes |
| `FunctionBuilder.GroupOfThreeStrings` | DoCombine.playground/Pages/FunctionBuilder.xcplaygroundpage/Sources/Group.swift:124-126 | `Group(of: ["a","b","c"]) { Cell($0) }` holds the three cells in order |
| `TypeErasedSequence.SeqIterator.Next` | DoCombine.playground/Pages/TypeErased.xcplaygroundpage/Sources/MyAnySequence_class.swift:33-35 | one step of the wrapped iterator: `nil` exactly when nothing remains, otherwise the first remaining element, with the rest still to come |
| `TypeErasedSequence.StartIterator` | DoCombine.playground/Pages/TypeErased.xcplaygroundpage/Sources/MyAnySequence_class.swift:44-46 | a fresh iterator of the stored sequence has all of its elements still to come |
| `TypeErasedSequence.IteratorImpl.constructor` | DoCombine.playground/Pages/TypeErased.xcplaygroundpage/Sources/MyAnySequence_class.swift:29-31 | the iterator holds the wrapped iterator it is given |
| `TypeErasedSequence.IteratorImpl.Next` | DoCombine.playground/Pages/TypeErased.xcplaygroundpage/Sources/MyAnySequence_class.swift:33-35 | `next()` advances only the wrapped iterator, by one step: it returns the first remaining element and removes it, or returns `nil` and changes nothing when none remain |
| `TypeErasedSequence.AnySequence.constructor` | DoCombine.playground/Pages/TypeErased.xcplaygroundpage/Sources/MyAnySequence_class.swift:40-42 | the erased sequence stores the wrapped sequence |
| `TypeErasedSequence.AnySequence.Make` | DoCombine.playground/Pages/TypeErased.xcplaygroundpage/Sources/MyAnySequence_class.swift:50-52 | `make(s)` builds a new wrapper storing `s` |
| `TypeErasedSequence.AnySequence.MakeIterator` | DoCombine.playground/Pages/TypeErased.xcplaygroundpage/Sources/MyAnySequence_class.swift:44-46 | each call returns a new iterator whose remaining elements are the whole stored sequence; the stored sequence is not modified |
| `TypeErasedSequence.EraseToMyAnySequence` | DoCombine.playground/Pages/TypeErased.xcplaygroundpage/Sources/MyAnySequence_class.swift:56-58 | `s.eraseToMyAnySequence()` builds the same wrapper as `make(s)` |
| `TypeErasedSequence.Traverse` | DoCombine.playground/Pages/TypeErased.xcplaygroundpage/Sources/MyAnySequence_class.swift:26-46 | iterating the erased sequence until `nil` yields exactly the wrapped sequence's elements, in order |
| `TypeErasedSequence.IndependentTraversals` | DoCombine.playground/Pages/TypeErased.xcplaygroundpage/Sources/MyAnySequence_class.swift:44-46 | two iterators of one erased sequence are independent: both start at the first element, or both report `nil` for an empty sequence |
| `TypeErasedHuman.Line` | DoCombine.playground/Pages/TypeErased.xcplaygroundpage/Contents.swift:81-109 | the line a concrete human prints for `speak`/`run`/`see`: its name, a space, the word for the action in its own style, and `...` |
| `TypeErasedHuman.Concrete` | DoCombine.playground/Pages/TypeErased.xcplaygroundpage/Sources/AnyHuman.swift:3-36 | reference for forwarding, with no counterpart function in the source: following `box`/`_base` through any nesting of erasers ends at one of the page's concrete humans; `Perform`'s contract is stated against it |
| `TypeErasedHuman.Perform` | DoCombine.playground/Pages/TypeErased.xcplaygroundpage/Sources/AnyHuman.swift:25-35 | calling `speak`/`run`/`see` on any human, erased or not, prints exactly one line: the concrete human's line for that call |
| `TypeErasedHuman.BoxPerform` | DoCombine.playground/Pages/TypeErased.xcplaygroundpage/Sources/AnyHuman.swift:55-65 | the box forwards each call to its stored value, printing that value's one line |
| `TypeErasedHuman.PerformEach` | DoCombine.playground/Pages/TypeErased.xcplaygroundpage/Contents.swift:117-121 | calling one operation on each array element prints one line per element, in array order |
| `TypeErasedHuman.WrapAnyHuman` | DoCombine.playground/Pages/TypeErased.xcplaygroundpage/Sources/AnyHuman.swift:11-19 | `AnyHuman(x)` reuses an `AnyHuman` as is and otherwise boxes `x`; it never adds a second box and behaves exactly as `x` |
| `TypeErasedHuman.AnyHumanBase` | DoCombine.playground/Pages/TypeErased.xcplaygroundpage/Sources/AnyHuman.swift:7-9 | `base` returns a value that behaves exactly as the eraser |
| `TypeErasedHuman.WrapAnyHumanIdempotent` | DoCombine.playground/Pages/TypeErased.xcplaygroundpage/Sources/AnyHuman.swift:13-14 | wrapping an `AnyHuman` again returns it unchanged |
| `TypeErasedHuman.AnyHumanBaseIsOriginal` | DoCombine.playground/Pages/TypeErased.xcplaygroundpage/Sources/AnyHuman.swift:7-19 | `AnyHuman(AnyHuman(x)).base == AnyHuman(x).base == x` for `x` not itself an `AnyHuman` |
| `TypeErasedHuman.WrapAnyHumanUnboxed` | DoCombine.playground/Pages/TypeErased.xcplaygroundpage/Sources/AnyHuman_.swift:11-18 | `AnyHuman_(x)` reuses an `AnyHuman_` as is and otherwise stores `x` directly; it behaves exactly as `x` |
| `TypeErasedHuman.AnyHumanUnboxedBase` | DoCombine.playground/Pages/TypeErased.xcplaygroundpage/Sources/AnyHuman_.swift:7-9 | `base` returns a value that behaves exactly as the eraser |
| `TypeErasedHuman.WrapAnyHumanUnboxedIdempotent` | DoCombine.playground/Pages/TypeErased.xcplaygroundpage/Sources/AnyHuman_.swift:13-14 | wrapping an `AnyHuman_` again returns it unchanged |
| `TypeErasedHuman.AnyHumanUnboxedBaseIsOriginal` | DoCombine.playground/Pages/TypeErased.xcplaygroundpage/Sources/AnyHuman_.swift:7-18 | `AnyHuman_(AnyHuman_(x)).base == AnyHuman_(x).base == x` for `x` not itself an `AnyHuman_` |
| `TypeErasedHuman.MapWrapAnyHuman` | DoCombine.playground/Pages/TypeErased.xcplaygroundpage/Contents.swift:111-115 | the array of `AnyHuman`s has one eraser per value, in order |
| `TypeErasedHuman.MapWrapAnyHumanUnboxed` | DoCombine.playground/Pages/TypeErased.xcplaygroundpage/Contents.swift:169-173 | the array of `AnyHuman_`s has one eraser per value, in order |
| `TypeErasedHuman.ConcreteOfWrap` | DoCombine.playground/Pages/TypeErased.xcplaygroundpage/Sources/AnyHuman_.swift:11-18 | either eraser wraps the same concrete human as its argument |
| `TypeErasedHuman.ErasingKeepsBehaviour` | DoCombine.playground/Pages/TypeErased.xcplaygroundpage/Sources/AnyHuman_.swift:25-35 | erasing every array element with either eraser prints the same lines, in the same order, as the unerased array |
| `TypeErasedHuman.BoxedArraySeesInOrder` | DoCombine.playground/Pages/TypeErased.xcplaygroundpage/Contents.swift:111-131 | `see()` over the page's `AnyHuman` array prints the three concrete lines in array order |
| `TypeErasedHuman.UnboxedArraySpeaksInOrder` | DoCombine.playground/Pages/TypeErased.xcplaygroundpage/Contents.swift:169-191 | `speak()` over the page's `AnyHuman_` array prints the three concrete lines in array order |
| `RomanNumerals.RomanNumeral` | DoCombine.playground/Pages/TransformingOperators.xcplaygroundpage/Contents.swift:88-97 | succeeds exactly for 1...5, otherwise throws `ParseError`; every success is one of the table's numerals |
| `RomanNumerals.RomanNumeralTable` | DoCombine.playground/Pages/Operators.xcplaygroundpage/Contents.swift:82-89 | 1, 2, 3, 4, 5 give "I", "II", "III", "IV", "V" |
| `RomanNumerals.RomanNumeralRoundTrip` | DoCombine.playground/Pages/Operators.xcplaygroundpage/Contents.swift:83-84 | every numeral in the table reads back, in Roman notation, as the number that produced it |
| `RomanNumerals.RomanNumeralInjective` | DoCombine.playground/Pages/TransformingOperators.xcplaygroundpage/Contents.swift:91-92 | no two numbers share a numeral |
| `RomanNumerals.PageCalls` | DoCombine.playground/Pages/TransformingOperators.xcplaygroundpage/Contents.swift:100-116 | 3 succeeds with "III"; 6 (the commented-out call) and 9 (the `tryMap` input) throw `ParseError`. The Operators page makes the same calls at lines 92-109 |
| `Debugging.TrimLeading` | DoCombine.playground/Pages/Debugging.xcplaygroundpage/Contents.swift:43 | removes exactly the leading run of whitespace and newlines |
| `Debugging.TrimTrailing` | DoCombine.playground/Pages/Debugging.xcplaygroundpage/Contents.swift:43 | removes exactly the trailing run of whitespace and newlines |
| `Debugging.Trimmed` | DoCombine.playground/Pages/Debugging.xcplaygroundpage/Contents.swift:43-44 | the trimmed text is empty exactly when the text is blank; otherwise it starts and ends with a non-whitespace character |
| `Debugging.Write` | DoCombine.playground/Pages/Debugging.xcplaygroundpage/Contents.swift:40-47 | blank text prints nothing; any other text prints one line, `MyLogger ` followed by the original, untrimmed text |
| `Debugging.Emitted` | DoCombine.playground/Pages/Debugging.xcplaygroundpage/Contents.swift:52-56 | a stream of writes prints at most one line per write, each `MyLogger ` followed by non-blank text |
| `Debugging.PrintedLinesKeepText` | DoCombine.playground/Pages/Debugging.xcplaygroundpage/Contents.swift:58-67 | when each message is written as `print` writes it (an empty prefix, the message, then `"\n"`), the empty and newline-only writes are dropped and each message comes out once, prefixed, in order |
| `Debugging.OnePrintEmitsOneLine` | DoCombine.playground/Pages/Debugging.xcplaygroundpage/Contents.swift:58-67 | one `print` of non-blank text (an empty write, the text, `"\n"`) emits exactly the prefixed text, whatever writes follow |

## Left out

- The abstract base class `MyAnySequence_class` and its base `Iterator`
  (MyAnySequence_class.swift:9-22) are not modelled. Their `next()` and
  `makeIterator()` only call `fatalError`, and this model has no class
  inheritance. The concrete `MyAnySequenceImpl_class` and `IteratorImpl` stand
  alone as `AnySequence` and `IteratorImpl`.
- A wrapped Swift sequence is represented by its elements in iteration order.
  The order Swift gives a `Set` (as in `make(some_set)`) is not modelled.
- `TypeErasedSequence.Traverse` and `TypeErasedSequence.IndependentTraversals`
  assume that the wrapped sequence is finite and can be traversed more than
  once, as the page's `Array` and `Set` are. A Swift `Sequence` may be
  single-pass or infinite. For such a sequence, `makeIterator()` would not
  restart from the first element, and a traversal would not end. The model
  does not capture either case.
- The `as? AnyHuman` / `as? AnyHuman_` casts are tests on the datatype's
  constructor. `base: Any` returns a `Human` here.
- The concrete humans' `print` calls are returned as lines. The newline that
  `print` appends to each line is not part of the lines.
- The `()` that `print($0.speak())` prints after each line on the TypeErased
  page is not modelled. It is Swift printing a `Void` value.
- `Debugging.Emitted` and `PrintedLinesKeepText` rely on one assumption about
  the standard library: `print(text, to: &logger)` makes three `write` calls,
  the empty separator prefix written before its one item, the text, and the
  `"\n"` terminator. The text of the messages that Combine's
  `print(_:to:)` operator produces is the framework's and is not modelled.
- `Debugging.Write`'s output line does not include the `"\n"` that `print`
  appends.
- The Combine pipelines, demand handling, subjects, schedulers, timers,
  networking, KVO and SwiftUI builders on the pages are not modelled. They are
  behaviour of Apple's closed-source frameworks, which the pages only call.
