/**
  The class-based type eraser for sequences
  (TypeErased page, Sources/MyAnySequence_class.swift).

  `MyAnySequenceImpl_class` stores the wrapped sequence; each `makeIterator()`
  wraps a fresh iterator of that sequence in an `IteratorImpl`, whose `next()`
  advances the wrapped iterator in place and hands back what it produced.
  A wrapped sequence is represented by its elements in iteration order.
 */
module TypeErasedSequence {
  import opened Wrappers

  /** The wrapped sequence's own iterator (`S.Iterator`): the elements it
      walks over and how many of them it has handed out. */
  datatype SeqIterator<E> = SeqIterator(elements: seq<E>, position: nat) {

    predicate Valid() {
      position <= |elements|
    }

    /** The elements this iterator has yet to produce. */
    function Remaining(): seq<E>
      requires Valid()
    {
      elements[position..]
    }

    /** One call of the wrapped iterator's `mutating next()`: the produced
        element, if any, and the iterator after the call. */
    function Next(): (result: (Option<E>, SeqIterator<E>))
      requires Valid()
      ensures result.1.Valid() && result.1.elements == elements
      ensures result.0.None? <==> Remaining() == []
      ensures result.0.Some? ==> Remaining() == [result.0.value] + result.1.Remaining()
      ensures result.0.None? ==> result.1 == this
    {
      if position < |elements| then
        (Some(elements[position]), SeqIterator(elements, position + 1))
      else
        (None, this)
    }
  }

  /** A fresh iterator over `s`, as `s.makeIterator()` gives it. */
  function StartIterator<E>(s: seq<E>): (it: SeqIterator<E>)
    ensures it.Valid() && it.Remaining() == s
  {
    SeqIterator(s, 0)
  }

  /** `IteratorImpl`: holds the wrapped iterator and advances it in place. */
  class IteratorImpl<E> {
    var wrapped: SeqIterator<E>

    ghost predicate Valid()
      reads this
    {
      wrapped.Valid()
    }

    ghost function Remaining(): seq<E>
      reads this
      requires Valid()
    {
      wrapped.Remaining()
    }

    constructor (wrapped: SeqIterator<E>)
      requires wrapped.Valid()
      ensures Valid() && this.wrapped == wrapped
    {
      this.wrapped := wrapped;
    }

    /** `next()`: exactly one step of the wrapped iterator, nothing buffered,
        skipped or reordered. */
    method Next() returns (x: Option<E>)
      requires Valid()
      modifies this
      ensures Valid() && wrapped.elements == old(wrapped.elements)
      ensures x.None? <==> old(Remaining()) == []
      ensures x.Some? ==> old(Remaining()) == [x.value] + Remaining()
      ensures x.None? ==> wrapped == old(wrapped)
    {
      var (produced, advanced) := wrapped.Next();
      wrapped := advanced;
      x := produced;
    }
  }

  /** `MyAnySequenceImpl_class`: the erased sequence, holding the wrapped one. */
  class AnySequence<E> {
    var s: seq<E>

    constructor (s: seq<E>)
      ensures this.s == s
    {
      this.s := s;
    }

    /** `MyAnySequence_class.make(s)`. */
    static method Make(s: seq<E>) returns (erased: AnySequence<E>)
      ensures fresh(erased) && erased.s == s
    {
      erased := new AnySequence(s);
    }

    /** `makeIterator()`: a new iterator starting at the beginning of the
        stored sequence; the stored sequence is only read. */
    method MakeIterator() returns (it: IteratorImpl<E>)
      ensures fresh(it) && it.Valid() && it.Remaining() == s
    {
      it := new IteratorImpl(StartIterator(s));
    }
  }

  /** `s.eraseToMyAnySequence()`: the same wrapper `make` builds. */
  method EraseToMyAnySequence<E>(s: seq<E>) returns (erased: AnySequence<E>)
    ensures fresh(erased) && erased.s == s
  {
    erased := new AnySequence(s);
  }

  /** A `for x in erased` traversal: it collects the wrapped sequence's
      elements, in order, until `next()` answers `nil`. */
  method Traverse<E>(erased: AnySequence<E>) returns (xs: seq<E>)
    ensures xs == erased.s
  {
    var it := erased.MakeIterator();
    xs := [];
    var x := it.Next();
    while x.Some?
      invariant fresh(it) && it.Valid()
      invariant x.Some? ==> xs + [x.value] + it.Remaining() == erased.s
      invariant x.None? ==> xs == erased.s
      decreases |it.Remaining()|, x.Some?
    {
      xs := xs + [x.value];
      x := it.Next();
    }
  }

  /** Two iterators made from one erased sequence do not share a position:
      advancing the first leaves the second at the start. */
  method IndependentTraversals<E>(erased: AnySequence<E>) returns (first: Option<E>, again: Option<E>)
    ensures first == again
    ensures first.None? <==> erased.s == []
    ensures first.Some? ==> first.value == erased.s[0]
  {
    var it1 := erased.MakeIterator();
    var it2 := erased.MakeIterator();
    first := it1.Next();
    assert it2.Remaining() == erased.s;
    again := it2.Next();
    if first.Some? {
      assert ([first.value] + it1.Remaining())[0] == erased.s[0];
      assert ([again.value] + it2.Remaining())[0] == erased.s[0];
    }
  }
}
