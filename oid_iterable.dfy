/**
 * `OidIterable`: wraps an iterable and numbers its elements in iteration
 * order with a Java `int` counter that starts at 0 on every `iterator()`
 * call.
 */
module OidIterables {
  import opened Wrappers

  const INT_MIN: int := -0x8000_0000
  const INT_MAX: int := 0x7fff_ffff

  predicate IsInt32(x: int) {
    INT_MIN <= x <= INT_MAX
  }

  /** The Java `int` that the mathematical integer `x` wraps around to. */
  function Wrap32(x: int): (r: int)
    ensures IsInt32(r)
  {
    (x - INT_MIN) % 0x1_0000_0000 + INT_MIN
  }

  /** The arithmetic of `AtomicInteger.getAndIncrement`: `x + 1` with two's-complement wrap-around. */
  function IncrementInt32(x: int): (r: int)
    requires IsInt32(x)
    ensures IsInt32(r) && r == Wrap32(x + 1)
  {
    if x == INT_MAX then INT_MIN else x + 1
  }

  /** Adding one to a value moves its remainder modulo 2^32 one step, wrapping at the end. */
  lemma ModNext(x: int)
    ensures (x + 1) % 0x1_0000_0000 == if x % 0x1_0000_0000 == 0xffff_ffff then 0 else x % 0x1_0000_0000 + 1
  {
    var q := x / 0x1_0000_0000;
    var r := x % 0x1_0000_0000;
    if r == 0xffff_ffff {
      assert x + 1 == (q + 1) * 0x1_0000_0000;
    } else {
      assert x + 1 == q * 0x1_0000_0000 + (r + 1);
    }
  }

  /** Counting up by one, one step at a time, is wrapping the count. */
  lemma Wrap32Next(n: int)
    ensures Wrap32(n + 1) == IncrementInt32(Wrap32(n))
  {
    ModNext(n - INT_MIN);
  }

  /** Counts below 2^31 need no wrap-around. */
  lemma Wrap32Small(n: int)
    requires 0 <= n <= INT_MAX
    ensures Wrap32(n) == n
  {
  }

  /** An `OidProvider`: an element together with the oid it was given. */
  datatype OidProvider<T> = OidProvider(oid: int, delegate: T)

  /** What one full iteration of an `OidIterable` over `elements` yields. */
  function Numbered<T>(elements: seq<T>): (r: seq<OidProvider<T>>)
    ensures |r| == |elements|
  {
    seq(|elements|, i requires 0 <= i < |elements| => OidProvider(Wrap32(i), elements[i]))
  }

  /** The iterator that `OidIterable.iterator()` returns. */
  class OidIterator<T> {
    /** What the delegate's iterator yields, in order. */
    const elements: seq<T>
    /** How many elements the delegate's iterator has handed out. */
    var position: nat
    /** The value of the `AtomicInteger` counter. */
    var oid: int
    /** How many times `next()` was called. */
    ghost var calls: nat

    ghost predicate Valid()
      reads this
    {
      position == (if calls <= |elements| then calls else |elements|)
      && oid == Wrap32(calls)
    }

    /** `iterator()`: a fresh delegate iterator and a counter at 0. */
    constructor (delegate: seq<T>)
      ensures Valid()
      ensures elements == delegate && position == 0 && oid == 0 && calls == 0
    {
      elements := delegate;
      position := 0;
      oid := 0;
      calls := 0;
    }

    /** `hasNext()` asks the delegate's iterator. */
    function HasNext(): (r: bool)
      reads this
      ensures Valid() ==> (r <==> calls < |elements|)
    {
      position < |elements|
    }

    /**
     * `next()`: `new OidProvider<>(oid.getAndIncrement(), it.next())`.  The
     * counter is read and advanced before the delegate is asked, so a call on
     * an exhausted iterator still advances it before `it.next()` throws
     * `NoSuchElementException` (the `None` result).
     */
    method Next() returns (r: Option<OidProvider<T>>)
      requires Valid()
      modifies this
      ensures Valid() && calls == old(calls) + 1
      ensures old(HasNext()) ==> r == Some(OidProvider(Wrap32(old(calls)), elements[old(position)]))
      ensures old(HasNext()) ==> position == old(position) + 1
      ensures !old(HasNext()) ==> r.None? && position == old(position)
    {
      var current := oid;
      Wrap32Next(calls);
      oid := IncrementInt32(oid);
      calls := calls + 1;
      if position < |elements| {
        r := Some(OidProvider(current, elements[position]));
        position := position + 1;
      } else {
        r := None;
      }
    }
  }

  /**
   * A for-each over an `OidIterable`: a fresh iterator, drained with
   * `hasNext()` / `next()`.
   */
  method Iterate<T>(delegate: seq<T>) returns (out: seq<OidProvider<T>>)
    ensures out == Numbered(delegate)
  {
    var it := new OidIterator(delegate);
    out := [];
    while it.HasNext()
      invariant it.Valid() && it.elements == delegate
      invariant it.calls == it.position == |out| <= |delegate|
      invariant out == Numbered(delegate)[..|out|]
      decreases |delegate| - |out|
    {
      var next := it.Next();
      out := out + [next.value];
    }
  }

  /** The i-th element (from 0) carries oid i, while i fits in an `int`. */
  lemma NumberedOid<T>(elements: seq<T>, i: int)
    requires 0 <= i < |elements| && i <= INT_MAX
    ensures Numbered(elements)[i] == OidProvider(i, elements[i])
  {
    Wrap32Small(i);
  }

  /** Within one iteration of at most 2^31 elements, oids strictly increase. */
  lemma NumberedOidsIncrease<T>(elements: seq<T>)
    requires |elements| <= INT_MAX + 1
    ensures forall i, j :: 0 <= i < j < |elements| ==> Numbered(elements)[i].oid < Numbered(elements)[j].oid
  {
    forall i, j | 0 <= i < j < |elements|
      ensures Numbered(elements)[i].oid < Numbered(elements)[j].oid
    {
      NumberedOid(elements, i);
      NumberedOid(elements, j);
    }
  }

  /** Past 2^31 elements the `int` counter wraps: element 2^31 gets `Integer.MIN_VALUE`. */
  lemma NumberedWraps<T>(elements: seq<T>)
    requires |elements| > INT_MAX + 1
    ensures Numbered(elements)[INT_MAX + 1].oid == INT_MIN
    ensures Numbered(elements)[INT_MAX].oid == INT_MAX
  {
    Wrap32Next(INT_MAX);
  }
}
