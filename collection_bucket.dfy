/**
 * `CollectionBucket`: a `Bucket` over a collection of row arrays.  It holds
 * the collection itself (no copy), reports the collection's size, and
 * iterates by viewing each array as a row, in the collection's order.
 */
module CollectionBuckets {
  import JavaText

  const INT_MAX: int := 0x7fff_ffff

  /** A row: the cells of one backing array, in column order. */
  datatype Row<C> = Row(cells: seq<C>)

  /** The bucket; `rows` is the backing collection in its iteration order. */
  datatype CollectionBucket<C> = CollectionBucket(rows: seq<seq<C>>)

  /**
   * `size()`: `Collection.size()`, which a Java collection caps at
   * `Integer.MAX_VALUE`.
   */
  function Size<C>(b: CollectionBucket<C>): (n: int)
    ensures 0 <= n <= INT_MAX
  {
    if |b.rows| <= INT_MAX then |b.rows| else INT_MAX
  }

  /** The rows the stream `rows.stream().map(arrayToSharedRow)` yields. */
  function RowsOf<C>(arrays: seq<seq<C>>): (r: seq<Row<C>>)
    ensures |r| == |arrays|
    ensures forall i :: 0 <= i < |r| ==> r[i].cells == arrays[i]
  {
    if arrays == [] then [] else [Row(arrays[0])] + RowsOf(arrays[1..])
  }

  /** `iterator()`: one row per backing array, in order. */
  function Iterate<C>(b: CollectionBucket<C>): (r: seq<Row<C>>)
    ensures |r| == |b.rows|
    ensures forall i :: 0 <= i < |r| ==> r[i] == Row(b.rows[i])
  {
    RowsOf(b.rows)
  }

  /** Iterating yields as many rows as `size()` reports, for every collection Java can size. */
  lemma IterateMatchesSize<C>(b: CollectionBucket<C>)
    requires |b.rows| <= INT_MAX
    ensures |Iterate(b)| == Size(b)
    ensures forall i :: 0 <= i < |Iterate(b)| ==> Iterate(b)[i].cells == b.rows[i]
  {
  }

  /** `toString()`: `MoreObjects.toStringHelper(this).add("numRows", rows.size())`. */
  function ToString<C>(b: CollectionBucket<C>): (s: string)
    ensures JavaText.StartsWith(s, "CollectionBucket{numRows=") && JavaText.EndsWith(s, "}")
  {
    "CollectionBucket{numRows=" + JavaText.NatToString(Size(b)) + "}"
  }

  /** The number `toString()` reports reads back as the bucket's size. */
  lemma ToStringReportsSize<C>(b: CollectionBucket<C>)
    ensures var s := ToString(b);
      var digits := s[|"CollectionBucket{numRows="| .. |s| - 1];
      (forall i :: 0 <= i < |digits| ==> JavaText.IsDigit(digits[i]))
      && JavaText.ParseNat(digits) == Size(b)
  {
    var s := ToString(b);
    assert s[|"CollectionBucket{numRows="| .. |s| - 1] == JavaText.NatToString(Size(b));
    JavaText.ParseNatToString(Size(b));
  }
}
