/** `make_int_range`: a `[begin, end]` pair from the export, as an ordered span. */
module IntRangeDecoder {
  import opened Json

  datatype IntRange = IntRange(begin: int, end: int) {
    predicate Ordered() { begin <= end }
  }

  /**
   * Fails unless `j` has exactly two elements, both `int()`-convertible, the
   * second no smaller than the first. A two-character string qualifies too,
   * since Python's `len` and indexing work on strings.
   */
  function MakeIntRange(j: Json): (r: Result<IntRange>)
    ensures r.Ok? ==> r.value.Ordered()
    ensures r.Ok? ==> Indexable(j).Some? && |Indexable(j).value| == 2
    ensures r.Ok? ==> IntOf(Indexable(j).value[0]) == Ok(r.value.begin)
    ensures r.Ok? ==> IntOf(Indexable(j).value[1]) == Ok(r.value.end)
  {
    match Indexable(j)
    case None => Fail
    case Some(xs) =>
      if |xs| != 2 then Fail
      else
        var begin :- IntOf(xs[0]);
        var end :- IntOf(xs[1]);
        if end >= begin then Ok(IntRange(begin, end)) else Fail
  }

  /** Every convertible ordered pair decodes, and to exactly its two values. */
  lemma MakeIntRangeComplete(j: Json, a: int, b: int)
    requires Indexable(j).Some? && |Indexable(j).value| == 2
    requires IntOf(Indexable(j).value[0]) == Ok(a) && IntOf(Indexable(j).value[1]) == Ok(b)
    ensures MakeIntRange(j) == if a <= b then Ok(IntRange(a, b)) else Fail
  {
  }

  /** A pair written with int strings, as the export writes indices, decodes like the ints themselves. */
  lemma MakeIntRangeOfDecimals(a: int, b: int)
    ensures MakeIntRange(JArr([JStr(Decimal(a)), JStr(Decimal(b))]))
         == MakeIntRange(JArr([JInt(a), JInt(b)]))
    ensures MakeIntRange(JArr([JInt(a), JInt(b)])) == if a <= b then Ok(IntRange(a, b)) else Fail
  {
    DecimalRoundTrip(a);
    DecimalRoundTrip(b);
  }

  /** Anything but two elements fails, whatever the elements are. */
  lemma MakeIntRangeNeedsPair(xs: seq<Json>)
    requires |xs| != 2
    ensures MakeIntRange(JArr(xs)).Fail?
  {
  }

  /** The string "12" is a pair of one-digit strings, so it decodes to the span 1..2. */
  lemma MakeIntRangeOfTwoCharString()
    ensures MakeIntRange(JStr("12")) == Ok(IntRange(1, 2))
    ensures MakeIntRange(JStr("21")).Fail?
  {
    assert ParseInt("1") == Some(1) by { assert "1"[..0] == ""; }
    assert ParseInt("2") == Some(2) by { assert "2"[..0] == ""; }
  }
}
