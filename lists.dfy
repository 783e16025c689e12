/**
 * The list comprehensions `[decode(x) for x in xs]` of the decoders: one result
 * per element, in order, and the whole list fails as soon as one element does.
 */
module Lists {
  import opened Json

  function MapAll<T>(xs: seq<Json>, f: Json -> Result<T>): (r: Result<seq<T>>)
    ensures r.Ok? <==> forall i :: 0 <= i < |xs| ==> f(xs[i]).Ok?
    ensures r.Ok? ==> |r.value| == |xs|
    ensures r.Ok? ==> forall i :: 0 <= i < |xs| ==> f(xs[i]) == Ok(r.value[i])
  {
    if xs == [] then Ok([])
    else
      var first :- f(xs[0]);
      var rest :- MapAll(xs[1..], f);
      assert forall i :: 1 <= i < |xs| ==> xs[i] == xs[1..][i - 1];
      Ok([first] + rest)
  }

  /** A list whose every element decodes gives exactly the decoded elements, in order. */
  lemma MapAllOk<T>(xs: seq<Json>, f: Json -> Result<T>, done: seq<T>)
    requires |done| == |xs|
    requires forall k :: 0 <= k < |xs| ==> f(xs[k]) == Ok(done[k])
    ensures MapAll(xs, f) == Ok(done)
  {
    var r := MapAll(xs, f);
    assert r.Ok?;
    assert r.value == done;
  }

  /** Decoding one more element extends the decoded list by it. */
  lemma MapAllSnoc<T>(xs: seq<Json>, i: nat, f: Json -> Result<T>, done: seq<T>, last: T)
    requires i < |xs| && MapAll(xs[..i], f) == Ok(done) && f(xs[i]) == Ok(last)
    ensures MapAll(xs[..i + 1], f) == Ok(done + [last])
  {
    var ys := xs[..i + 1];
    assert forall k :: 0 <= k < i ==> ys[k] == xs[..i][k];
    MapAllOk(ys, f, done + [last]);
  }

  /** One element that fails makes the whole list fail. */
  lemma MapAllFails<T>(xs: seq<Json>, f: Json -> Result<T>, i: nat)
    requires i < |xs| && f(xs[i]).Fail?
    ensures MapAll(xs, f) == Fail
  {
  }

  /**
   * The items `for x in j` walks through: a list its elements, a string its
   * one-character strings. A dict yields its keys, which are strings; every item
   * decoder rejects a string (each proves so), so only an empty dict is kept, as
   * the empty walk, and a non-empty one fails. Other values are not iterable.
   * A definition of Python's iteration: its ensures spell out the definition.
   */
  function Iterated(j: Json): (r: Result<seq<Json>>)
    ensures r.Ok? <==> j.JArr? || j.JStr? || j == JObj(map[])
    ensures j.JArr? ==> r == Ok(j.items)
    ensures j.JStr? ==> r == Ok(Chars(j.s))
    ensures j == JObj(map[]) ==> r == Ok([])
  {
    match j
    case JArr(xs) => Ok(xs)
    case JStr(s) => Ok(Chars(s))
    case JObj(m) => if m == map[] then Ok([]) else Fail
    case _ => Fail
  }

  /** `[f(x) for x in j]`. */
  function ListOf<T>(j: Json, f: Json -> Result<T>): (r: Result<seq<T>>)
    ensures r.Ok? <==> Iterated(j).Ok? && MapAll(Iterated(j).value, f).Ok?
    ensures r.Ok? ==> |r.value| == |Iterated(j).value|
  {
    var xs :- Iterated(j);
    MapAll(xs, f)
  }

  /** A list decodes, one element for each of its items and in order, exactly when every item does. */
  lemma ListOfArray<T>(xs: seq<Json>, f: Json -> Result<T>)
    ensures ListOf(JArr(xs), f).Ok? <==> forall i :: 0 <= i < |xs| ==> f(xs[i]).Ok?
    ensures ListOf(JArr(xs), f).Ok? ==>
      && |ListOf(JArr(xs), f).value| == |xs|
      && forall i :: 0 <= i < |xs| ==> f(xs[i]) == Ok(ListOf(JArr(xs), f).value[i])
  {
  }

  /** A property every decoded element has is had by every element of a decoded list. */
  lemma ListOfKeeps<T>(j: Json, f: Json -> Result<T>, p: T -> bool)
    requires ListOf(j, f).Ok?
    requires forall x :: f(x).Ok? ==> p(f(x).value)
    ensures forall i :: 0 <= i < |ListOf(j, f).value| ==> p(ListOf(j, f).value[i])
  {
    var xs := Iterated(j).value;
    assert forall i :: 0 <= i < |xs| ==> f(xs[i]) == Ok(ListOf(j, f).value[i]);
  }
}
