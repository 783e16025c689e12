/**
 * A JSON object as the decoders see it: a Python dict that they drain key by
 * key with `pop`, finishing with `assert not d`. The field readers pair each
 * one-key check the decoders repeat with the function that specifies it.
 */
module Records {
  import opened Json

  class Record {
    var fields: map<string, Json>

    constructor (fields: map<string, Json>)
      ensures this.fields == fields
    {
      this.fields := fields;
    }

    /** `d.pop(k)`: removes the key and returns its value, or a `KeyError` when it is missing. */
    method Pop(key: string) returns (r: Result<Json>)
      modifies this
      ensures r == At(old(fields), key)
      ensures fields == old(fields) - {key}
    {
      r := At(fields, key);
      fields := fields - {key};
    }

    /** `d.pop(k, default)`: as `Pop`, with `default` standing in for a missing key. */
    method PopOr(key: string, default: Json) returns (v: Json)
      modifies this
      ensures v == Get(old(fields), key, default)
      ensures fields == old(fields) - {key}
    {
      v := Get(fields, key, default);
      fields := fields - {key};
    }

    /** `not d`: no key is left. */
    predicate IsEmpty()
      reads this
      ensures IsEmpty() <==> Drained(fields)
    {
      |fields| == 0
    }
  }

  /** What `assert not d` demands of the keys left in a record. */
  predicate Drained(m: map<string, Json>) {
    m.Keys == {}
  }

  /** Once every key in `ks` has been popped, nothing is left exactly when `ks` covered the record. */
  lemma DrainedAfter(m: map<string, Json>, ks: set<string>)
    ensures Drained(m - ks) <==> m.Keys <= ks
  {
    if m.Keys <= ks {
      assert (m - ks).Keys == {};
    }
    if Drained(m - ks) {
      forall k | k in m.Keys ensures k in ks {
        assert k !in (m - ks).Keys;
      }
    }
  }

  /** `rest` is what is left of `m` once the keys `ks` are popped: every other key, with its value. */
  ghost predicate Rest(rest: map<string, Json>, m: map<string, Json>, ks: set<string>) {
    && (forall k :: k in rest <==> k in m && k !in ks)
    && (forall k :: k in rest ==> rest[k] == m[k])
  }

  /** Popping `ks1` and then `ks2` leaves what popping both at once does. */
  lemma RestThen(m: map<string, Json>, m1: map<string, Json>, m2: map<string, Json>, ks1: set<string>, ks2: set<string>)
    requires Rest(m1, m, ks1) && Rest(m2, m1, ks2)
    ensures Rest(m2, m, ks1 + ks2)
  {
  }

  /** A key that was not popped reads the same, default included. */
  lemma GetAfter(rest: map<string, Json>, m: map<string, Json>, ks: set<string>, k: string, default: Json)
    requires Rest(rest, m, ks) && k !in ks
    ensures Get(rest, k, default) == Get(m, k, default)
  {
  }

  /** Popping one more key leaves what popping it with the others does. */
  lemma RestWithout(rest: map<string, Json>, m: map<string, Json>, ks: set<string>, k: string)
    requires Rest(rest, m, ks)
    ensures rest - {k} == m - (ks + {k})
  {
  }

  /** Nothing is left once `ks` is popped exactly when the record had no key outside `ks`. */
  lemma RestDrained(rest: map<string, Json>, m: map<string, Json>, ks: set<string>)
    requires Rest(rest, m, ks)
    ensures Drained(rest) <==> m.Keys <= ks
  {
    if Drained(rest) {
      forall k | k in m ensures k in ks {
        assert k !in rest;
      }
    }
    if m.Keys <= ks {
      assert forall k :: k !in rest;
    }
  }

  /** `x = d.pop(k); assert isinstance(x, str)`. */
  function StrAt(m: map<string, Json>, k: string): Result<string> {
    if k in m && m[k].JStr? then Ok(m[k].s) else Fail
  }

  /** `x = d.pop(k); assert isinstance(x, bool)`. */
  function BoolAt(m: map<string, Json>, k: string): Result<bool> {
    if k in m && m[k].JBool? then Ok(m[k].b) else Fail
  }

  /** `int(d.pop(k))`. */
  function IntAt(m: map<string, Json>, k: string): Result<int> {
    if k in m then IntOf(m[k]) else Fail
  }

  /** `x = int(d.pop(k)); assert str(x) == d.pop(k_str)`: the int and its string partner agree. */
  function CheckedIdAt(m: map<string, Json>, k: string, kStr: string): (r: Result<int>)
    ensures r.Ok? <==> k in m && IntOf(m[k]).Ok? && kStr in m && m[kStr] == JStr(Decimal(IntOf(m[k]).value))
    ensures r.Ok? ==> r.value == IntOf(m[k]).value
  {
    var n :- IntAt(m, k);
    if kStr in m && m[kStr] == JStr(Decimal(n)) then Ok(n) else Fail
  }

  /** A zero-padded `_str` partner is not the rendering of its id, so `str(id) == id_str` rejects it. */
  lemma PaddedIdRejected()
    ensures CheckedIdAt(map["id" := JInt(7), "id_str" := JStr("007")], "id", "id_str").Fail?
    ensures CheckedIdAt(map["id" := JInt(7), "id_str" := JStr("7")], "id", "id_str") == Ok(7)
  {
    assert Decimal(7) == "7";
  }

  method PopStr(d: Record, k: string) returns (r: Result<string>)
    modifies d
    ensures r == StrAt(old(d.fields), k)
    ensures d.fields == old(d.fields) - {k}
  {
    var v := d.Pop(k);
    if v.Ok? && v.value.JStr? {
      r := Ok(v.value.s);
    } else {
      r := Fail;
    }
  }

  method PopBool(d: Record, k: string) returns (r: Result<bool>)
    modifies d
    ensures r == BoolAt(old(d.fields), k)
    ensures d.fields == old(d.fields) - {k}
  {
    var v := d.Pop(k);
    if v.Ok? && v.value.JBool? {
      r := Ok(v.value.b);
    } else {
      r := Fail;
    }
  }

  method PopInt(d: Record, k: string) returns (r: Result<int>)
    modifies d
    ensures r == IntAt(old(d.fields), k)
    ensures d.fields == old(d.fields) - {k}
  {
    var v := d.Pop(k);
    if v.Ok? {
      r := IntOf(v.value);
    } else {
      r := Fail;
    }
  }

  method PopCheckedId(d: Record, k: string, kStr: string) returns (r: Result<int>)
    requires k != kStr
    modifies d
    ensures r == CheckedIdAt(old(d.fields), k, kStr)
    ensures r.Ok? ==> d.fields == old(d.fields) - {k} - {kStr}
  {
    var n :- PopInt(d, k);
    var s := d.Pop(kStr);
    if s == Ok(JStr(Decimal(n))) {
      r := Ok(n);
    } else {
      r := Fail;
    }
  }
}
