/**
 * `collections.Counter(values).most_common()` over model values: Python
 * equality (`True == 1`, tuples element by element), first-seen order of
 * the distinct values, a stable sort by count (largest first), and the
 * TypeError raised for an unhashable value (a list or a dict).
 */
module Counter {
  import opened PyValue

  /** Whether Python can hash `v` (and so count it). */
  predicate Hashable(v: Value) {
    match v
    case VList(_) => false
    case VDict(_) => false
    case VTuple(es) => forall i :: 0 <= i < |es| ==> Hashable(es[i])
    case _ => true
  }

  /** The representative Python compares by: a bool is the int 0 or 1. */
  function EqKey(v: Value): Value {
    match v
    case VBool(b) => VInt(if b then 1 else 0)
    case VTuple(es) => VTuple(seq(|es|, i requires 0 <= i < |es| => EqKey(es[i])))
    case _ => v
  }

  /** Python's `==` on hashable model values. */
  predicate PyEq(a: Value, b: Value) { EqKey(a) == EqKey(b) }

  /** The first unhashable value, if any. */
  function FirstUnhashable(vs: seq<Value>): (r: Option<Value>)
    ensures r.None? <==> forall i :: 0 <= i < |vs| ==> Hashable(vs[i])
    ensures r.Some? ==> !Hashable(r.value) && r.value in vs
  {
    if vs == [] then None
    else if !Hashable(vs[0]) then Some(vs[0])
    else
      var r := FirstUnhashable(vs[1..]);
      assert forall i :: 1 <= i < |vs| ==> vs[i] == vs[1..][i - 1];
      r
  }

  function UnhashableType(v: Value): string
    decreases v
  {
    match v
    case VTuple(es) =>
      var u := FirstUnhashable(es);
      if u.Some? then UnhashableType(u.value) else "tuple"
    case _ => TypeName(v)
  }

  /** How often a value equal to `v` occurs in `vs`. */
  function Occ(vs: seq<Value>, v: Value): (n: nat)
    ensures n <= |vs|
  {
    if vs == [] then 0 else (if PyEq(vs[|vs| - 1], v) then 1 else 0) + Occ(vs[..|vs| - 1], v)
  }

  /** Whether some element of `d` equals `x`. */
  predicate ContainsEq(d: seq<Value>, x: Value)
  {
    exists k :: 0 <= k < |d| && PyEq(d[k], x)
  }

  /** The counter's keys: the first-seen element of each class of equal values, in first-seen order. */
  function Distinct(vs: seq<Value>): (d: seq<Value>)
    ensures forall a :: 0 <= a < |d| ==> d[a] in vs
  {
    if vs == [] then []
    else
      var d := Distinct(vs[..|vs| - 1]);
      if ContainsEq(d, vs[|vs| - 1]) then d else d + [vs[|vs| - 1]]
  }

  /** The counter's keys are pairwise different. */
  lemma {:induction false} DistinctNoDup(vs: seq<Value>)
    ensures forall a, b :: 0 <= a < b < |Distinct(vs)| ==> !PyEq(Distinct(vs)[a], Distinct(vs)[b])
  {
    if vs != [] {
      var init := vs[..|vs| - 1];
      DistinctNoDup(init);
      var d := Distinct(init);
      var x := vs[|vs| - 1];
      if !ContainsEq(d, x) {
        var d' := d + [x];
        forall a, b | 0 <= a < b < |d'| ensures !PyEq(d'[a], d'[b]) {
          if b == |d| {
            assert d'[a] == d[a];
          } else {
            assert d'[a] == d[a] && d'[b] == d[b];
          }
        }
      }
    }
  }

  /** Every counted element has a key equal to it. */
  lemma {:induction false} DistinctCovers(vs: seq<Value>)
    ensures forall i :: 0 <= i < |vs| ==> ContainsEq(Distinct(vs), vs[i])
  {
    if vs != [] {
      var init := vs[..|vs| - 1];
      DistinctCovers(init);
      var d := Distinct(init);
      var d' := Distinct(vs);
      assert forall a :: 0 <= a < |d| ==> d'[a] == d[a];
      forall i | 0 <= i < |vs| ensures ContainsEq(d', vs[i]) {
        if i < |init| {
          assert init[i] == vs[i];
          var k :| 0 <= k < |d| && PyEq(d[k], init[i]);
          assert d'[k] == d[k];
        } else if !ContainsEq(d, vs[i]) {
          assert d'[|d|] == vs[i];
        } else {
          var k :| 0 <= k < |d| && PyEq(d[k], vs[i]);
          assert d'[k] == d[k];
        }
      }
    }
  }

  /** What the counter holds after counting `vs`: each key with its number of occurrences. */
  function Tally(vs: seq<Value>): (t: seq<(Value, nat)>)
    ensures |t| == |Distinct(vs)|
    ensures forall a :: 0 <= a < |t| ==> t[a] == (Distinct(vs)[a], Occ(vs, Distinct(vs)[a]))
  {
    var d := Distinct(vs);
    seq(|d|, a requires 0 <= a < |d| => (d[a], Occ(vs, d[a])))
  }

  lemma {:induction false} OccZeroIff(vs: seq<Value>, x: Value)
    ensures Occ(vs, x) == 0 <==> forall i :: 0 <= i < |vs| ==> !PyEq(vs[i], x)
  {
    if vs != [] {
      var init := vs[..|vs| - 1];
      OccZeroIff(init, x);
      assert forall i :: 0 <= i < |init| ==> init[i] == vs[i];
    }
  }

  /** Counts never increase along the list. */
  predicate CountsDescending<T>(t: seq<(T, nat)>) {
    forall a, b :: 0 <= a < b < |t| ==> t[a].1 >= t[b].1
  }

  /** No two entries stand for equal values. */
  predicate DistinctKeys(t: seq<(Value, nat)>) {
    forall a, b :: 0 <= a < b < |t| ==> !PyEq(t[a].0, t[b].0)
  }

  /** Inserts `x` before the first entry whose count is not larger (so earlier entries keep their place among equals). */
  function InsertByCount<T>(x: (T, nat), s: seq<(T, nat)>): (r: seq<(T, nat)>)
    ensures multiset(r) == multiset(s) + multiset{x}
    ensures |r| == |s| + 1
    ensures forall e :: e in r ==> e in s || e == x
  {
    if s == [] || s[0].1 <= x.1 then [x] + s
    else
      assert s == [s[0]] + s[1..];
      [s[0]] + InsertByCount(x, s[1..])
  }

  lemma {:induction false} InsertByCountSorted<T>(x: (T, nat), s: seq<(T, nat)>)
    requires CountsDescending(s)
    ensures CountsDescending(InsertByCount(x, s))
  {
    if s != [] && s[0].1 > x.1 {
      assert CountsDescending(s[1..]);
      InsertByCountSorted(x, s[1..]);
      var r := InsertByCount(x, s);
      assert r == [s[0]] + InsertByCount(x, s[1..]);
      forall b | 0 < b < |r| ensures r[0].1 >= r[b].1 {
        assert r[b] in InsertByCount(x, s[1..]);
      }
    }
  }

  lemma {:induction false} InsertByCountDistinct(x: (Value, nat), s: seq<(Value, nat)>)
    requires DistinctKeys(s) && forall e :: e in s ==> !PyEq(e.0, x.0)
    ensures DistinctKeys(InsertByCount(x, s))
  {
    if s != [] && s[0].1 > x.1 {
      assert DistinctKeys(s[1..]);
      InsertByCountDistinct(x, s[1..]);
      var r := InsertByCount(x, s);
      assert r == [s[0]] + InsertByCount(x, s[1..]);
      forall b | 0 < b < |r| ensures !PyEq(r[0].0, r[b].0) {
        assert r[b] in InsertByCount(x, s[1..]);
        if r[b] != x {
          var j :| 0 <= j < |s[1..]| && s[1..][j] == r[b];
          assert s[j + 1] == r[b];
        }
      }
    } else {
      var r := InsertByCount(x, s);
      forall b | 0 < b < |r| ensures !PyEq(r[0].0, r[b].0) {
        assert r[b] in s;
      }
    }
  }

  /** `most_common()`: a stable sort by count, largest first. */
  function MostCommon<T(!new)>(t: seq<(T, nat)>): (r: seq<(T, nat)>)
    ensures multiset(r) == multiset(t)
    ensures |r| == |t|
    ensures forall e :: e in r <==> e in t
  {
    if t == [] then []
    else
      assert t == [t[0]] + t[1..];
      var r := InsertByCount(t[0], MostCommon(t[1..]));
      assert forall e :: e in r <==> e in multiset(r);
      assert forall e :: e in t <==> e in multiset(t);
      r
  }

  lemma {:induction false} MostCommonSorted<T(!new)>(t: seq<(T, nat)>)
    ensures CountsDescending(MostCommon(t))
  {
    if t != [] {
      MostCommonSorted(t[1..]);
      InsertByCountSorted(t[0], MostCommon(t[1..]));
    }
  }

  lemma {:induction false} MostCommonDistinct(t: seq<(Value, nat)>)
    requires DistinctKeys(t)
    ensures DistinctKeys(MostCommon(t))
  {
    if t != [] {
      assert DistinctKeys(t[1..]);
      MostCommonDistinct(t[1..]);
      forall e | e in MostCommon(t[1..]) ensures !PyEq(e.0, t[0].0) {
        var j :| 0 <= j < |t[1..]| && t[1..][j] == e;
        assert t[j + 1] == e;
      }
      InsertByCountDistinct(t[0], MostCommon(t[1..]));
    }
  }

  /** The entries counted more than once, in order. */
  function KeepRepeated<T(!new)>(t: seq<(T, nat)>): (r: seq<(T, nat)>)
    ensures forall e :: e in r <==> e in t && e.1 > 1
  {
    if t == [] then []
    else
      assert t == [t[0]] + t[1..];
      (if t[0].1 > 1 then [t[0]] else []) + KeepRepeated(t[1..])
  }

  lemma {:induction false} KeepRepeatedSorted<T(!new)>(t: seq<(T, nat)>)
    requires CountsDescending(t)
    ensures CountsDescending(KeepRepeated(t))
  {
    if t != [] {
      assert CountsDescending(t[1..]);
      KeepRepeatedSorted(t[1..]);
      var r := KeepRepeated(t);
      if t[0].1 > 1 {
        assert r == [t[0]] + KeepRepeated(t[1..]);
        forall b | 0 < b < |r| ensures r[0].1 >= r[b].1 {
          assert r[b] in KeepRepeated(t[1..]);
          var j :| 0 <= j < |t[1..]| && t[1..][j] == r[b];
          assert t[j + 1] == r[b];
        }
      }
    }
  }

  lemma {:induction false} KeepRepeatedDistinct(t: seq<(Value, nat)>)
    requires DistinctKeys(t)
    ensures DistinctKeys(KeepRepeated(t))
  {
    if t != [] {
      assert DistinctKeys(t[1..]);
      KeepRepeatedDistinct(t[1..]);
      var r := KeepRepeated(t);
      if t[0].1 > 1 {
        assert r == [t[0]] + KeepRepeated(t[1..]);
        forall b | 0 < b < |r| ensures !PyEq(r[0].0, r[b].0) {
          assert r[b] in KeepRepeated(t[1..]);
          var j :| 0 <= j < |t[1..]| && t[1..][j] == r[b];
          assert t[j + 1] == r[b];
        }
      }
    }
  }

  /** `_count_for_overlap`: the repeated values with their counts, most frequent first. */
  function CountForOverlap(vs: seq<Value>): (r: Result<seq<(Value, nat)>>)
    ensures r.Err? <==> exists i :: 0 <= i < |vs| && !Hashable(vs[i])
    ensures r.Err? ==> r.error.cls == TypeError
  {
    match FirstUnhashable(vs)
    case Some(u) => Err(Exc(TypeError, "unhashable type: '" + UnhashableType(u) + "'"))
    case None => Ok(Repeated(vs))
  }

  /** No two elements are equal in Python's sense. */
  predicate NoDuplicates(vs: seq<Value>) {
    forall i, j :: 0 <= i < j < |vs| ==> !PyEq(vs[i], vs[j])
  }

  lemma {:induction false} OccAtLeastTwo(vs: seq<Value>, i: nat, j: nat)
    requires i < j < |vs| && PyEq(vs[i], vs[j])
    ensures Occ(vs, vs[i]) >= 2
  {
    var init := vs[..|vs| - 1];
    if j == |vs| - 1 {
      assert init[i] == vs[i];
      OccZeroIff(init, vs[i]);
    } else {
      assert init[i] == vs[i] && init[j] == vs[j];
      OccAtLeastTwo(init, i, j);
    }
  }

  lemma {:induction false} OccAtMostOne(vs: seq<Value>, x: Value)
    requires NoDuplicates(vs)
    ensures Occ(vs, x) <= 1
  {
    if vs != [] {
      var init := vs[..|vs| - 1];
      assert NoDuplicates(init) by {
        forall i, j | 0 <= i < j < |init| ensures !PyEq(init[i], init[j]) {
          assert init[i] == vs[i] && init[j] == vs[j];
        }
      }
      OccAtMostOne(init, x);
      if PyEq(vs[|vs| - 1], x) {
        OccZeroIff(init, x);
        forall i | 0 <= i < |init| ensures !PyEq(init[i], x) {
          assert init[i] == vs[i];
        }
      }
    }
  }

  lemma {:induction false} OccCongruent(vs: seq<Value>, x: Value, y: Value)
    requires PyEq(x, y)
    ensures Occ(vs, x) == Occ(vs, y)
  {
    if vs != [] { OccCongruent(vs[..|vs| - 1], x, y); }
  }

  /** The repeated values with their counts, most frequent first (the result for hashable input). */
  function Repeated(vs: seq<Value>): seq<(Value, nat)> {
    KeepRepeated(MostCommon(Tally(vs)))
  }

  lemma RepeatedEntries(vs: seq<Value>)
    ensures forall e :: e in Repeated(vs) ==> e.0 in vs && e.1 == Occ(vs, e.0) && e.1 > 1
  {
    var t := Tally(vs);
    forall e | e in Repeated(vs) ensures e.0 in vs && e.1 == Occ(vs, e.0) && e.1 > 1 {
      assert e in t;
      var a :| 0 <= a < |t| && t[a] == e;
    }
  }

  lemma RepeatedComplete(vs: seq<Value>)
    ensures forall i :: 0 <= i < |vs| && Occ(vs, vs[i]) > 1 ==> exists e :: e in Repeated(vs) && PyEq(e.0, vs[i])
  {
    var t := Tally(vs);
    var d := Distinct(vs);
    DistinctCovers(vs);
    forall i | 0 <= i < |vs| && Occ(vs, vs[i]) > 1 ensures exists e :: e in Repeated(vs) && PyEq(e.0, vs[i]) {
      var a :| 0 <= a < |d| && PyEq(d[a], vs[i]);
      OccCongruent(vs, d[a], vs[i]);
      assert t[a] in t;
      assert t[a] in Repeated(vs);
    }
  }

  lemma RepeatedOrdered(vs: seq<Value>)
    ensures CountsDescending(Repeated(vs)) && DistinctKeys(Repeated(vs))
  {
    var t := Tally(vs);
    DistinctNoDup(vs);
    assert DistinctKeys(t);
    MostCommonSorted(t);
    MostCommonDistinct(t);
    KeepRepeatedSorted(MostCommon(t));
    KeepRepeatedDistinct(MostCommon(t));
  }

  lemma RepeatedEmptyIff(vs: seq<Value>)
    ensures Repeated(vs) == [] <==> NoDuplicates(vs)
  {
    var r := Repeated(vs);
    RepeatedEntries(vs);
    RepeatedComplete(vs);
    if NoDuplicates(vs) && r != [] {
      assert r[0] in r;
      OccAtMostOne(vs, r[0].0);
    }
    if !NoDuplicates(vs) {
      var i, j :| 0 <= i < j < |vs| && PyEq(vs[i], vs[j]);
      OccAtLeastTwo(vs, i, j);
    }
  }

  /**
   * What `_count_for_overlap` returns on hashable input: exactly the values
   * that occur more than once, each with its number of occurrences, each once,
   * most frequent first; empty exactly when there is no duplicate.
   */
  lemma CountForOverlapMeaning(vs: seq<Value>)
    requires forall i :: 0 <= i < |vs| ==> Hashable(vs[i])
    ensures CountForOverlap(vs).Ok?
    ensures var r := CountForOverlap(vs).value;
      && CountsDescending(r)
      && DistinctKeys(r)
      && (forall e :: e in r ==> e.0 in vs && e.1 == Occ(vs, e.0) && e.1 > 1)
      && (forall i :: 0 <= i < |vs| && Occ(vs, vs[i]) > 1 ==> exists e :: e in r && PyEq(e.0, vs[i]))
      && (r == [] <==> NoDuplicates(vs))
  {
    RepeatedEntries(vs);
    RepeatedComplete(vs);
    RepeatedOrdered(vs);
    RepeatedEmptyIff(vs);
  }
}
