/**
 * Python's `sorted()` on the hashable values an input check can hold, as
 * the `tabbedshellmenus` overlap message calls it: ints and bools compare
 * by number, strings by code point, and a list of two or more values that
 * mixes the two kinds, or holds any other value, raises TypeError (a
 * comparison sort compares every pair that ends up side by side). The sort
 * is stable: it inserts each value before the first later one it is not
 * greater than.
 */
module PySorted {
  import opened PyValue

  /** Which values a value can be compared with by `<`. */
  datatype Kind = Number | Text | Unordered

  function KindOf(v: Value): Kind {
    match v
    case VBool(_) => Number
    case VInt(_) => Number
    case VStr(_) => Text
    case _ => Unordered
  }

  /** The number an int or bool compares as (True is 1). */
  function NumberOf(v: Value): int {
    match v
    case VBool(b) => if b then 1 else 0
    case VInt(n) => n
    case _ => 0
  }

  /** `a <= b` on strings: by code point, a prefix coming first. */
  predicate StrLe(a: string, b: string)
    decreases |a|
  {
    |a| == 0 || (|b| > 0 && (a[0] < b[0] || (a[0] == b[0] && StrLe(a[1..], b[1..]))))
  }

  lemma {:induction false} StrLeTotal(a: string, b: string)
    ensures StrLe(a, b) || StrLe(b, a)
    decreases |a|
  {
    if |a| > 0 && |b| > 0 && a[0] == b[0] {
      StrLeTotal(a[1..], b[1..]);
    }
  }

  lemma {:induction false} StrLeTrans(a: string, b: string, c: string)
    requires StrLe(a, b) && StrLe(b, c)
    ensures StrLe(a, c)
    decreases |a|
  {
    if |a| > 0 && a[0] == b[0] && b[0] == c[0] {
      StrLeTrans(a[1..], b[1..], c[1..]);
    }
  }

  /** `a <= b` for two values of one orderable kind. */
  predicate Le(a: Value, b: Value) {
    if a.VStr? && b.VStr? then StrLe(a.s, b.s) else NumberOf(a) <= NumberOf(b)
  }

  lemma LeTotal(a: Value, b: Value)
    requires KindOf(a) == KindOf(b) != Unordered
    ensures Le(a, b) || Le(b, a)
  {
    if a.VStr? {
      StrLeTotal(a.s, b.s);
    }
  }

  lemma LeTrans(a: Value, b: Value, c: Value)
    requires KindOf(a) == KindOf(b) == KindOf(c) != Unordered
    requires Le(a, b) && Le(b, c)
    ensures Le(a, c)
  {
    if a.VStr? {
      StrLeTrans(a.s, b.s, c.s);
    }
  }

  /** Every value is of the orderable kind `k`. */
  predicate AllOf(k: Kind, vs: seq<Value>) {
    k != Unordered && forall i :: 0 <= i < |vs| ==> KindOf(vs[i]) == k
  }

  /** `sorted(vs)` compares without raising: at most one value, or all of one orderable kind. */
  predicate Orderable(vs: seq<Value>) {
    |vs| <= 1 || AllOf(KindOf(vs[0]), vs)
  }

  predicate Ascending(vs: seq<Value>) {
    forall a, b :: 0 <= a < b < |vs| ==> Le(vs[a], vs[b])
  }

  /** Inserts `x` before the first value it is not greater than. */
  function Insert(x: Value, s: seq<Value>): (r: seq<Value>)
    ensures multiset(r) == multiset(s) + multiset{x}
    ensures |r| == |s| + 1
    ensures forall e :: e in r ==> e in s || e == x
  {
    if s == [] || Le(x, s[0]) then [x] + s
    else
      assert s == [s[0]] + s[1..];
      [s[0]] + Insert(x, s[1..])
  }

  lemma {:induction false} InsertAscending(k: Kind, x: Value, s: seq<Value>)
    requires AllOf(k, s) && KindOf(x) == k && Ascending(s)
    ensures Ascending(Insert(x, s))
  {
    var r := Insert(x, s);
    if s == [] {
    } else if Le(x, s[0]) {
      assert r == [x] + s;
      forall b | 0 < b < |r| ensures Le(r[0], r[b]) {
        if b > 1 {
          LeTrans(x, s[0], s[b - 1]);
        }
      }
    } else {
      assert AllOf(k, s[1..]) && Ascending(s[1..]);
      InsertAscending(k, x, s[1..]);
      assert r == [s[0]] + Insert(x, s[1..]);
      LeTotal(x, s[0]);
      forall b | 0 < b < |r| ensures Le(r[0], r[b]) {
        assert r[b] in Insert(x, s[1..]);
        if r[b] != x {
          var j :| 0 <= j < |s[1..]| && s[1..][j] == r[b];
          assert s[j + 1] == r[b];
        }
      }
    }
  }

  /** The insertion sort, from the last value to the first. */
  function Sort(vs: seq<Value>): (r: seq<Value>)
    ensures multiset(r) == multiset(vs)
    ensures |r| == |vs|
    ensures forall e :: e in r <==> e in vs
  {
    if vs == [] then []
    else
      assert vs == [vs[0]] + vs[1..];
      var r := Insert(vs[0], Sort(vs[1..]));
      assert forall e :: e in r <==> e in multiset(r);
      assert forall e :: e in vs <==> e in multiset(vs);
      r
  }

  lemma {:induction false} SortAscending(k: Kind, vs: seq<Value>)
    requires AllOf(k, vs)
    ensures Ascending(Sort(vs))
  {
    if vs != [] {
      assert AllOf(k, vs[1..]);
      SortAscending(k, vs[1..]);
      var rest := Sort(vs[1..]);
      forall i | 0 <= i < |rest| ensures KindOf(rest[i]) == k {
        assert rest[i] in vs[1..];
      }
      InsertAscending(k, vs[0], rest);
    }
  }

  /** `sorted(vs)`: the values in ascending order, or the TypeError of the first comparison across kinds. */
  function Sorted(vs: seq<Value>): (r: Result<seq<Value>>)
    ensures r.Ok? <==> Orderable(vs)
    ensures r.Ok? ==> multiset(r.value) == multiset(vs)
    ensures r.Err? ==> r.error.cls == TypeError
  {
    if Orderable(vs) then Ok(Sort(vs))
    else Err(Exc(TypeError, "'<' not supported between instances"))
  }

  /** What `sorted` returns is in ascending order. */
  lemma SortedAscending(vs: seq<Value>)
    requires Sorted(vs).Ok?
    ensures Ascending(Sorted(vs).value)
  {
    if |vs| > 1 {
      SortAscending(KindOf(vs[0]), vs);
    }
  }

  /** An int and a string cannot be sorted together. */
  lemma MixedKindsRaise(n: int, s: string)
    ensures Sorted([VInt(n), VStr(s)]).Err?
    ensures Sorted([VStr(s), VInt(n)]).Err?
  {
    assert KindOf([VInt(n), VStr(s)][1]) == Text;
    assert KindOf([VStr(s), VInt(n)][1]) == Number;
  }
}
