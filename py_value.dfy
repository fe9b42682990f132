/**
 * The fragment of Python's data model that the menu configuration pipeline
 * touches: the values a parsed YAML/JSON configuration (or a hand-written
 * dict) can hold, the exceptions the library's code can raise, and the
 * builtins it applies to them (`str`, `repr`, truthiness, `len`, iteration,
 * subscription, `dict.get`, ASCII `lower`).
 */
module PyValue {

  datatype Option<+T> = None | Some(value: T)

  /** The exception classes raised (or caught) by the modelled code. */
  datatype ExcClass =
    | TypeError | KeyError | IndexError | AttributeError | AssertionError | EOFError
    | SchemaError | SchemaMissingKeyError | SchemaWrongKeyError
    | SchemaForbiddenKeyError | SchemaUnexpectedTypeError
    | InvalidInputError | ValueOverlapError

  /** A raised exception: its class and `str(e)`. */
  datatype Exc = Exc(cls: ExcClass, text: string)

  /** Either a value or the exception that was raised instead. */
  datatype Result<+T> = Ok(value: T) | Err(error: Exc) {
    predicate IsFailure() { Err? }
    function PropagateFailure<U>(): Result<U> requires Err? { Err(error) }
    function Extract(): T requires Ok? { value }
  }

  /** The qualified name of each exception class. */
  function ClassName(c: ExcClass): string {
    match c
    case TypeError => "TypeError"
    case KeyError => "KeyError"
    case IndexError => "IndexError"
    case AttributeError => "AttributeError"
    case AssertionError => "AssertionError"
    case EOFError => "EOFError"
    case SchemaError => "schema.SchemaError"
    case SchemaMissingKeyError => "schema.SchemaMissingKeyError"
    case SchemaWrongKeyError => "schema.SchemaWrongKeyError"
    case SchemaForbiddenKeyError => "schema.SchemaForbiddenKeyError"
    case SchemaUnexpectedTypeError => "schema.SchemaUnexpectedTypeError"
    case InvalidInputError => "pytabby" + ".validators." + "InvalidInputError"
    case ValueOverlapError => "tabbedshellmenus" + ".validators." + "ValueOverlapError"
  }

  /** `str(e.__class__)`. */
  function ClassRepr(c: ExcClass): string {
    "<class '" + ClassName(c) + "'>"
  }

  /**
   * A Python value. `VList` and `VTuple` are Python's list and tuple; a dict
   * keeps its insertion order as an association list with string keys;
   * `VOther` is any other object (a float, a set, a class, ...), known only
   * through its `str()`.
   */
  datatype Value =
    | VNone
    | VBool(b: bool)
    | VInt(i: int)
    | VStr(s: string)
    | VList(elems: seq<Value>)
    | VTuple(elems: seq<Value>)
    | VDict(entries: seq<(string, Value)>)
    | VOther(text: string)

  /** Python truthiness (`bool(v)`). */
  predicate Truthy(v: Value) {
    match v
    case VNone => false
    case VBool(b) => b
    case VInt(i) => i != 0
    case VStr(s) => s != ""
    case VList(es) => es != []
    case VTuple(es) => es != []
    case VDict(ps) => ps != []
    case VOther(_) => true
  }

  /** `isinstance(v, int)`: a bool is an int in Python. */
  predicate IsInt(v: Value) { v.VInt? || v.VBool? }

  /** The integer an `int` (or `bool`) stands for. */
  function AsInt(v: Value): int requires IsInt(v) {
    if v.VInt? then v.i else if v.b then 1 else 0
  }

  /** `isinstance(v, (list, tuple))`. */
  predicate IsListOrTuple(v: Value) { v.VList? || v.VTuple? }

  function TypeName(v: Value): string {
    match v
    case VNone => "NoneType"
    case VBool(_) => "bool"
    case VInt(_) => "int"
    case VStr(_) => "str"
    case VList(_) => "list"
    case VTuple(_) => "tuple"
    case VDict(_) => "dict"
    case VOther(_) => "object"
  }

  function DigitChar(d: nat): char requires d < 10 { "0123456789"[d] }

  /** Decimal notation of a natural number. */
  function NatToString(n: nat): (r: string)
    ensures |r| > 0
  {
    if n < 10 then [DigitChar(n)] else NatToString(n / 10) + [DigitChar(n % 10)]
  }

  /** `str(i)` for an int. */
  function IntToString(i: int): (r: string)
    ensures |r| > 0
  {
    if i < 0 then "-" + NatToString(-i) else NatToString(i)
  }

  /**
   * `repr(s)` of a str: in single quotes, or in double quotes when `s` holds
   * a single quote and no double quote; a backslash, the chosen quote, a
   * newline, a carriage return and a tab are written as escapes.
   */
  function StrRepr(s: string): string {
    var q := QuoteFor(s);
    [q] + Escaped(s, q) + [q]
  }

  function QuoteFor(s: string): char {
    if HasChar(s, '\'') && !HasChar(s, '"') then '"' else '\''
  }

  /** `c in s`, one character at a time. */
  function HasChar(s: string, c: char): bool {
    s != [] && (s[0] == c || HasChar(s[1..], c))
  }

  lemma {:induction false} HasCharIn(s: string, c: char)
    ensures HasChar(s, c) <==> c in s
  {
    if s != [] {
      HasCharIn(s[1..], c);
      assert s == [s[0]] + s[1..];
    }
  }

  function EscapedChar(c: char, q: char): string {
    if c == '\\' then "\\\\"
    else if c == q then ['\\', q]
    else if c == '\n' then "\\n"
    else if c == '\r' then "\\r"
    else if c == '\t' then "\\t"
    else [c]
  }

  function Escaped(s: string, q: char): (r: string)
    ensures |r| >= |s|
  {
    if s == [] then "" else EscapedChar(s[0], q) + Escaped(s[1..], q)
  }

  /** Reads back what `Escaped` wrote, up to the closing quote `q`. */
  function Unescaped(t: string, q: char): string
    decreases |t|
  {
    if t == [] || t[0] == q then ""
    else if t[0] == '\\' && |t| >= 2 then
      (if t[1] == 'n' then "\n" else if t[1] == 'r' then "\r" else if t[1] == 't' then "\t" else [t[1]])
      + Unescaped(t[2..], q)
    else [t[0]] + Unescaped(t[1..], q)
  }

  /** The quote is escaped wherever it occurs, so reading stops exactly at the closing quote. */
  lemma {:induction false} UnescapedEscaped(s: string, q: char, rest: string)
    requires q != '\\' && q != 'n' && q != 'r' && q != 't'
    ensures Unescaped(Escaped(s, q) + [q] + rest, q) == s
  {
    if s != [] {
      var c := s[0];
      var t := Escaped(s[1..], q) + [q] + rest;
      assert Escaped(s, q) + [q] + rest == EscapedChar(c, q) + t;
      UnescapedChar(c, q, t);
      UnescapedEscaped(s[1..], q, rest);
      assert [c] + s[1..] == s;
    }
  }

  /** Reading back one escaped character gives the character and reads on from there. */
  lemma UnescapedChar(c: char, q: char, t: string)
    requires q != '\\' && q != 'n' && q != 'r' && q != 't'
    ensures Unescaped(EscapedChar(c, q) + t, q) == [c] + Unescaped(t, q)
  {
    var e := EscapedChar(c, q) + t;
    if |EscapedChar(c, q)| == 2 {
      assert e[2..] == t;
    } else {
      assert e[1..] == t;
    }
  }

  /** Reading a string literal back gives the string: `repr` of a str loses nothing. */
  lemma StrReprRoundTrip(s: string)
    ensures Unescaped(StrRepr(s)[1..], StrRepr(s)[0]) == s
  {
    var q := QuoteFor(s);
    assert StrRepr(s)[1..] == Escaped(s, q) + [q] + [];
    UnescapedEscaped(s, q, []);
  }

  /** A string with no quote, backslash, newline, carriage return or tab is shown between single quotes as it is. */
  lemma {:induction false} PlainStrRepr(s: string)
    requires forall i :: 0 <= i < |s| ==> s[i] !in "'\"\\\n\r\t"
    ensures StrRepr(s) == "'" + s + "'"
  {
    HasCharIn(s, '\'');
    PlainEscaped(s, '\'');
  }

  lemma {:induction false} PlainEscaped(s: string, q: char)
    requires q == '\''
    requires forall i :: 0 <= i < |s| ==> s[i] !in "'\"\\\n\r\t"
    ensures Escaped(s, q) == s
  {
    if s != [] {
      assert s[0] !in "'\"\\\n\r\t";
      PlainEscaped(s[1..], q);
    }
  }

  /** `repr(v)`. */
  function Repr(v: Value): string
    decreases v, 1
  {
    match v
    case VNone => "None"
    case VBool(b) => if b then "True" else "False"
    case VInt(i) => IntToString(i)
    case VStr(s) => StrRepr(s)
    case VList(es) => "[" + ReprSeq(v, es, 0) + "]"
    case VTuple(es) => if |es| == 1 then "(" + ReprSeq(v, es, 0) + ",)" else "(" + ReprSeq(v, es, 0) + ")"
    case VDict(ps) => "{" + ReprEntriesFrom(v, ps, 0) + "}"
    case VOther(t) => t
  }

  /** The elements of a container from index `k` on, each by `repr`, separated by ", ". */
  function ReprSeq(ghost parent: Value, es: seq<Value>, k: nat): string
    requires parent.VList? || parent.VTuple?
    requires es == parent.elems
    decreases parent, 0, |es| - k
  {
    if k >= |es| then ""
    else (if k == 0 then "" else ", ") + Repr(es[k]) + ReprSeq(parent, es, k + 1)
  }

  function ReprEntriesFrom(ghost parent: Value, ps: seq<(string, Value)>, k: nat): string
    requires parent.VDict? && ps == parent.entries
    decreases parent, 0, |ps| - k
  {
    if k >= |ps| then ""
    else (if k == 0 then "" else ", ") + StrRepr(ps[k].0) + ": " + Repr(ps[k].1)
         + ReprEntriesFrom(parent, ps, k + 1)
  }

  /** `str(v)`: the string itself for a str, the object's own text for other objects, `repr` otherwise. */
  function Str(v: Value): string {
    match v
    case VStr(s) => s
    case VOther(t) => t
    case _ => Repr(v)
  }

  lemma StrOfStr(s: string)
    ensures Str(VStr(s)) == s
  {}

  /** `str(v)` is non-empty for everything except the empty string and an object whose text is empty. */
  lemma StrNonEmpty(v: Value)
    requires !v.VStr? && !v.VOther?
    ensures |Str(v)| > 0
  {}

  /** ASCII lower-casing of one character. */
  function LowerChar(c: char): char {
    if 'A' <= c <= 'Z' then (c as int + 32) as char else c
  }

  /** `s.lower()`, restricted to ASCII letters. */
  function Lower(s: string): (r: string)
    ensures |r| == |s|
    ensures forall i :: 0 <= i < |s| ==> r[i] == LowerChar(s[i])
  {
    seq(|s|, i requires 0 <= i < |s| => LowerChar(s[i]))
  }

  lemma LowerIdempotent(s: string)
    ensures Lower(Lower(s)) == Lower(s)
  {
    assert forall i :: 0 <= i < |s| ==> LowerChar(LowerChar(s[i])) == LowerChar(s[i]);
  }

  lemma LowerEmpty(s: string)
    ensures Lower(s) == "" <==> s == ""
  {
    if s != "" { assert Lower(s)[0] == LowerChar(s[0]); }
  }

  /** `len(v)`. */
  function Len(v: Value): (r: Result<nat>)
    ensures r.Ok? <==> (v.VStr? || v.VList? || v.VTuple? || v.VDict?)
  {
    match v
    case VStr(s) => Ok(|s|)
    case VList(es) => Ok(|es|)
    case VTuple(es) => Ok(|es|)
    case VDict(ps) => Ok(|ps|)
    case _ => Err(Exc(TypeError, "object of type '" + TypeName(v) + "' has no len()"))
  }

  /** The keys of an association list, in insertion order. */
  function KeysOf(ps: seq<(string, Value)>): (r: seq<string>)
    ensures |r| == |ps|
    ensures forall i :: 0 <= i < |ps| ==> r[i] == ps[i].0
  {
    seq(|ps|, i requires 0 <= i < |ps| => ps[i].0)
  }

  /** What `for x in v` visits: characters of a str, elements of a list or tuple, keys of a dict. */
  function Iter(v: Value): (r: Result<seq<Value>>)
    ensures r.Ok? <==> (v.VStr? || v.VList? || v.VTuple? || v.VDict?)
    ensures r.Ok? ==> Len(v) == Ok(|r.value|)
    ensures IsListOrTuple(v) ==> r == Ok(v.elems)
  {
    match v
    case VStr(s) => Ok(seq(|s|, i requires 0 <= i < |s| => VStr([s[i]])))
    case VList(es) => Ok(es)
    case VTuple(es) => Ok(es)
    case VDict(ps) => Ok(seq(|ps|, i requires 0 <= i < |ps| => VStr(ps[i].0)))
    case _ => Err(Exc(TypeError, "'" + TypeName(v) + "' object is not iterable"))
  }

  /** The value of the first entry with key `k`. */
  function Lookup(ps: seq<(string, Value)>, k: string): (r: Option<Value>)
    ensures r.Some? <==> k in KeysOf(ps)
    ensures r.Some? ==> exists i :: 0 <= i < |ps| && ps[i] == (k, r.value)
  {
    if |ps| == 0 then None
    else if ps[0].0 == k then Some(ps[0].1)
    else
      var r := Lookup(ps[1..], k);
      assert KeysOf(ps) == [ps[0].0] + KeysOf(ps[1..]);
      r
  }

  /** `k in d.keys()` (an AttributeError when `d` is not a dict). */
  function HasKey(d: Value, k: string): (r: Result<bool>)
    ensures r.Ok? <==> d.VDict?
    ensures d.VDict? ==> r.value == (k in KeysOf(d.entries))
  {
    if d.VDict? then Ok(Lookup(d.entries, k).Some?)
    else Err(Exc(AttributeError, "'" + TypeName(d) + "' object has no attribute 'keys'"))
  }

  /** `d.get(k, default)` (an AttributeError when `d` is not a dict). */
  function DictGet(d: Value, k: string, default: Value): (r: Result<Value>)
    ensures r.Ok? <==> d.VDict?
  {
    if d.VDict? then
      match Lookup(d.entries, k)
      case Some(x) => Ok(x)
      case None => Ok(default)
    else Err(Exc(AttributeError, "'" + TypeName(d) + "' object has no attribute 'get'"))
  }

  /**
   * The KeyError a missing dict key raises; its text is the key's repr,
   * which for every key the library reads is the key in single quotes
   * (`MissingKeyText`).
   */
  function MissingKey(k: string): Exc {
    Exc(KeyError, "'" + k + "'")
  }

  /** For a key without quotes, backslashes or control characters, the KeyError text is `repr(k)`. */
  lemma MissingKeyText(k: string)
    requires forall i :: 0 <= i < |k| ==> k[i] !in "'\"\\\n\r\t"
    ensures MissingKey(k).text == StrRepr(k)
  {
    PlainStrRepr(k);
  }

  /** `v[k]` with a str key. */
  function GetKey(v: Value, k: string): (r: Result<Value>)
    ensures v.VDict? && Lookup(v.entries, k).Some? ==> r == Ok(Lookup(v.entries, k).value)
    ensures r.Ok? ==> v.VDict? && Lookup(v.entries, k).Some?
  {
    match v
    case VDict(ps) =>
      (match Lookup(ps, k)
       case Some(x) => Ok(x)
       case None => Err(MissingKey(k)))
    case VStr(_) => Err(Exc(TypeError, "string indices must be integers"))
    case VList(_) => Err(Exc(TypeError, "list indices must be integers or slices, not str"))
    case VTuple(_) => Err(Exc(TypeError, "tuple indices must be integers or slices, not str"))
    case _ => Err(Exc(TypeError, "'" + TypeName(v) + "' object is not subscriptable"))
  }

  /** Python's rule for a subscript `s[i]` on a sequence of length `n`: negative indices count from the end. */
  predicate IndexOk(n: nat, i: int) { -(n as int) <= i < n }

  function Wrap(n: nat, i: int): (k: nat)
    requires IndexOk(n, i)
    ensures k < n
  {
    if i < 0 then n + i else i
  }

  /** `s[i]` on a Python list of model values. */
  function PyIndex<T>(s: seq<T>, i: int): (r: Result<T>)
    ensures r.Ok? <==> IndexOk(|s|, i)
    ensures r.Ok? ==> r.value == s[Wrap(|s|, i)]
  {
    if IndexOk(|s|, i) then Ok(s[Wrap(|s|, i)])
    else Err(Exc(IndexError, "list index out of range"))
  }

  /** `v[i]` with an int subscript. */
  function GetIndex(v: Value, i: int): (r: Result<Value>)
    ensures r.Ok? ==> IsListOrTuple(v) || v.VStr?
  {
    match v
    case VList(es) => PyIndex(es, i)
    case VTuple(es) =>
      if IndexOk(|es|, i) then Ok(es[Wrap(|es|, i)]) else Err(Exc(IndexError, "tuple index out of range"))
    case VStr(s) =>
      if IndexOk(|s|, i) then Ok(VStr([s[Wrap(|s|, i)]])) else Err(Exc(IndexError, "string index out of range"))
    case VDict(_) => Err(Exc(KeyError, IntToString(i)))
    case _ => Err(Exc(TypeError, "'" + TypeName(v) + "' object is not subscriptable"))
  }

  /** A Python dict never holds one key twice. */
  predicate UniqueKeys(ps: seq<(string, Value)>) {
    forall i, j :: 0 <= i < j < |ps| ==> ps[i].0 != ps[j].0
  }

  /** Every dict inside `v`, at any depth, holds each key once: true of every value Python builds. */
  predicate DictsUnique(v: Value)
    decreases v
  {
    match v
    case VList(es) => forall i :: 0 <= i < |es| ==> DictsUnique(es[i])
    case VTuple(es) => forall i :: 0 <= i < |es| ==> DictsUnique(es[i])
    case VDict(ps) => UniqueKeys(ps) && forall i :: 0 <= i < |ps| ==> DictsUnique(ps[i].1)
    case _ => true
  }

  /** Looking a key up from position `j` on: the entry at `j`, or the ones after it. */
  lemma LookupFrom(ps: seq<(string, Value)>, j: nat, k: string)
    requires j < |ps|
    ensures Lookup(ps[j..], k) == if ps[j].0 == k then Some(ps[j].1) else Lookup(ps[j + 1..], k)
  {
    assert ps[j..][1..] == ps[j + 1..];
  }

  /** In a dict whose keys are unique, the key at `j` does not occur again after `j`. */
  lemma LookupPastOwnKey(ps: seq<(string, Value)>, j: nat)
    requires j < |ps| && UniqueKeys(ps)
    ensures Lookup(ps[j + 1..], ps[j].0) == None
  {
  }

  /** `d[k] = v` on an association list: overwrite in place, or append a new key. */
  function SetKey(ps: seq<(string, Value)>, k: string, v: Value): (r: seq<(string, Value)>)
    ensures Lookup(r, k) == Some(v)
    ensures forall k' :: k' != k ==> Lookup(r, k') == Lookup(ps, k')
  {
    if |ps| == 0 then [(k, v)]
    else if ps[0].0 == k then [(k, v)] + ps[1..]
    else [ps[0]] + SetKey(ps[1..], k, v)
  }

  /** `del d[k]`. */
  function DeleteKey(ps: seq<(string, Value)>, k: string): (r: seq<(string, Value)>)
    ensures Lookup(r, k) == None || Lookup(ps[..], k).Some?
    ensures forall k' :: k' != k ==> Lookup(r, k') == Lookup(ps, k')
  {
    if |ps| == 0 then []
    else if ps[0].0 == k then ps[1..]
    else [ps[0]] + DeleteKey(ps[1..], k)
  }

  /** `s.replace(pat, rep)`: leftmost, non-overlapping occurrences. */
  function ReplaceAll(s: string, pat: string, rep: string): string
    requires |pat| > 0
    decreases |s|
  {
    if |s| < |pat| then s
    else if s[..|pat|] == pat then rep + ReplaceAll(s[|pat|..], pat, rep)
    else [s[0]] + ReplaceAll(s[1..], pat, rep)
  }

  /** What a loop that appends to `acc` and then runs on into `rest` produces: `rest`'s exception, or `acc` followed by `rest`'s list. */
  function Prepend<T>(acc: seq<T>, rest: Result<seq<T>>): (r: Result<seq<T>>)
    ensures r.Err? <==> rest.Err?
    ensures rest.Err? ==> r.error == rest.error
    ensures rest.Ok? ==> |r.value| == |acc| + |rest.value| && r.value[..|acc|] == acc && r.value[|acc|..] == rest.value
  {
    match rest
    case Err(e) => Err(e)
    case Ok(v) => Ok(acc + v)
  }

  lemma PrependTwice<T>(a: seq<T>, b: seq<T>, rest: Result<seq<T>>)
    ensures Prepend(a, Prepend(b, rest)) == Prepend(a + b, rest)
  {
    if rest.Ok? {
      assert a + (b + rest.value) == (a + b) + rest.value;
    }
  }

  lemma PrependNothing<T>(rest: Result<seq<T>>)
    ensures Prepend([], rest) == rest
  {
    if rest.Ok? {
      assert [] + rest.value == rest.value;
    }
  }

  /** A Python dict object that callers share and that functions update in place. */
  class Dict {
    var entries: seq<(string, Value)>

    constructor (es: seq<(string, Value)>)
      ensures entries == es
    {
      entries := es;
    }
  }

  /**
   * A loop that applies `f` to `xs[j]`, `xs[j + 1]`, ... and appends each
   * result: the first exception raised, or every result in order.
   */
  function MapFrom<T, U>(f: T -> Result<U>, xs: seq<T>, j: nat): Result<seq<U>>
    decreases |xs| - j
  {
    if j >= |xs| then Ok([])
    else
      match f(xs[j])
      case Err(e) => Err(e)
      case Ok(y) => Prepend([y], MapFrom(f, xs, j + 1))
  }

  /** The loop succeeds exactly when every call does, and then holds each call's result at its position. */
  lemma {:induction false} MapFromOk<T, U>(f: T -> Result<U>, xs: seq<T>, j: nat)
    requires j <= |xs|
    ensures MapFrom(f, xs, j).Ok? <==> forall i :: j <= i < |xs| ==> f(xs[i]).Ok?
    ensures MapFrom(f, xs, j).Ok? ==>
      |MapFrom(f, xs, j).value| == |xs| - j &&
      forall i :: j <= i < |xs| ==> f(xs[i]) == Ok(MapFrom(f, xs, j).value[i - j])
    decreases |xs| - j
  {
    if j < |xs| {
      MapFromOk(f, xs, j + 1);
      var rest := MapFrom(f, xs, j + 1);
      if f(xs[j]).Ok? && rest.Ok? {
        var out := [f(xs[j]).value] + rest.value;
        assert MapFrom(f, xs, j) == Ok(out);
        forall i | j < i < |xs|
          ensures f(xs[i]) == Ok(out[i - j])
        {
          assert out[i - j] == rest.value[i - (j + 1)];
        }
      }
    }
  }

  /** A loop that fails raises the exception of the first call that fails. */
  lemma {:induction false} MapFromErr<T, U>(f: T -> Result<U>, xs: seq<T>, j: nat)
    requires MapFrom(f, xs, j).Err?
    ensures exists i ::
      && j <= i < |xs| && f(xs[i]) == Err(MapFrom(f, xs, j).error)
      && forall m :: j <= m < i ==> f(xs[m]).Ok?
    decreases |xs| - j
  {
    if f(xs[j]).Ok? {
      MapFromErr(f, xs, j + 1);
      var i :|
        && j + 1 <= i < |xs| && f(xs[i]) == Err(MapFrom(f, xs, j + 1).error)
        && forall m :: j + 1 <= m < i ==> f(xs[m]).Ok?;
      assert j <= i < |xs| && f(xs[i]) == Err(MapFrom(f, xs, j).error);
    } else {
      assert j <= j < |xs| && f(xs[j]) == Err(MapFrom(f, xs, j).error);
    }
  }

  /** The same loop over `enumerate(xs)`: each call also gets the position. */
  function EnumerateFrom<T, U>(f: (nat, T) -> Result<U>, xs: seq<T>, j: nat): Result<seq<U>>
    decreases |xs| - j
  {
    if j >= |xs| then Ok([])
    else
      match f(j, xs[j])
      case Err(e) => Err(e)
      case Ok(y) => Prepend([y], EnumerateFrom(f, xs, j + 1))
  }

  /**
   * The loop succeeds exactly when every call does, and then holds each
   * call's result at its position; otherwise it raises the exception of the
   * first call that fails.
   */
  lemma {:induction false} EnumerateMeaning<T, U>(f: (nat, T) -> Result<U>, xs: seq<T>, j: nat)
    requires j <= |xs|
    ensures EnumerateFrom(f, xs, j).Ok? <==> forall i :: j <= i < |xs| ==> f(i, xs[i]).Ok?
    ensures EnumerateFrom(f, xs, j).Ok? ==>
      |EnumerateFrom(f, xs, j).value| == |xs| - j &&
      forall i :: j <= i < |xs| ==> f(i, xs[i]) == Ok(EnumerateFrom(f, xs, j).value[i - j])
    ensures EnumerateFrom(f, xs, j).Err? ==> exists i ::
      && j <= i < |xs| && f(i, xs[i]) == Err(EnumerateFrom(f, xs, j).error)
      && forall m :: j <= m < i ==> f(m, xs[m]).Ok?
    decreases |xs| - j
  {
    if j < |xs| {
      EnumerateMeaning(f, xs, j + 1);
      var rest := EnumerateFrom(f, xs, j + 1);
      if f(j, xs[j]).Ok? && rest.Ok? {
        var ys := [f(j, xs[j]).value] + rest.value;
        assert EnumerateFrom(f, xs, j) == Ok(ys);
        forall i | j < i < |xs|
          ensures f(i, xs[i]) == Ok(ys[i - j])
        {
          assert ys[i - j] == rest.value[i - (j + 1)];
        }
      } else if f(j, xs[j]).Ok? {
        var i :|
          && j + 1 <= i < |xs| && f(i, xs[i]) == Err(EnumerateFrom(f, xs, j + 1).error)
          && forall m :: j + 1 <= m < i ==> f(m, xs[m]).Ok?;
        assert j <= i < |xs| && f(i, xs[i]) == Err(EnumerateFrom(f, xs, j).error);
      } else if f(j, xs[j]).Err? {
        assert j <= j < |xs| && f(j, xs[j]) == Err(EnumerateFrom(f, xs, j).error);
      }
    }
  }

  /** A loop that succeeded has one result per element, call `i`'s at position `i`. */
  lemma EnumerateAt<T, U>(f: (nat, T) -> Result<U>, xs: seq<T>, i: nat)
    requires EnumerateFrom(f, xs, 0).Ok?
    ensures |EnumerateFrom(f, xs, 0).value| == |xs|
    ensures i < |xs| ==> f(i, xs[i]) == Ok(EnumerateFrom(f, xs, 0).value[i])
  {
    EnumerateMeaning(f, xs, 0);
  }

  lemma MapFromLength<T, U>(f: T -> Result<U>, xs: seq<T>)
    requires MapFrom(f, xs, 0).Ok?
    ensures |MapFrom(f, xs, 0).value| == |xs|
  {
    MapFromOk(f, xs, 0);
  }

  /** A loop that succeeded holds each call's result at its position. */
  lemma MapFromEach<T, U>(f: T -> Result<U>, xs: seq<T>)
    requires MapFrom(f, xs, 0).Ok?
    ensures |MapFrom(f, xs, 0).value| == |xs|
    ensures forall i :: 0 <= i < |xs| ==> f(xs[i]) == Ok(MapFrom(f, xs, 0).value[i])
  {
    MapFromOk(f, xs, 0);
    forall i | 0 <= i < |xs| ensures f(xs[i]) == Ok(MapFrom(f, xs, 0).value[i]) {
      assert i - 0 == i;
    }
  }

  /** One position of a loop that succeeded. */
  lemma MapFromAt<T, U>(f: T -> Result<U>, xs: seq<T>, i: nat)
    requires MapFrom(f, xs, 0).Ok? && i < |xs|
    ensures |MapFrom(f, xs, 0).value| == |xs| && f(xs[i]) == Ok(MapFrom(f, xs, 0).value[i])
  {
    MapFromOk(f, xs, 0);
  }

  /** A loop whose every call returns the value at the same position of `ys` returns `ys`. */
  lemma MapFromAll<T, U>(f: T -> Result<U>, xs: seq<T>, ys: seq<U>)
    requires |xs| == |ys| && forall i :: 0 <= i < |xs| ==> f(xs[i]) == Ok(ys[i])
    ensures MapFrom(f, xs, 0) == Ok(ys)
  {
    MapFromOk(f, xs, 0);
    assert MapFrom(f, xs, 0).value == ys;
  }

  /** What a loop over a value visits holds no dict with a repeated key when the value holds none. */
  lemma IterDictsUnique(v: Value)
    requires DictsUnique(v) && Iter(v).Ok?
    ensures forall i :: 0 <= i < |Iter(v).value| ==> DictsUnique(Iter(v).value[i])
  {
  }

  /** The invariant of such a loop: `out` holds the results so far and the rest of the loop completes `whole`. */
  ghost predicate MapSoFar<T, U>(f: T -> Result<U>, xs: seq<T>, j: nat, out: seq<U>, whole: Result<seq<U>>) {
    j <= |xs| && whole == Prepend(out, MapFrom(f, xs, j))
  }

  lemma MapLoopStart<T, U>(f: T -> Result<U>, xs: seq<T>)
    ensures MapSoFar(f, xs, 0, [], MapFrom(f, xs, 0))
  {
    PrependNothing(MapFrom(f, xs, 0));
  }

  lemma MapLoopErr<T, U>(f: T -> Result<U>, xs: seq<T>, j: nat, out: seq<U>, whole: Result<seq<U>>, e: Exc)
    requires MapSoFar(f, xs, j, out, whole) && j < |xs| && f(xs[j]) == Err(e)
    ensures whole == Err(e)
  {
  }

  lemma MapLoopNext<T, U>(f: T -> Result<U>, xs: seq<T>, j: nat, out: seq<U>, whole: Result<seq<U>>, y: U)
    requires MapSoFar(f, xs, j, out, whole) && j < |xs| && f(xs[j]) == Ok(y)
    ensures MapSoFar(f, xs, j + 1, out + [y], whole)
  {
    PrependTwice(out, [y], MapFrom(f, xs, j + 1));
  }

  lemma MapLoopEnd<T, U>(f: T -> Result<U>, xs: seq<T>, out: seq<U>, whole: Result<seq<U>>)
    requires MapSoFar(f, xs, |xs|, out, whole)
    ensures whole == Ok(out)
  {
    assert out + [] == out;
  }

  /** The state of a loop that builds `EnumerateFrom(f, xs, 0)` element by element: `out` holds the first `j` results. */
  ghost predicate EnumSoFar<T, U>(f: (nat, T) -> Result<U>, xs: seq<T>, j: nat, out: seq<U>, whole: Result<seq<U>>) {
    j <= |xs| && |out| == j && whole == Prepend(out, EnumerateFrom(f, xs, j))
  }

  lemma EnumLoopStart<T, U>(f: (nat, T) -> Result<U>, xs: seq<T>)
    ensures EnumSoFar(f, xs, 0, [], EnumerateFrom(f, xs, 0))
  {
    PrependNothing(EnumerateFrom(f, xs, 0));
  }

  lemma EnumLoopErr<T, U>(f: (nat, T) -> Result<U>, xs: seq<T>, j: nat, out: seq<U>, whole: Result<seq<U>>, e: Exc)
    requires EnumSoFar(f, xs, j, out, whole) && j < |xs| && f(j, xs[j]) == Err(e)
    ensures whole == Err(e)
  {
  }

  lemma EnumLoopNext<T, U>(f: (nat, T) -> Result<U>, xs: seq<T>, j: nat, out: seq<U>, whole: Result<seq<U>>, y: U)
    requires EnumSoFar(f, xs, j, out, whole) && j < |xs| && f(j, xs[j]) == Ok(y)
    ensures EnumSoFar(f, xs, j + 1, out + [y], whole)
  {
    PrependTwice(out, [y], EnumerateFrom(f, xs, j + 1));
  }

  lemma EnumLoopEnd<T, U>(f: (nat, T) -> Result<U>, xs: seq<T>, out: seq<U>, whole: Result<seq<U>>)
    requires EnumSoFar(f, xs, |xs|, out, whole)
    ensures whole == Ok(out)
  {
    assert out + [] == out;
  }

  /** `sep.join(parts)`. */
  function Join(sep: string, parts: seq<string>): string {
    if |parts| == 0 then ""
    else if |parts| == 1 then parts[0]
    else parts[0] + sep + Join(sep, parts[1..])
  }
}
