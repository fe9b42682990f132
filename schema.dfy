/**
 * The part of the `schema` package that the validators rely on: a dict
 * schema is a table of keys, each Required, Optional or Forbidden and each
 * with a value check, and validation of a dict follows the package's order:
 * wrong type first, then the data's entries one by one (entries whose value
 * is a dict last), where a forbidden key or a value that fails its check
 * raises at once, then missing required keys, then keys the schema does not
 * know. The value checks are the predicates the configuration schemas are
 * built from (`bool`, `And(int, lambda x: x > 0)`, `And(Or(list, tuple),
 * lambda x: len(x) > 0)`, the token lambdas, ...).
 */
module SchemaLib {
  import opened PyValue

  /** The value checks used by the configuration schemas. */
  datatype Check =
    | IsBool               // bool
    | IsInteger            // int
    | PositiveInt          // And(int, lambda x: x > 0)
    | NonEmptyListOrTuple  // And(Or(list, tuple), lambda x: len(x) > 0)
    | NonEmptyList         // And(list, lambda x: len(x) > 0)
    | Token                // lambda x: x is not None and len(str(x)) > 0
    | OptionalText         // lambda x: x is None or len(str(x)) > 0
    | IntOrStrToken        // And(Or(int, str), lambda x: len(str(x)) > 0)
    | StrOrNoneText        // And(Or(str, None), lambda x: x is None or len(x) > 0)
    | NonEmptyStr          // And(str, lambda x: len(x) > 0)
    | Anything             // object

  /** Whether `v` passes check `c`. */
  predicate Passes(c: Check, v: Value) {
    match c
    case IsBool => v.VBool?
    case IsInteger => IsInt(v)
    case PositiveInt => IsInt(v) && AsInt(v) > 0
    case NonEmptyListOrTuple => IsListOrTuple(v) && |v.elems| > 0
    case NonEmptyList => v.VList? && |v.elems| > 0
    case Token => !v.VNone? && |Str(v)| > 0
    case OptionalText => v.VNone? || |Str(v)| > 0
    case IntOrStrToken => (IsInt(v) || v.VStr?) && |Str(v)| > 0
    case StrOrNoneText => v.VNone? || (v.VStr? && |v.s| > 0)
    case NonEmptyStr => v.VStr? && |v.s| > 0
    case Anything => true
  }

  function InstanceLine(v: Value, typeName: string): string {
    Repr(v) + " should be instance of '" + typeName + "'"
  }

  function LambdaLine(v: Value): string {
    "<lambda>(" + Repr(v) + ") should evaluate to True"
  }

  /** The lines the package reports for a value that fails a check (one line per nested failure). */
  function FailureLines(c: Check, v: Value): (lines: seq<string>)
    requires !Passes(c, v)
    ensures |lines| > 0
  {
    match c
    case IsBool => [InstanceLine(v, "bool")]
    case IsInteger => [InstanceLine(v, "int")]
    case PositiveInt => if !IsInt(v) then [InstanceLine(v, "int")] else [LambdaLine(v)]
    case NonEmptyListOrTuple =>
      if !IsListOrTuple(v) then
        ["Or(<class 'list'>, <class 'tuple'>) did not validate " + Repr(v),
         InstanceLine(v, "list"), InstanceLine(v, "tuple")]
      else [LambdaLine(v)]
    case NonEmptyList => if !v.VList? then [InstanceLine(v, "list")] else [LambdaLine(v)]
    case Token => [LambdaLine(v)]
    case OptionalText => [LambdaLine(v)]
    case IntOrStrToken =>
      if !(IsInt(v) || v.VStr?) then
        ["Or(<class 'int'>, <class 'str'>) did not validate " + Repr(v),
         InstanceLine(v, "int"), InstanceLine(v, "str")]
      else [LambdaLine(v)]
    case StrOrNoneText =>
      if !(v.VNone? || v.VStr?) then
        ["Or(<class 'str'>, None) did not validate " + Repr(v),
         InstanceLine(v, "str"), "None does not match " + Repr(v)]
      else [LambdaLine(v)]
    case NonEmptyStr => if !v.VStr? then [InstanceLine(v, "str")] else [LambdaLine(v)]
  }

  datatype KeyKind = Required | Optional | Forbidden

  datatype KeySpec = KeySpec(kind: KeyKind, name: string, check: Check)

  /** A schema: a dict schema (a key table) or a bare value check. */
  datatype Schema = DictSchema(keys: seq<KeySpec>) | ValueSchema(check: Check)

  /** The first key specification named `k`. */
  function FindSpec(keys: seq<KeySpec>, k: string): Option<KeySpec> {
    if |keys| == 0 then None
    else if keys[0].name == k then Some(keys[0])
    else FindSpec(keys[1..], k)
  }

  /** `FindSpec` finds a specification exactly when one of that name exists. */
  lemma {:induction false} FindSpecMeaning(keys: seq<KeySpec>, k: string)
    ensures FindSpec(keys, k).Some? ==> FindSpec(keys, k).value in keys && FindSpec(keys, k).value.name == k
    ensures FindSpec(keys, k).None? ==> forall ks :: ks in keys ==> ks.name != k
  {
    if |keys| > 0 && keys[0].name != k {
      FindSpecMeaning(keys[1..], k);
      assert forall ks :: ks in keys ==> ks == keys[0] || ks in keys[1..];
    }
  }

  /** An entry of the data is acceptable: its key is known, not forbidden, and its value passes. */
  predicate EntryOk(keys: seq<KeySpec>, e: (string, Value)) {
    var ks := FindSpec(keys, e.0);
    ks.Some? && ks.value.kind != Forbidden && Passes(ks.value.check, e.1)
  }

  /** Declarative reading of a dict schema. */
  predicate Conforms(keys: seq<KeySpec>, v: Value) {
    && v.VDict?
    && (forall e :: e in v.entries ==> EntryOk(keys, e))
    && (forall ks :: ks in keys && ks.kind == Required ==> ks.name in KeysOf(v.entries))
  }

  /** The package validates entries whose value is not a dict before those whose value is a dict. */
  function DictsLast(es: seq<(string, Value)>): seq<(string, Value)> {
    NonDicts(es) + Dicts(es)
  }

  function NonDicts(es: seq<(string, Value)>): seq<(string, Value)> {
    if es == [] then [] else (if es[0].1.VDict? then [] else [es[0]]) + NonDicts(es[1..])
  }

  function Dicts(es: seq<(string, Value)>): seq<(string, Value)> {
    if es == [] then [] else (if es[0].1.VDict? then [es[0]] else []) + Dicts(es[1..])
  }

  /** The two halves split the entries: together they are a permutation of them. */
  lemma {:induction false} SplitPermutation(es: seq<(string, Value)>)
    ensures multiset(NonDicts(es)) + multiset(Dicts(es)) == multiset(es)
  {
    if es != [] {
      SplitPermutation(es[1..]);
      assert es == [es[0]] + es[1..];
    }
  }

  /** Reordering changes no entry: `DictsLast` is a permutation. */
  lemma DictsLastPermutation(es: seq<(string, Value)>)
    ensures multiset(DictsLast(es)) == multiset(es)
  {
    SplitPermutation(es);
  }

  /** Python's ordering of strings: code point by code point, a proper prefix first. */
  predicate StrLess(a: string, b: string) {
    if |a| == 0 then |b| > 0
    else if |b| == 0 then false
    else if a[0] != b[0] then a[0] < b[0]
    else StrLess(a[1..], b[1..])
  }

  function QuoteKey(k: string): string { StrRepr(k) }

  /** Inserts `k` into a list of keys sorted by `repr`. */
  function InsertByRepr(k: string, sorted: seq<string>): seq<string> {
    if sorted == [] || !StrLess(QuoteKey(sorted[0]), QuoteKey(k)) then [k] + sorted
    else [sorted[0]] + InsertByRepr(k, sorted[1..])
  }

  /** `sorted(keys, key=repr)`. */
  function SortByRepr(ks: seq<string>): seq<string> {
    if ks == [] then [] else InsertByRepr(ks[0], SortByRepr(ks[1..]))
  }

  lemma {:induction false} InsertByReprPermutation(k: string, sorted: seq<string>)
    ensures multiset(InsertByRepr(k, sorted)) == multiset(sorted) + multiset{k}
  {
    if !(sorted == [] || !StrLess(QuoteKey(sorted[0]), QuoteKey(k))) {
      InsertByReprPermutation(k, sorted[1..]);
      assert sorted == [sorted[0]] + sorted[1..];
    }
  }

  /** Sorting keeps the keys: a permutation, so the same count. */
  lemma {:induction false} SortByReprPermutation(ks: seq<string>)
    ensures multiset(SortByRepr(ks)) == multiset(ks)
    ensures |SortByRepr(ks)| == |ks|
  {
    if ks != [] {
      SortByReprPermutation(ks[1..]);
      InsertByReprPermutation(ks[0], SortByRepr(ks[1..]));
      assert ks == [ks[0]] + ks[1..];
    }
    assert |multiset(SortByRepr(ks))| == |multiset(ks)|;
  }

  function QuotedList(ks: seq<string>): string {
    Join(", ", seq(|ks|, i requires 0 <= i < |ks| => QuoteKey(ks[i])))
  }

  function PluralS(n: nat): string { if n > 1 then "s" else "" }

  /** Walks the entries in order; the first forbidden key or failing value raises. */
  function ScanEntries(keys: seq<KeySpec>, whole: Value, es: seq<(string, Value)>): Option<Exc> {
    if es == [] then None
    else
      match FindSpec(keys, es[0].0)
      case None => ScanEntries(keys, whole, es[1..])
      case Some(ks) =>
        if ks.kind == Forbidden then
          Some(Exc(SchemaForbiddenKeyError, "Forbidden key encountered: " + QuoteKey(es[0].0) + " in " + Repr(whole)))
        else if !Passes(ks.check, es[0].1) then
          Some(Exc(SchemaError, Join("\n", ["Key '" + es[0].0 + "' error:"] + FailureLines(ks.check, es[0].1))))
        else ScanEntries(keys, whole, es[1..])
  }

  /**
   * The scan raises nothing exactly when every entry with a known key is
   * acceptable, and what it raises is a forbidden key or a failed check.
   */
  lemma {:induction false} ScanEntriesMeaning(keys: seq<KeySpec>, whole: Value, es: seq<(string, Value)>)
    ensures ScanEntries(keys, whole, es).None? <==> forall e :: e in es && FindSpec(keys, e.0).Some? ==> EntryOk(keys, e)
    ensures ScanEntries(keys, whole, es).Some? ==>
      ScanEntries(keys, whole, es).value.cls == SchemaForbiddenKeyError || ScanEntries(keys, whole, es).value.cls == SchemaError
  {
    if es != [] {
      ScanEntriesMeaning(keys, whole, es[1..]);
      assert forall e :: e in es <==> e == es[0] || e in es[1..];
    }
  }

  /** The required keys absent from the data, in schema order. */
  function MissingKeys(keys: seq<KeySpec>, present: seq<string>): seq<string> {
    if keys == [] then []
    else
      (if keys[0].kind == Required && keys[0].name !in present then [keys[0].name] else [])
      + MissingKeys(keys[1..], present)
  }

  /** The data's keys the schema does not name, in data order. */
  function WrongKeys(keys: seq<KeySpec>, present: seq<string>): seq<string> {
    if present == [] then []
    else (if FindSpec(keys, present[0]).None? then [present[0]] else []) + WrongKeys(keys, present[1..])
  }

  /** The missing keys are exactly the required names absent from the data. */
  lemma {:induction false} MissingKeysMembers(keys: seq<KeySpec>, present: seq<string>)
    ensures forall k :: k in MissingKeys(keys, present) <==>
      exists ks :: ks in keys && ks.kind == Required && ks.name == k && k !in present
  {
    if keys != [] {
      MissingKeysMembers(keys[1..], present);
      assert forall ks :: ks in keys <==> ks == keys[0] || ks in keys[1..];
    }
  }

  /** The wrong keys are exactly the data's keys the schema does not name. */
  lemma {:induction false} WrongKeysMembers(keys: seq<KeySpec>, present: seq<string>)
    ensures forall k :: k in WrongKeys(keys, present) <==> k in present && FindSpec(keys, k).None?
  {
    if present != [] {
      WrongKeysMembers(keys, present[1..]);
      assert forall k :: k in present <==> k == present[0] || k in present[1..];
    }
  }

  /** The exception classes the package raises (all of them subclasses of `SchemaError`). */
  predicate IsSchemaError(c: ExcClass) {
    c.SchemaError? || c.SchemaUnexpectedTypeError? || c.SchemaForbiddenKeyError?
    || c.SchemaMissingKeyError? || c.SchemaWrongKeyError?
  }

  /** `Schema(schema).validate(v)`: the exception raised, if any. */
  function Validate(s: Schema, v: Value): (r: Option<Exc>)
    ensures s.DictSchema? ==> (r.None? <==> Conforms(s.keys, v))
    ensures s.ValueSchema? ==> (r.None? <==> Passes(s.check, v))
    ensures r.Some? ==> IsSchemaError(r.value.cls)
  {
    match s
    case ValueSchema(c) =>
      if Passes(c, v) then None else Some(Exc(SchemaError, Join("\n", FailureLines(c, v))))
    case DictSchema(keys) =>
      if !v.VDict? then Some(Exc(SchemaUnexpectedTypeError, InstanceLine(v, "dict")))
      else
        var ordered := DictsLast(v.entries);
        var present := KeysOf(v.entries);
        var missing := SortByRepr(MissingKeys(keys, present));
        var wrong := SortByRepr(WrongKeys(keys, present));
        var scanned := ScanEntries(keys, v, ordered);
        ConformsByParts(keys, v, ordered);
        ScanEntriesMeaning(keys, v, ordered);
        SortByReprPermutation(MissingKeys(keys, present));
        SortByReprPermutation(WrongKeys(keys, present));
        if scanned.Some? then scanned
        else if |missing| > 0 then
          Some(Exc(SchemaMissingKeyError, "Missing key" + PluralS(|missing|) + ": " + QuotedList(missing)))
        else if |wrong| > 0 then
          Some(Exc(SchemaWrongKeyError,
                   "Wrong key" + PluralS(|wrong|) + " " + QuotedList(wrong) + " in " + Repr(v)))
        else None
  }

  /** No required key is missing exactly when every required key is present. */
  lemma MissingNoneIff(keys: seq<KeySpec>, present: seq<string>)
    ensures |MissingKeys(keys, present)| == 0 <==>
              forall ks :: ks in keys && ks.kind == Required ==> ks.name in present
  {
    var m := MissingKeys(keys, present);
    MissingKeysMembers(keys, present);
    if |m| > 0 { assert m[0] in m; }
  }

  /** No key is wrong exactly when the schema names every key of the data. */
  lemma WrongNoneIff(keys: seq<KeySpec>, present: seq<string>)
    ensures |WrongKeys(keys, present)| == 0 <==> forall k :: k in present ==> FindSpec(keys, k).Some?
  {
    var w := WrongKeys(keys, present);
    WrongKeysMembers(keys, present);
    if |w| > 0 { assert w[0] in w; }
  }

  lemma DictsLastSameEntries(es: seq<(string, Value)>)
    ensures forall e :: e in DictsLast(es) <==> e in es
  {
    DictsLastPermutation(es);
    forall e ensures e in DictsLast(es) <==> e in es {
      assert e in DictsLast(es) <==> e in multiset(DictsLast(es));
      assert e in es <==> e in multiset(es);
    }
  }

  lemma KeysOfMembership(es: seq<(string, Value)>, k: string)
    ensures k in KeysOf(es) <==> exists e :: e in es && e.0 == k
  {
    var present := KeysOf(es);
    if k in present {
      var i :| 0 <= i < |present| && present[i] == k;
      assert es[i] in es;
    }
    if exists e :: e in es && e.0 == k {
      var e :| e in es && e.0 == k;
      var i :| 0 <= i < |es| && es[i] == e;
      assert present[i] == k;
    }
  }

  /** `Conforms` splits into the three stages of the package's dict validation. */
  lemma ConformsByParts(keys: seq<KeySpec>, v: Value, ordered: seq<(string, Value)>)
    requires v.VDict? && ordered == DictsLast(v.entries)
    ensures Conforms(keys, v) <==>
              && ScanEntries(keys, v, ordered).None?
              && |MissingKeys(keys, KeysOf(v.entries))| == 0
              && |WrongKeys(keys, KeysOf(v.entries))| == 0
  {
    var es := v.entries;
    var present := KeysOf(es);
    MissingNoneIff(keys, present);
    WrongNoneIff(keys, present);
    DictsLastSameEntries(es);
    ScanEntriesMeaning(keys, v, ordered);
    var scanOk := forall e :: e in ordered && FindSpec(keys, e.0).Some? ==> EntryOk(keys, e);
    var allKnown := forall k :: k in present ==> FindSpec(keys, k).Some?;
    if Conforms(keys, v) {
      forall k | k in present ensures FindSpec(keys, k).Some? {
        KeysOfMembership(es, k);
        var e :| e in es && e.0 == k;
        assert EntryOk(keys, e);
      }
    }
    if scanOk && allKnown {
      forall e | e in es ensures EntryOk(keys, e) {
        KeysOfMembership(es, e.0);
      }
    }
  }
}
