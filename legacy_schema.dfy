/**
 * The schema part of the two older validators, src/tabbedshellmenus/validators.py
 * (`validate_schema`, `_config_tabs`) and src/pysimpletabshellmenu/validators.py
 * (`schema_is_valid`, `_find_tabs`). Both files hold the same schemas and
 * the same walk under the older key names; unlike pytabby's walk, this one
 * stops at the first node that fails and raises that node's exception.
 *
 * `_config_tabs` / `_find_tabs` change the caller's configuration dict: for
 * the layout without a `tabs` key they add one, holding a single tab made
 * of the top-level `items`, and keep `items`.
 */
module LegacySchema {
  import opened PyValue
  import opened SchemaLib
  import PV = PytabbyValidators
  import PO = PytabbyOverlap

  const HeaderKey := "header_choice_displayed_and_accepted"

  // ---------------------------------------------------------------------
  // The schemas of `_ValidSchemas`

  const OuterWithTabs: Schema := DictSchema([
    KeySpec(Optional, "case_sensitive", IsBool),
    KeySpec(Optional, "screen_width", IsInteger),
    KeySpec(Required, "tabs", NonEmptyList)])

  const OuterWithoutTabs: Schema := DictSchema([
    KeySpec(Required, "case_sensitive", IsBool),
    KeySpec(Optional, "screen_width", IsInteger),
    KeySpec(Required, "items", NonEmptyList)])

  const TabMultiple: Schema := DictSchema([
    KeySpec(Required, HeaderKey, IntOrStrToken),
    KeySpec(Required, "header_description", StrOrNoneText),
    KeySpec(Optional, "long_description", NonEmptyStr),
    KeySpec(Required, "items", NonEmptyList)])

  const TabSingle: Schema := DictSchema([
    KeySpec(Required, "items", NonEmptyList)])

  const ItemSchema: Schema := DictSchema([
    KeySpec(Required, "choice_displayed", IntOrStrToken),
    KeySpec(Required, "choice_description", NonEmptyStr),
    KeySpec(Required, "valid_entries", NonEmptyList),
    KeySpec(Required, "returns", IntOrStrToken)])

  const EntrySchema: Schema := ValueSchema(IntOrStrToken)

  // ---------------------------------------------------------------------
  // The fail-fast walk

  /** `Schema(...).validate(v)` as a statement: nothing, or the exception it raises. */
  function Check(s: Schema, v: Value): Result<()> {
    match Validate(s, v)
    case Some(e) => Err(e)
    case None => Ok(())
  }

  /** `for v in vs: f(v)`: the first exception raised, if any. */
  function CheckAll(f: Value -> Result<()>, vs: seq<Value>): Result<()> {
    var _ :- MapFrom(f, vs, 0);
    Ok(())
  }

  /** The loop stops at the first value that fails, with that value's exception. */
  lemma CheckAllMeaning(f: Value -> Result<()>, vs: seq<Value>)
    ensures CheckAll(f, vs).Ok? <==> forall i :: 0 <= i < |vs| ==> f(vs[i]).Ok?
    ensures CheckAll(f, vs).Err? ==> exists i ::
      && 0 <= i < |vs| && f(vs[i]) == Err(CheckAll(f, vs).error)
      && forall m :: 0 <= m < i ==> f(vs[m]).Ok?
  {
    MapFromOk(f, vs, 0);
    if CheckAll(f, vs).Err? {
      MapFromErr(f, vs, 0);
    }
  }

  function CheckEntry(entry: Value): Result<()> {
    Check(EntrySchema, entry)
  }

  /** An item, then each of its `valid_entries`. */
  function CheckItem(item: Value): Result<()> {
    var _ :- Check(ItemSchema, item);
    var entries :- PV.Children(item, "valid_entries");
    CheckAll(CheckEntry, entries)
  }

  /** A tab of the multi-tab layout, then each of its items. */
  function CheckTab(tab: Value): Result<()> {
    var _ :- Check(TabMultiple, tab);
    var items :- PV.Children(tab, "items");
    CheckAll(CheckItem, items)
  }

  /**
   * What `validate_schema(config)` raises, if anything (also the body of
   * `schema_is_valid`'s `try`). The layout decision comes first, and a
   * configuration passes only when its layout is known and its outer dict
   * conforms to that layout's outer schema.
   */
  function SchemaWalk(config: Value): (r: Result<()>)
    ensures PV.DetermineLayout(config).Err? ==> r == Err(PV.DetermineLayout(config).error)
    ensures r.Ok? ==> PV.DetermineLayout(config).Ok?
    ensures r.Ok? ==>
      Check(if PV.DetermineLayout(config).value == PV.SingleWithoutKey then OuterWithoutTabs else OuterWithTabs, config).Ok?
  {
    var layout :- PV.DetermineLayout(config);
    match layout
    case Multiple => MultipleWalk(config)
    case SingleWithKey => SingleWithKeyWalk(config)
    case SingleWithoutKey => SingleWithoutKeyWalk(config)
  }

  /** The outer dict, then every tab, of a several-tab configuration. */
  function MultipleWalk(config: Value): Result<()> {
    var _ :- Check(OuterWithTabs, config);
    var tabs :- PV.Children(config, "tabs");
    CheckAll(CheckTab, tabs)
  }

  /** The outer dict, then the one tab and its items, of a one-tab configuration under `tabs`. */
  function SingleWithKeyWalk(config: Value): Result<()> {
    var _ :- Check(OuterWithTabs, config);
    var tabs :- PV.Children(config, "tabs");
    var tab :- PyIndex(tabs, 0);
    var _ :- Check(TabSingle, tab);
    var items :- PV.Children(tab, "items");
    CheckAll(CheckItem, items)
  }

  /** The outer dict, then its items, of a configuration without `tabs`. */
  function SingleWithoutKeyWalk(config: Value): Result<()> {
    var _ :- Check(OuterWithoutTabs, config);
    var items :- PV.Children(config, "items");
    CheckAll(CheckItem, items)
  }

  // ---------------------------------------------------------------------
  // What the walk accepts, stated declaratively

  /** No other specification in `keys` shares the name of `ks`. */
  predicate OnlySpecNamed(keys: seq<KeySpec>, ks: KeySpec) {
    forall other :: other in keys && other.name == ks.name ==> other == ks
  }

  /** A required field of a conforming dict is there and passes its check. */
  lemma ConformsField(keys: seq<KeySpec>, v: Value, ks: KeySpec)
    requires Conforms(keys, v) && ks in keys && ks.kind == Required && OnlySpecNamed(keys, ks)
    ensures Lookup(v.entries, ks.name).Some? && Passes(ks.check, Lookup(v.entries, ks.name).value)
  {
    FindSpecMeaning(keys, ks.name);
    var x := Lookup(v.entries, ks.name).value;
    var i :| 0 <= i < |v.entries| && v.entries[i] == (ks.name, x);
    assert v.entries[i] in v.entries;
    assert EntryOk(keys, v.entries[i]);
  }

  /** A required non-empty-list field of a conforming dict can be iterated. */
  lemma ConformsList(keys: seq<KeySpec>, v: Value, name: string)
    requires Conforms(keys, v) && KeySpec(Required, name, NonEmptyList) in keys
    requires OnlySpecNamed(keys, KeySpec(Required, name, NonEmptyList))
    ensures PV.Children(v, name).Ok? && |PV.Children(v, name).value| > 0
  {
    ConformsField(keys, v, KeySpec(Required, name, NonEmptyList));
  }

  predicate ItemValid(item: Value) {
    && Conforms(ItemSchema.keys, item)
    && PV.Children(item, "valid_entries").Ok?
    && forall k :: 0 <= k < |PV.Children(item, "valid_entries").value| ==>
         Passes(IntOrStrToken, PV.Children(item, "valid_entries").value[k])
  }

  predicate ItemsValid(items: seq<Value>) {
    forall j :: 0 <= j < |items| ==> ItemValid(items[j])
  }

  predicate TabValid(s: Schema, tab: Value)
    requires s.DictSchema?
  {
    && Conforms(s.keys, tab)
    && PV.Children(tab, "items").Ok?
    && ItemsValid(PV.Children(tab, "items").value)
  }

  /** Every node of the layout conforms: the outer dict, each tab, each item, each input entry. */
  predicate ConfigValid(config: Value) {
    && PV.DetermineLayout(config).Ok?
    && match PV.DetermineLayout(config).value
       case Multiple => MultipleValid(config)
       case SingleWithKey => SingleWithKeyValid(config)
       case SingleWithoutKey => SingleWithoutKeyValid(config)
  }

  predicate MultipleValid(config: Value) {
    && Conforms(OuterWithTabs.keys, config)
    && PV.Children(config, "tabs").Ok?
    && forall i :: 0 <= i < |PV.Children(config, "tabs").value| ==> TabValid(TabMultiple, PV.Children(config, "tabs").value[i])
  }

  predicate SingleWithKeyValid(config: Value) {
    && Conforms(OuterWithTabs.keys, config)
    && PV.Children(config, "tabs").Ok?
    && |PV.Children(config, "tabs").value| > 0
    && TabValid(TabSingle, PV.Children(config, "tabs").value[0])
  }

  predicate SingleWithoutKeyValid(config: Value) {
    && Conforms(OuterWithoutTabs.keys, config)
    && PV.Children(config, "items").Ok?
    && ItemsValid(PV.Children(config, "items").value)
  }

  /** An item passes exactly when it and every one of its entries conform. */
  lemma CheckItemMeaning(item: Value)
    ensures CheckItem(item).Ok? <==> ItemValid(item)
    ensures CheckItem(item).Err? ==> IsSchemaError(CheckItem(item).error.cls)
  {
    if Check(ItemSchema, item).Ok? {
      ConformsList(ItemSchema.keys, item, "valid_entries");
      var entries := PV.Children(item, "valid_entries").value;
      CheckAllMeaning(CheckEntry, entries);
    }
  }

  lemma CheckItemsMeaning(items: seq<Value>)
    ensures CheckAll(CheckItem, items).Ok? <==> ItemsValid(items)
    ensures CheckAll(CheckItem, items).Err? ==> IsSchemaError(CheckAll(CheckItem, items).error.cls)
  {
    CheckAllMeaning(CheckItem, items);
    forall j | 0 <= j < |items| ensures CheckItem(items[j]).Ok? <==> ItemValid(items[j]) {
      CheckItemMeaning(items[j]);
    }
    if CheckAll(CheckItem, items).Err? {
      var i :| 0 <= i < |items| && CheckItem(items[i]) == Err(CheckAll(CheckItem, items).error);
      CheckItemMeaning(items[i]);
    }
  }

  lemma CheckTabMeaning(tab: Value)
    ensures CheckTab(tab).Ok? <==> TabValid(TabMultiple, tab)
    ensures CheckTab(tab).Err? ==> IsSchemaError(CheckTab(tab).error.cls)
  {
    if Check(TabMultiple, tab).Ok? {
      ConformsList(TabMultiple.keys, tab, "items");
      CheckItemsMeaning(PV.Children(tab, "items").value);
    }
  }

  lemma CheckTabsMeaning(tabs: seq<Value>)
    ensures CheckAll(CheckTab, tabs).Ok? <==> forall i :: 0 <= i < |tabs| ==> TabValid(TabMultiple, tabs[i])
    ensures CheckAll(CheckTab, tabs).Err? ==> IsSchemaError(CheckAll(CheckTab, tabs).error.cls)
  {
    CheckAllMeaning(CheckTab, tabs);
    forall i | 0 <= i < |tabs| ensures CheckTab(tabs[i]).Ok? <==> TabValid(TabMultiple, tabs[i]) {
      CheckTabMeaning(tabs[i]);
    }
    if CheckAll(CheckTab, tabs).Err? {
      var i :| 0 <= i < |tabs| && CheckTab(tabs[i]) == Err(CheckAll(CheckTab, tabs).error);
      CheckTabMeaning(tabs[i]);
    }
  }

  /**
   * The walk passes exactly when every node conforms; when it raises, the
   * exception is a schema error, unless the layout itself could not be
   * determined (no dict, or a `tabs` without a length).
   */
  lemma SchemaWalkMeaning(config: Value)
    ensures SchemaWalk(config).Ok? <==> ConfigValid(config)
    ensures SchemaWalk(config).Err? ==>
      IsSchemaError(SchemaWalk(config).error.cls)
      || (PV.DetermineLayout(config).Err? && SchemaWalk(config).error == PV.DetermineLayout(config).error)
  {
    if PV.DetermineLayout(config).Ok? {
      match PV.DetermineLayout(config).value
      case Multiple => MultipleWalkMeaning(config);
      case SingleWithKey => SingleWithKeyWalkMeaning(config);
      case SingleWithoutKey => SingleWithoutKeyWalkMeaning(config);
    }
  }

  /** The walk of a several-tab configuration. */
  lemma MultipleWalkMeaning(config: Value)
    ensures MultipleWalk(config).Ok? <==> MultipleValid(config)
    ensures MultipleWalk(config).Err? ==> IsSchemaError(MultipleWalk(config).error.cls)
  {
    if Check(OuterWithTabs, config).Ok? {
      ConformsList(OuterWithTabs.keys, config, "tabs");
      CheckTabsMeaning(PV.Children(config, "tabs").value);
    }
  }

  /** The walk of a one-tab configuration under `tabs`. */
  lemma SingleWithKeyWalkMeaning(config: Value)
    ensures SingleWithKeyWalk(config).Ok? <==> SingleWithKeyValid(config)
    ensures SingleWithKeyWalk(config).Err? ==> IsSchemaError(SingleWithKeyWalk(config).error.cls)
  {
    if Check(OuterWithTabs, config).Ok? {
      ConformsList(OuterWithTabs.keys, config, "tabs");
      var tab := PV.Children(config, "tabs").value[0];
      if Check(TabSingle, tab).Ok? {
        ConformsList(TabSingle.keys, tab, "items");
        CheckItemsMeaning(PV.Children(tab, "items").value);
      }
    }
  }

  /** The walk of a configuration without `tabs`. */
  lemma SingleWithoutKeyWalkMeaning(config: Value)
    ensures SingleWithoutKeyWalk(config).Ok? <==> SingleWithoutKeyValid(config)
    ensures SingleWithoutKeyWalk(config).Err? ==> IsSchemaError(SingleWithoutKeyWalk(config).error.cls)
  {
    if Check(OuterWithoutTabs, config).Ok? {
      ConformsList(OuterWithoutTabs.keys, config, "items");
      CheckItemsMeaning(PV.Children(config, "items").value);
    }
  }

  /**
   * The `assert len(config["tabs"]) == 1` of the single-with-key branch never
   * fails: the outer schema demands at least one tab and the layout at most one.
   */
  lemma SingleWithKeyHasOneTab(config: Value)
    requires PV.DetermineLayout(config) == Ok(PV.SingleWithKey) && Check(OuterWithTabs, config).Ok?
    ensures PV.Children(config, "tabs").Ok? && |PV.Children(config, "tabs").value| == 1
  {
    ConformsList(OuterWithTabs.keys, config, "tabs");
  }

  /** Without `tabs`, the configuration must say whether it is case sensitive. */
  lemma WithoutTabsNeedsCaseSensitive(config: Value)
    requires config.VDict? && Lookup(config.entries, "tabs").None? && Lookup(config.entries, "case_sensitive").None?
    ensures SchemaWalk(config).Err?
  {
    assert KeySpec(Required, "case_sensitive", IsBool) in OuterWithoutTabs.keys;
  }

  // ---------------------------------------------------------------------
  // The loops of `validate_schema`

  /** `for entry in item["valid_entries"]: entry_schema.validate(entry)`. */
  method CheckEntries(entries: seq<Value>) returns (r: Result<()>)
    ensures r == CheckAll(CheckEntry, entries)
  {
    ghost var whole := MapFrom(CheckEntry, entries, 0);
    ghost var done: seq<()> := [];
    MapLoopStart(CheckEntry, entries);
    var k := 0;
    while k < |entries|
      invariant MapSoFar(CheckEntry, entries, k, done, whole)
    {
      var checked := Check(EntrySchema, entries[k]);
      if checked.Err? {
        MapLoopErr(CheckEntry, entries, k, done, whole, checked.error);
        return Err(checked.error);
      }
      MapLoopNext(CheckEntry, entries, k, done, whole, ());
      done := done + [()];
      k := k + 1;
    }
    MapLoopEnd(CheckEntry, entries, done, whole);
    return Ok(());
  }

  /** `for item in items:` validate the item, then its entries. */
  method CheckItems(items: seq<Value>) returns (r: Result<()>)
    ensures r == CheckAll(CheckItem, items)
  {
    ghost var whole := MapFrom(CheckItem, items, 0);
    ghost var done: seq<()> := [];
    MapLoopStart(CheckItem, items);
    var j := 0;
    while j < |items|
      invariant MapSoFar(CheckItem, items, j, done, whole)
    {
      var checked := Check(ItemSchema, items[j]);
      if checked.Ok? {
        var entries := PV.Children(items[j], "valid_entries");
        if entries.Err? {
          checked := Err(entries.error);
        } else {
          checked := CheckEntries(entries.value);
        }
      }
      if checked.Err? {
        MapLoopErr(CheckItem, items, j, done, whole, checked.error);
        return Err(checked.error);
      }
      MapLoopNext(CheckItem, items, j, done, whole, ());
      done := done + [()];
      j := j + 1;
    }
    MapLoopEnd(CheckItem, items, done, whole);
    return Ok(());
  }

  /** `for tab in config["tabs"]:` validate the tab, then its items. */
  method CheckTabs(tabs: seq<Value>) returns (r: Result<()>)
    ensures r == CheckAll(CheckTab, tabs)
  {
    ghost var whole := MapFrom(CheckTab, tabs, 0);
    ghost var done: seq<()> := [];
    MapLoopStart(CheckTab, tabs);
    var i := 0;
    while i < |tabs|
      invariant MapSoFar(CheckTab, tabs, i, done, whole)
    {
      var checked := Check(TabMultiple, tabs[i]);
      if checked.Ok? {
        var items := PV.Children(tabs[i], "items");
        if items.Err? {
          checked := Err(items.error);
        } else {
          checked := CheckItems(items.value);
        }
      }
      if checked.Err? {
        MapLoopErr(CheckTab, tabs, i, done, whole, checked.error);
        return Err(checked.error);
      }
      MapLoopNext(CheckTab, tabs, i, done, whole, ());
      done := done + [()];
      i := i + 1;
    }
    MapLoopEnd(CheckTab, tabs, done, whole);
    return Ok(());
  }

  /** `validate_schema(config)`: the walk for the configuration's layout. */
  method ValidateSchema(config: Value) returns (r: Result<()>)
    ensures r == SchemaWalk(config)
  {
    var layout :- PV.DetermineLayout(config);
    var _ :- Check(if layout == PV.SingleWithoutKey then OuterWithoutTabs else OuterWithTabs, config);
    if layout == PV.SingleWithoutKey {
      var items :- PV.Children(config, "items");
      r := CheckItems(items);
      return;
    }
    // `tabs` had its length taken when the layout was determined, so it iterates
    var tabs := PV.Children(config, "tabs").value;
    if layout == PV.Multiple {
      r := CheckTabs(tabs);
    } else {
      var tab :- PyIndex(tabs, 0);
      var _ :- Check(TabSingle, tab);
      var items :- PV.Children(tab, "items");
      r := CheckItems(items);
    }
  }

  // ---------------------------------------------------------------------
  // `schema_is_valid`

  /** `s.find(pat, from)`: the first index at or after `from` where `pat` occurs, or -1. */
  function Find(s: string, pat: string, from: nat): (r: int)
    ensures r == -1 || (from <= r && r + |pat| <= |s| && s[r..r + |pat|] == pat)
    decreases |s| - from
  {
    if from + |pat| > |s| then -1
    else if s[from..from + |pat|] == pat then from
    else Find(s, pat, from + 1)
  }

  /** An occurrence at or after `from` is found. */
  lemma {:induction false} FindOccurrence(s: string, pat: string, from: nat, i: nat)
    requires from <= i && i + |pat| <= |s| && s[i..i + |pat|] == pat
    ensures Find(s, pat, from) != -1
    decreases i - from
  {
    if from < i && s[from..from + |pat|] != pat {
      FindOccurrence(s, pat, from + 1, i);
    }
  }

  /** A text without the pattern's first character does not contain the pattern. */
  lemma {:induction false} FindAbsent(s: string, pat: string, from: nat)
    requires |pat| > 0 && pat[0] !in s
    ensures Find(s, pat, from) == -1
    decreases |s| - from
  {
    if from + |pat| <= |s| {
      assert s[from] in s;
      assert s[from..from + |pat|][0] == s[from];
      FindAbsent(s, pat, from + 1);
    }
  }

  /** `str(e.__class__).find("Schema") != -1`. */
  predicate NamesSchema(c: ExcClass) {
    Find(ClassRepr(c), "Schema", 0) != -1
  }

  /** None of the other class names has a capital S. */
  lemma NoCapitalS(c: ExcClass)
    requires !IsSchemaError(c)
    ensures 'S' !in ClassRepr(c)
  {
    var n := ClassName(c);
    assert 'S' !in n by {
      match c {
      case TypeError => assert n == "TypeError" && 'S' !in "TypeError";
      case KeyError => assert n == "KeyError" && 'S' !in "KeyError";
      case IndexError => assert n == "IndexError" && 'S' !in "IndexError";
      case AttributeError => assert n == "AttributeError" && 'S' !in "AttributeError";
      case AssertionError => assert n == "AssertionError" && 'S' !in "AssertionError";
      case EOFError => assert n == "EOFError" && 'S' !in "EOFError";
      case InvalidInputError => InvalidInputLacksS();
      case ValueOverlapError => ValueOverlapLacksS();
      }
    }
    ReprOmits(n, 'S');
  }

  /** The menu packages' exception classes have no capital S in their names. */
  lemma InvalidInputLacksS()
    ensures 'S' !in ClassName(InvalidInputError)
  {
    assert 'S' !in "pytabby" && 'S' !in ".validators." && 'S' !in "InvalidInputError";
  }

  lemma ValueOverlapLacksS()
    ensures 'S' !in ClassName(ValueOverlapError)
  {
    assert 'S' !in "tabbedshellmenus" && 'S' !in ".validators." && 'S' !in "ValueOverlapError";
  }

  /** A character that is not in a class name, nor in `<class ''>`, is not in the printed name. */
  lemma ReprOmits(n: string, ch: char)
    requires ch !in n && ch !in "<class '" && ch !in "'>"
    ensures ch !in "<class '" + n + "'>"
  {
  }

  /** The printed name of a schema error has "Schema" right after "<class 'schema.". */
  lemma SchemaAt15(c: ExcClass)
    requires IsSchemaError(c)
    ensures ClassRepr(c)[15..21] == "Schema"
  {
    var n := ClassName(c);
    assert n[..13] == "schema.Schema" by {
      match c
      case SchemaError => assert n == "schema.SchemaError";
      case SchemaMissingKeyError => assert n == "schema.SchemaMissingKeyError";
      case SchemaWrongKeyError => assert n == "schema.SchemaWrongKeyError";
      case SchemaForbiddenKeyError => assert n == "schema.SchemaForbiddenKeyError";
      case SchemaUnexpectedTypeError => assert n == "schema.SchemaUnexpectedTypeError";
    }
    var r := ClassRepr(c);
    assert r == "<class '" + n + "'>";
    assert r[15..21] == n[7..13];
  }

  /** The classes whose printed name contains "Schema" are exactly the schema package's errors. */
  lemma NamesSchemaIff(c: ExcClass)
    ensures NamesSchema(c) <==> IsSchemaError(c)
  {
    if IsSchemaError(c) {
      SchemaAt15(c);
      FindOccurrence(ClassRepr(c), "Schema", 0, 15);
    } else {
      NoCapitalS(c);
      FindAbsent(ClassRepr(c), "Schema", 0);
    }
  }

  /**
   * What `schema_is_valid(dict_)` answers: True when the walk passes, False
   * when it raises one of the schema package's errors, and any other
   * exception re-raised.
   */
  function SchemaVerdict(config: Value): (r: Result<bool>)
    ensures r == Ok(true) <==> SchemaWalk(config).Ok?
    ensures r == Ok(false) ==> SchemaWalk(config).Err? && IsSchemaError(SchemaWalk(config).error.cls)
    ensures r.Err? ==> SchemaWalk(config) == Err(r.error) && !IsSchemaError(r.error.cls)
  {
    match SchemaWalk(config)
    case Ok(_) => Ok(true)
    case Err(e) =>
      NamesSchemaIff(e.cls);
      if NamesSchema(e.cls) then Ok(false) else Err(e)
  }

  /** `schema_is_valid(dict_)`: the walk inside `try`, and the class test in `except`. */
  method SchemaIsValid(config: Value) returns (r: Result<bool>)
    ensures r == SchemaVerdict(config)
  {
    var walked := ValidateSchema(config);
    if walked.Ok? {
      return Ok(true);
    }
    if Find(ClassRepr(walked.error.cls), "Schema", 0) != -1 {
      return Ok(false);
    }
    return Err(walked.error);
  }

  /**
   * `schema_is_valid` answers True exactly on a valid configuration, False
   * on every other configuration whose layout can be determined, and raises
   * only the layout's own exception.
   */
  lemma SchemaVerdictMeaning(config: Value)
    ensures SchemaVerdict(config) == Ok(true) <==> ConfigValid(config)
    ensures SchemaVerdict(config) == Ok(false) <==> PV.DetermineLayout(config).Ok? && !ConfigValid(config)
    ensures SchemaVerdict(config).Err? <==> PV.DetermineLayout(config).Err?
    ensures SchemaVerdict(config).Err? ==> SchemaVerdict(config).error == PV.DetermineLayout(config).error
  {
    SchemaWalkMeaning(config);
    if SchemaWalk(config).Err? {
      NamesSchemaIff(SchemaWalk(config).error.cls);
      if PV.DetermineLayout(config).Err? {
        assert SchemaWalk(config).error == PV.DetermineLayout(config).error;
        assert !IsSchemaError(PV.DetermineLayout(config).error.cls);
      }
    }
  }

  // ---------------------------------------------------------------------
  // `_config_tabs` / `_find_tabs`

  /** The one tab the layout without `tabs` stands for. */
  function SoleTab(items: Value): Value {
    VList([VDict([("items", items)])])
  }

  /**
   * The dict's entries after `_config_tabs`: in the layout without `tabs` a
   * `tabs` key is added, even when `items` then raises; every other key,
   * `items` included, is unchanged, and other layouts are left alone.
   */
  function TabsAdded(es: seq<(string, Value)>): (r: seq<(string, Value)>)
    ensures forall k :: k != "tabs" ==> Lookup(r, k) == Lookup(es, k)
    ensures PV.DetermineLayout(VDict(es)) == Ok(PV.SingleWithoutKey) ==> Lookup(r, "tabs").Some?
    ensures PV.DetermineLayout(VDict(es)) != Ok(PV.SingleWithoutKey) ==> r == es
  {
    if PV.DetermineLayout(VDict(es)) == Ok(PV.SingleWithoutKey) then
      match Lookup(es, "items")
      case Some(items) => SetKey(es, "tabs", SoleTab(items))
      case None => SetKey(es, "tabs", VList([VDict([])]))
    else es
  }

  /** Assigning a key twice leaves the second value. */
  lemma {:induction false} SetKeyTwice(es: seq<(string, Value)>, k: string, a: Value, b: Value)
    ensures SetKey(SetKey(es, k, a), k, b) == SetKey(es, k, b)
  {
    if |es| > 0 && es[0].0 != k {
      SetKeyTwice(es[1..], k, a, b);
      assert SetKey(es, k, a)[1..] == SetKey(es[1..], k, a);
    }
  }

  /** `_config_tabs(config)` on the caller's dict. */
  method ConfigTabsInPlace(config: Dict) returns (r: Result<Value>)
    modifies config
    ensures r == PO.ConfigTabs(VDict(old(config.entries)))
    ensures config.entries == TabsAdded(old(config.entries))
  {
    var layout := PV.DetermineLayout(VDict(config.entries));
    if layout.Err? {
      return Err(layout.error);
    }
    if layout.value == PV.SingleWithoutKey {
      ghost var es := config.entries;
      config.entries := SetKey(config.entries, "tabs", VList([VDict([])]));
      var items := GetKey(VDict(config.entries), "items");
      if items.Err? {
        return Err(items.error);
      }
      config.entries := SetKey(config.entries, "tabs", SoleTab(items.value));
      SetKeyTwice(es, "tabs", VList([VDict([])]), SoleTab(items.value));
    }
    return GetKey(VDict(config.entries), "tabs");
  }

  /**
   * The added tab holds the top-level items, which stay where they were
   * (pytabby's normalizer deletes them); every other key is unchanged.
   */
  lemma TabsAddedKeepsItems(es: seq<(string, Value)>)
    requires PV.DetermineLayout(VDict(es)) == Ok(PV.SingleWithoutKey) && Lookup(es, "items").Some?
    ensures Lookup(TabsAdded(es), "tabs") == Some(SoleTab(Lookup(es, "items").value))
    ensures forall k :: k != "tabs" ==> Lookup(TabsAdded(es), k) == Lookup(es, k)
    ensures PO.ConfigTabs(VDict(es)) == Ok(SoleTab(Lookup(es, "items").value))
  {
  }

  /**
   * Running `_config_tabs` again (as `validate_all` does, once per overlap
   * check) changes nothing more and returns the same tabs.
   */
  lemma ConfigTabsIdempotent(es: seq<(string, Value)>)
    ensures TabsAdded(TabsAdded(es)) == TabsAdded(es)
    ensures PO.ConfigTabs(VDict(es)).Ok? ==> PO.ConfigTabs(VDict(TabsAdded(es))) == PO.ConfigTabs(VDict(es))
  {
    if PV.DetermineLayout(VDict(es)) == Ok(PV.SingleWithoutKey) {
      var es2 := TabsAdded(es);
      assert Lookup(es2, "tabs").Some?;
      assert PV.DetermineLayout(VDict(es2)) == Ok(PV.SingleWithKey);
    }
  }

  /** A dict holding `items` never fits the outer schema of the layouts with `tabs`. */
  lemma ItemsBreakOuterWithTabs(es: seq<(string, Value)>, items: Value)
    requires ("items", items) in es
    ensures Check(OuterWithTabs, VDict(es)).Err?
  {
    assert !EntryOk(OuterWithTabs.keys, ("items", items));
  }

  /**
   * After `_config_tabs` a configuration without `tabs` (a valid one
   * included) no longer passes the schema: it now has a single tab, and
   * the outer schema for that layout does not allow the `items` key that
   * was kept.
   */
  lemma TabsAddedBreaksSchema(es: seq<(string, Value)>)
    requires PV.DetermineLayout(VDict(es)) == Ok(PV.SingleWithoutKey) && Lookup(es, "items").Some?
    ensures PV.DetermineLayout(VDict(TabsAdded(es))) == Ok(PV.SingleWithKey)
    ensures SchemaWalk(VDict(TabsAdded(es))).Err?
  {
    var es2 := TabsAdded(es);
    var items := Lookup(es, "items").value;
    assert Lookup(es2, "items") == Some(items);
    assert ("items", items) in es2 by {
      var i :| 0 <= i < |es2| && es2[i] == ("items", items);
      assert es2[i] in es2;
    }
    ItemsBreakOuterWithTabs(es2, items);
  }
}
