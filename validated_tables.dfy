/**
 * What pytabby's `validate_all` promises the tab tables of the menu:
 * `_validate_no_input_value_overlap` (src/pytabby/validators.py) is there so
 * that any entry the user types either leads to another tab or returns one
 * unique value. Here a configuration that passes `validate_all` and is then
 * normalized is followed into `Tab._parse_items`: no key of any tab's table
 * is written twice, so every selector changes to its tab and every input
 * returns its own item's value.
 *
 * The promise needs the validator and the normalizer to see the same
 * tokens. The validator compares raw values (with `str().lower()` only when
 * not case sensitive) and takes only the truthy tab headers as selectors;
 * the normalizer turns every token into a string and keeps every header. The
 * theorem therefore assumes that the configuration is not case sensitive and
 * every tab header is truthy, or that every header and input is a string.
 * Two concrete configurations show that neither condition can be dropped.
 */
module ValidatedTables {
  import opened PyValue
  import SL = SchemaLib
  import C = Counter
  import PV = PytabbyValidators
  import PO = PytabbyOverlap
  import VA = PytabbyValidateAll
  import NC = NormalizerCore
  import PN = PytabbyNormalizer
  import TT = TabTable

  // ---------------------------------------------------------------------
  // A schema walk without a message

  predicate Clean(w: PV.Walk) { w.reports == [] && w.stop.None? }

  lemma CleanThen(a: PV.Walk, b: PV.Walk)
    ensures Clean(PV.Then(a, b)) <==> Clean(a) && Clean(b)
  {}

  /** What the item schema guarantees and the menu relies on: inputs and a return value are present. */
  predicate ItemShaped(item: Value) {
    && item.VDict? && Lookup(item.entries, "item_returns").Some?
    && Lookup(item.entries, "item_inputs").Some? && PV.Children(item, "item_inputs").Ok?
  }

  /**
   * What a tab schema guarantees and the menu relies on: a dict whose header
   * input is present and non-empty under `str()` in the multi-tab layout and
   * absent otherwise, with items that can be walked and are each shaped.
   */
  predicate TabShaped(multiple: bool, tab: Value) {
    && tab.VDict?
    && (multiple ==> Lookup(tab.entries, "tab_header_input").Some? && |Str(Lookup(tab.entries, "tab_header_input").value)| > 0)
    && (!multiple ==> Lookup(tab.entries, "tab_header_input").None?)
    && PV.Children(tab, "items").Ok?
    && forall q :: 0 <= q < |PV.Children(tab, "items").value| ==> ItemShaped(PV.Children(tab, "items").value[q])
  }

  lemma ItemSchemaShape(item: Value)
    requires PV.NodeMessage(PV.ItemSchema, item).None?
    ensures item.VDict? && Lookup(item.entries, "item_returns").Some? && Lookup(item.entries, "item_inputs").Some?
  {
    RequiredField(PV.ItemSchema.keys, item, "item_inputs");
    RequiredField(PV.ItemSchema.keys, item, "item_returns");
  }

  lemma TabMultipleShape(tab: Value)
    requires PV.NodeMessage(PV.TabMultiple, tab).None?
    ensures tab.VDict? && Lookup(tab.entries, "tab_header_input").Some?
    ensures |Str(Lookup(tab.entries, "tab_header_input").value)| > 0
  {
    RequiredField(PV.TabMultiple.keys, tab, "tab_header_input");
  }

  lemma TabSingleShape(tab: Value)
    requires PV.NodeMessage(PV.TabSingleWithKey, tab).None?
    ensures tab.VDict? && Lookup(tab.entries, "tab_header_input").None?
  {
    ForbiddenField(PV.TabSingleWithKey.keys, tab, "tab_header_input");
  }

  lemma {:induction false} ItemsWalkClean(ti: nat, items: seq<Value>, j: nat, q: nat)
    requires Clean(PV.ItemsWalk(ti, items, j)) && j <= q < |items|
    ensures ItemShaped(items[q])
    decreases q - j
  {
    var head := PV.NodeReports([ti, j], PV.ItemSchema, items[j]);
    var es := PV.Children(items[j], "item_inputs");
    assert es.Ok?;
    CleanThen(PV.Walk(head + PV.EntriesWalk(ti, j, es.value, 0), None), PV.ItemsWalk(ti, items, j + 1));
    if q == j {
      assert head == [];
      ItemSchemaShape(items[j]);
      assert PV.Children(items[q], "item_inputs").Ok?;
    } else {
      ItemsWalkClean(ti, items, j + 1, q);
    }
  }

  lemma ItemsShaped(ti: nat, items: seq<Value>)
    requires Clean(PV.ItemsWalk(ti, items, 0))
    ensures forall q :: 0 <= q < |items| ==> ItemShaped(items[q])
  {
    forall q | 0 <= q < |items| ensures ItemShaped(items[q]) {
      ItemsWalkClean(ti, items, 0, q);
    }
  }

  lemma {:induction false} TabsWalkClean(tabs: seq<Value>, i: nat, k: nat)
    requires Clean(PV.TabsWalk(tabs, i)) && i <= k < |tabs|
    ensures TabShaped(true, tabs[k])
    decreases k - i
  {
    var head := PV.NodeReports([i], PV.TabMultiple, tabs[i]);
    var items := PV.Children(tabs[i], "items");
    assert items.Ok?;
    CleanThen(PV.Walk(head, None), PV.Then(PV.ItemsWalk(i, items.value, 0), PV.TabsWalk(tabs, i + 1)));
    CleanThen(PV.ItemsWalk(i, items.value, 0), PV.TabsWalk(tabs, i + 1));
    if k == i {
      assert head == [];
      TabMultipleShape(tabs[i]);
      ItemsShaped(i, items.value);
    } else {
      TabsWalkClean(tabs, i + 1, k);
    }
  }

  /** A walk renders no message exactly when it is clean. */
  lemma CleanRender(layout: PV.Layout, w: PV.Walk)
    ensures PV.Render(layout, w) == [] <==> Clean(w)
  {}

  /** The one element of a list that `tabs[0]` reads is the first one a loop visits. */
  lemma SoleTabIsFirst(v: Value)
    requires GetIndex(v, 0).Ok? && Iter(v).Ok? && |Iter(v).value| >= 1
    ensures Iter(v).value[0] == GetIndex(v, 0).value
  {}

  /** The validator's list of tabs: `_config_tabs(config)`, iterated (empty when that raises). */
  function ConfigTabList(config: Value): seq<Value> {
    match PO.ConfigTabs(config)
    case Err(_) => []
    case Ok(v) => match Iter(v) case Ok(ts) => ts case Err(_) => []
  }

  /** The set-up of `_validate_no_input_value_overlap`, field by field. */
  lemma PlanFields(config: Value)
    requires PO.PlanInputs(config).Ok?
    ensures var plan := PO.PlanInputs(config).value;
      && config.VDict?
      && plan.caseSensitive == DictGet(config, "case_sensitive", VBool(false)).value
      && DetermineLayoutIs(config, plan.layout)
      && PO.ConfigTabs(config).Ok? && Iter(PO.ConfigTabs(config).value) == Ok(plan.tabs)
      && ConfigTabList(config) == plan.tabs
      && (plan.layout == PV.Multiple ==> PO.TruthyGets(plan.tabs, "tab_header_input") == Ok(plan.starting))
      && (plan.layout != PV.Multiple ==> plan.starting == [])
  {}

  predicate DetermineLayoutIs(config: Value, layout: PV.Layout) {
    PV.DetermineLayout(config) == Ok(layout)
  }

  /**
   * A configuration whose schema check has no message: every tab of the list
   * the overlap checks walk is a dict with the header the layout demands, and
   * every item of it has inputs and a return value.
   */
  lemma SchemaCleanTabs(config: Value)
    requires PV.SchemaMessages(config) == Ok([]) && PO.PlanInputs(config).Ok?
    ensures var plan := PO.PlanInputs(config).value;
      forall t :: 0 <= t < |plan.tabs| ==> TabShaped(plan.layout == PV.Multiple, plan.tabs[t])
  {
    PlanFields(config);
    var plan := PO.PlanInputs(config).value;
    CleanRender(plan.layout, PV.SchemaWalk(plan.layout, config));
    match plan.layout
    case Multiple => MultipleClean(config);
    case SingleWithKey => SingleWithKeyClean(config);
    case SingleWithoutKey =>
      SingleWithoutKeyClean(config);
      assert plan.tabs == [VDict([("items", Lookup(config.entries, "items").value)])];
  }

  lemma MultipleClean(config: Value)
    requires PV.DetermineLayout(config) == Ok(PV.Multiple) && Clean(PV.MultipleWalk(config))
    ensures PO.ConfigTabs(config).Ok? && Iter(PO.ConfigTabs(config).value).Ok?
    ensures var tabs := Iter(PO.ConfigTabs(config).value).value;
      forall t :: 0 <= t < |tabs| ==> TabShaped(true, tabs[t])
  {
    MultipleWalkTabs(config);
    var tabs := PV.Children(config, "tabs").value;
    assert Iter(PO.ConfigTabs(config).value) == Ok(tabs);
    forall t | 0 <= t < |tabs| ensures TabShaped(true, tabs[t]) {
      TabsWalkClean(tabs, 0, t);
    }
  }

  lemma MultipleWalkTabs(config: Value)
    requires Clean(PV.MultipleWalk(config))
    ensures PV.Children(config, "tabs").Ok? && Clean(PV.TabsWalk(PV.Children(config, "tabs").value, 0))
  {
    var tabs := PV.Children(config, "tabs");
    assert tabs.Ok?;
    CleanThen(PV.Walk(PV.NodeReports([], PV.OuterWithTabs, config), None), PV.TabsWalk(tabs.value, 0));
  }

  lemma SingleWithKeyClean(config: Value)
    requires PV.DetermineLayout(config) == Ok(PV.SingleWithKey) && Clean(PV.SingleWithKeyWalk(config))
    ensures PO.ConfigTabs(config).Ok? && Iter(PO.ConfigTabs(config).value).Ok?
    ensures var tabs := Iter(PO.ConfigTabs(config).value).value;
      forall t :: 0 <= t < |tabs| ==> TabShaped(false, tabs[t])
  {
    SoleTabShaped(config);
    var tab := PV.SoleTab(config).value;
    var tabsValue := Lookup(config.entries, "tabs").value;
    var tabs := Iter(tabsValue).value;
    assert Len(tabsValue) == Ok(|tabs|);
    assert |tabs| <= 1;
    assert PV.SoleTab(config) == GetIndex(tabsValue, 0);
    forall t | 0 <= t < |tabs| ensures TabShaped(false, tabs[t]) {
      assert t == 0;
      SoleTabIsFirst(tabsValue);
      assert tabs[t] == tab;
    }
  }

  lemma SoleTabShaped(config: Value)
    requires Clean(PV.SingleWithKeyWalk(config))
    ensures PV.SoleTab(config).Ok? && TabShaped(false, PV.SoleTab(config).value)
  {
    var tab := PV.SoleTab(config);
    assert tab.Ok?;
    var head := PV.NodeReports([0], PV.TabSingleWithKey, tab.value);
    var items := PV.Children(tab.value, "items");
    assert items.Ok?;
    var inner := PV.Then(PV.Walk(head, None), PV.ItemsWalk(0, items.value, 0));
    CleanThen(PV.Walk(PV.NodeReports([], PV.OuterWithTabs, config), None), inner);
    CleanThen(PV.Walk(head, None), PV.ItemsWalk(0, items.value, 0));
    assert head == [];
    TabSingleShape(tab.value);
    ItemsShaped(0, items.value);
  }

  lemma SingleWithoutKeyClean(config: Value)
    requires PV.DetermineLayout(config) == Ok(PV.SingleWithoutKey) && Clean(PV.SingleWithoutKeyWalk(config))
    ensures Lookup(config.entries, "items").Some?
    ensures TabShaped(false, VDict([("items", Lookup(config.entries, "items").value)]))
  {
    var items := PV.Children(config, "items");
    assert items.Ok?;
    CleanThen(PV.Walk(PV.NodeReports([], PV.OuterWithoutTabs, config), None), PV.ItemsWalk(0, items.value, 0));
    ItemsShaped(0, items.value);
    var tab := VDict([("items", Lookup(config.entries, "items").value)]);
    assert PV.Children(tab, "items") == items;
  }

  /** A key the schema requires is present in a conforming dict and its value passes the key's check. */
  lemma RequiredField(keys: seq<SL.KeySpec>, v: Value, name: string)
    requires SL.Conforms(keys, v) && SL.FindSpec(keys, name).Some? && SL.FindSpec(keys, name).value.kind == SL.Required
    ensures Lookup(v.entries, name).Some?
    ensures SL.Passes(SL.FindSpec(keys, name).value.check, Lookup(v.entries, name).value)
  {
    SL.FindSpecMeaning(keys, name);
    var x := Lookup(v.entries, name).value;
    assert SL.EntryOk(keys, (name, x));
  }

  /** A key the schema forbids is absent from a conforming dict. */
  lemma ForbiddenField(keys: seq<SL.KeySpec>, v: Value, name: string)
    requires SL.Conforms(keys, v) && SL.FindSpec(keys, name).Some? && SL.FindSpec(keys, name).value.kind == SL.Forbidden
    ensures Lookup(v.entries, name).None?
  {
    forall e | e in v.entries ensures e.0 != name {
      assert SL.EntryOk(keys, e);
    }
  }

  // ---------------------------------------------------------------------
  // The validator's input check, tab by tab

  /**
   * A configuration whose input check has no message: every tab's candidates
   * (the starting choices, then its items' inputs, folded when not case
   * sensitive) are pairwise different.
   */
  lemma InputsChecked(config: Value, t: nat)
    requires PO.InputOverlapMessages(config) == Ok([])
    ensures PO.PlanInputs(config).Ok?
    ensures var plan := PO.PlanInputs(config).value;
      t < |plan.tabs| ==>
        PO.TabChoices(plan.starting, plan.tabs[t], plan.caseSensitive).Ok? &&
        C.NoDuplicates(PO.TabChoices(plan.starting, plan.tabs[t], plan.caseSensitive).value)
  {
    var plan := PO.PlanInputs(config).value;
    var check := PO.InputCheck(plan.layout, plan.starting, plan.caseSensitive);
    PO.GatherFromEmpty(check, plan.tabs, 0);
    if t < |plan.tabs| {
      assert check(t, plan.tabs[t]) == Ok(None);
      var choices := PO.TabChoices(plan.starting, plan.tabs[t], plan.caseSensitive);
      assert choices.Ok?;
      PO.InputCheckTabMeaning(plan.layout, plan.starting, plan.caseSensitive, t, plan.tabs[t], choices.value);
    }
  }

  // ---------------------------------------------------------------------
  // The normalizer walks the tabs the validator checked

  /**
   * One normalized tab per tab the validator checked, in order, each the
   * walk's tab of the old one; each old tab holds dicts with unique keys.
   */
  lemma NormalizedTabsOf(config: Value)
    requires DictsUnique(config) && PN.Normalize(config).Ok? && PO.PlanInputs(config).Ok?
    ensures var n := PN.Normalize(config).value;
      var tabs := PO.PlanInputs(config).value.tabs;
      && |n.tabs| == |tabs|
      && forall i :: 0 <= i < |tabs| ==>
           DictsUnique(tabs[i]) && NC.NormalizeTab(PN.Keys, n.caseSensitive, tabs[i]) == Ok(n.tabs[i])
  {
    PlanFields(config);
    PN.NormalizeStages(config);
    FoldedTabs(config);
    var n := PN.Normalize(config).value;
    var plan := PO.PlanInputs(config).value;
    IterDictsUnique(PO.ConfigTabs(config).value);
    MapFromOk(NC.TabFn(PN.Keys, n.caseSensitive), plan.tabs, 0);
  }

  /** After the fold, `tabs` holds exactly what `_config_tabs` returns, and only dicts with unique keys. */
  lemma FoldedTabs(config: Value)
    requires DictsUnique(config) && PN.Normalize(config).Ok? && PO.ConfigTabs(config).Ok?
    ensures config.VDict? && NC.AddTabsKey(config.entries, PN.FoldAssertText).Ok?
    ensures Lookup(NC.AddTabsKey(config.entries, PN.FoldAssertText).value, "tabs") == Some(PO.ConfigTabs(config).value)
    ensures DictsUnique(PO.ConfigTabs(config).value)
  {
    PN.NormalizeStages(config);
    NC.AddTabsKeyDictsUnique(config.entries, PN.FoldAssertText);
    if Lookup(config.entries, "tabs").None? {
      NC.AddTabsKeyFolds(config.entries, PN.FoldAssertText);
    }
  }

  /** The normalized case flag and the validator's one agree in truthiness. */
  lemma CaseFlagsAgree(config: Value)
    requires PN.Normalize(config).Ok? && PO.PlanInputs(config).Ok?
    ensures Truthy(PN.Normalize(config).value.caseSensitive) <==> Truthy(PO.PlanInputs(config).value.caseSensitive)
  {
    PlanFields(config);
  }

  // ---------------------------------------------------------------------
  // Items: the inputs the validator counted are the keys the table gets

  /** The inputs of the items, in order: the keys `_parse_items` writes after the selectors. */
  function FlatInputs(items: seq<NC.NItem>): seq<string>
    decreases |items|
  {
    if items == [] then [] else TT.InputsOf(items[0]) + FlatInputs(items[1..])
  }

  lemma InputStringsAppend(a: seq<Value>, b: seq<Value>, cs: Value)
    ensures NC.InputStrings(a + b, cs) == NC.InputStrings(a, cs) + NC.InputStrings(b, cs)
  {
    var whole, parts := NC.InputStrings(a + b, cs), NC.InputStrings(a, cs) + NC.InputStrings(b, cs);
    forall k | 0 <= k < |whole| ensures whole[k] == parts[k] {
      if k >= |a| {
        assert (a + b)[k] == b[k - |a|];
      }
    }
  }

  lemma InputStringsFlag(es: seq<Value>, a: Value, b: Value)
    requires Truthy(a) == Truthy(b)
    ensures NC.InputStrings(es, a) == NC.InputStrings(es, b)
  {}

  /** What one normalized item contributes: its old inputs, stringified and re-cased, or nothing when it had none. */
  lemma ItemInputsAgree(item: Value, nit: NC.NItem, cs: Value)
    requires DictsUnique(item) && NC.NormalizeItem(PN.Keys, cs, item) == Ok(nit)
    ensures item.VDict?
    ensures Lookup(item.entries, "item_inputs").Some? ==>
      nit.inputs.Some? && PV.Children(item, "item_inputs").Ok? && TT.InputsOf(nit) == NC.InputStrings(PV.Children(item, "item_inputs").value, cs)
    ensures Lookup(item.entries, "item_inputs").None? ==> TT.InputsOf(nit) == []
    ensures Lookup(item.entries, "item_returns").Some? ==> nit.returnValue.Some?
  {
    PN.KeysDistinct();
    NC.ItemMeaning(PN.Keys, cs, item);
    var ps := item.entries;
    if Lookup(ps, "item_inputs").Some? {
      var i :| 0 <= i < |ps| && ps[i] == ("item_inputs", Lookup(ps, "item_inputs").value);
      assert !NC.IsTextKey(PN.Keys, ps[i].0);
    } else {
      assert NC.ItemInputs(PN.Keys, item).Err?;
    }
  }

  lemma {:induction false} FlatInputsAgree(items: seq<Value>, nitems: seq<NC.NItem>, cs: Value)
    requires |nitems| == |items| && PO.TabInputs(items).Ok?
    requires forall q :: 0 <= q < |items| ==> DictsUnique(items[q]) && NC.NormalizeItem(PN.Keys, cs, items[q]) == Ok(nitems[q])
    ensures FlatInputs(nitems) == NC.InputStrings(PO.TabInputs(items).value, cs)
    decreases |items|
  {
    if items != [] {
      FlatInputsAgree(items[1..], nitems[1..], cs);
      ItemInputsAgree(items[0], nitems[0], cs);
      var here: seq<Value> := if Lookup(items[0].entries, "item_inputs").Some? then PV.Children(items[0], "item_inputs").value else [];
      var rest := PO.TabInputs(items[1..]).value;
      assert PO.TabInputs(items).value == here + rest;
      InputStringsAppend(here, rest, cs);
    }
  }

  /**
   * A checked tab, normalized: it has items, each with inputs and a return
   * value, and their inputs in order are the validator's inputs of the tab,
   * stringified and re-cased.
   */
  lemma TabItemsAgree(multiple: bool, tab: Value, nt: NC.NTab, cs: Value)
    requires DictsUnique(tab) && TabShaped(multiple, tab) && NC.NormalizeTab(PN.Keys, cs, tab) == Ok(nt)
    requires PO.TabInputs(PV.Children(tab, "items").value).Ok?
    ensures nt.items.Some? && TT.ItemsComplete(nt.items.value, 0)
    ensures FlatInputs(nt.items.value) == NC.InputStrings(PO.TabInputs(PV.Children(tab, "items").value).value, cs)
  {
    TabItemsPointwise(tab, nt, cs);
    var items := PV.Children(tab, "items").value;
    var nitems := nt.items.value;
    forall q | 0 <= q < |items|
      ensures nitems[q].inputs.Some? && nitems[q].returnValue.Some?
    {
      assert ItemShaped(items[q]);
      ItemInputsAgree(items[q], nitems[q], cs);
    }
    FlatInputsAgree(items, nitems, cs);
  }

  lemma TabItemsField(tab: Value, nt: NC.NTab, cs: Value)
    requires DictsUnique(tab) && NC.NormalizeTab(PN.Keys, cs, tab) == Ok(nt) && PV.Children(tab, "items").Ok?
    ensures nt.items.Some?
    ensures MapFrom(NC.ItemFn(PN.Keys, cs), PV.Children(tab, "items").value, 0) == Ok(nt.items.value)
  {
    PN.KeysDistinct();
    NC.TabMeaning(PN.Keys, cs, tab);
  }

  /** A normalized tab with items holds its old items, each normalized, at the same positions. */
  lemma TabItemsPointwise(tab: Value, nt: NC.NTab, cs: Value)
    requires DictsUnique(tab) && NC.NormalizeTab(PN.Keys, cs, tab) == Ok(nt) && PV.Children(tab, "items").Ok?
    ensures nt.items.Some? && |nt.items.value| == |PV.Children(tab, "items").value|
    ensures forall q :: 0 <= q < |PV.Children(tab, "items").value| ==>
      && DictsUnique(PV.Children(tab, "items").value[q])
      && NC.NormalizeItem(PN.Keys, cs, PV.Children(tab, "items").value[q]) == Ok(nt.items.value[q])
  {
    TabItemsField(tab, nt, cs);
    var items := PV.Children(tab, "items").value;
    var nitems := nt.items.value;
    MapFromOk(NC.ItemFn(PN.Keys, cs), items, 0);
    NC.LookupDictsUnique(tab.entries, "items");
    IterDictsUnique(Lookup(tab.entries, "items").value);
    forall q | 0 <= q < |items|
      ensures NC.NormalizeItem(PN.Keys, cs, items[q]) == Ok(nitems[q])
    {
      assert NC.ItemFn(PN.Keys, cs)(items[q]) == Ok(nitems[q]);
    }
  }

  // ---------------------------------------------------------------------
  // Selectors: the headers the validator counted are the selectors the menu gets

  lemma {:induction false} SelectorsCons(x: NC.NTab, rest: seq<NC.NTab>)
    ensures TT.Selectors([x] + rest) == TT.SelectorOf(x) + TT.Selectors(rest)
    decreases |rest|
  {
    var s := [x] + rest;
    if rest == [] {
      assert s[..|s| - 1] == [];
    } else {
      assert s[..|s| - 1] == [x] + rest[..|rest| - 1];
      SelectorsCons(x, rest[..|rest| - 1]);
      assert s[|s| - 1] == rest[|rest| - 1];
    }
  }

  /** A tab whose header, when present, is truthy and non-empty under `str()`. */
  predicate HeaderCounted(tab: Value) {
    && tab.VDict?
    && (Lookup(tab.entries, "tab_header_input").Some? ==>
          Truthy(Lookup(tab.entries, "tab_header_input").value) && |Str(Lookup(tab.entries, "tab_header_input").value)| > 0)
  }

  /** The selector the validator takes from a tab: its header when truthy. */
  function TruthyHeader(tab: Value): seq<Value>
    requires tab.VDict?
  {
    var h := DictGet(tab, "tab_header_input", VNone).value;
    if Truthy(h) then [h] else []
  }

  lemma TabSelectorAgrees(tab: Value, nt: NC.NTab, cs: Value)
    requires DictsUnique(tab) && HeaderCounted(tab) && NC.NormalizeTab(PN.Keys, cs, tab) == Ok(nt)
    ensures TT.SelectorOf(nt) == NC.InputStrings(TruthyHeader(tab), cs)
  {
    PN.KeysDistinct();
    NC.TabMeaning(PN.Keys, cs, tab);
  }

  lemma {:induction false} SelectorsAgree(tabs: seq<Value>, ntabs: seq<NC.NTab>, cs: Value)
    requires |ntabs| == |tabs|
    requires forall i :: 0 <= i < |tabs| ==>
      HeaderCounted(tabs[i]) && DictsUnique(tabs[i]) && NC.NormalizeTab(PN.Keys, cs, tabs[i]) == Ok(ntabs[i])
    ensures PO.TruthyGets(tabs, "tab_header_input").Ok?
    ensures TT.Selectors(ntabs) == NC.InputStrings(PO.TruthyGets(tabs, "tab_header_input").value, cs)
    decreases |tabs|
  {
    if tabs != [] {
      SelectorsAgree(tabs[1..], ntabs[1..], cs);
      TabSelectorAgrees(tabs[0], ntabs[0], cs);
      assert ntabs == [ntabs[0]] + ntabs[1..];
      SelectorsCons(ntabs[0], ntabs[1..]);
      var rest := PO.TruthyGets(tabs[1..], "tab_header_input").value;
      assert PO.TruthyGets(tabs, "tab_header_input").value == TruthyHeader(tabs[0]) + rest;
      InputStringsAppend(TruthyHeader(tabs[0]), rest, cs);
    }
  }

  lemma {:induction false} TruthyGetsAbsent(ds: seq<Value>, key: string)
    requires forall i :: 0 <= i < |ds| ==> ds[i].VDict? && Lookup(ds[i].entries, key).None?
    ensures PO.TruthyGets(ds, key) == Ok([])
    decreases |ds|
  {
    if ds != [] {
      TruthyGetsAbsent(ds[1..], key);
    }
  }

  /** Past the schema, with every header present truthy, each tab's header counts as a selector. */
  lemma HeadersCountedOf(config: Value)
    requires PV.SchemaMessages(config) == Ok([]) && PO.PlanInputs(config).Ok?
    requires HeadersTruthy(PO.PlanInputs(config).value.tabs)
    ensures var tabs := PO.PlanInputs(config).value.tabs;
      forall i :: 0 <= i < |tabs| ==> HeaderCounted(tabs[i])
  {
    var plan := PO.PlanInputs(config).value;
    SchemaCleanTabs(config);
    forall i | 0 <= i < |plan.tabs| ensures HeaderCounted(plan.tabs[i]) {
      assert TabShaped(plan.layout == PV.Multiple, plan.tabs[i]);
    }
  }

  /**
   * The selectors the menu builds are the validator's starting choices,
   * stringified and re-cased: in the multi-tab layout every tab's header,
   * in the single-tab layouts none.
   */
  lemma SelectorsOfPlan(config: Value, n: NC.NConfig)
    requires DictsUnique(config) && PN.Normalize(config) == Ok(n) && PO.PlanInputs(config).Ok?
    requires PV.SchemaMessages(config) == Ok([]) && HeadersTruthy(PO.PlanInputs(config).value.tabs)
    ensures TT.Selectors(n.tabs) == NC.InputStrings(PO.PlanInputs(config).value.starting, n.caseSensitive)
  {
    var plan := PO.PlanInputs(config).value;
    HeadersCountedOf(config);
    NormalizedTabsOf(config);
    SelectorsAgree(plan.tabs, n.tabs, n.caseSensitive);
    StartingOfPlan(config);
  }

  /** In every layout the starting choices are the truthy headers of the tabs. */
  lemma StartingOfPlan(config: Value)
    requires PV.SchemaMessages(config) == Ok([]) && PO.PlanInputs(config).Ok?
    ensures var plan := PO.PlanInputs(config).value;
      PO.TruthyGets(plan.tabs, "tab_header_input") == Ok(plan.starting)
  {
    var plan := PO.PlanInputs(config).value;
    PlanFields(config);
    if plan.layout != PV.Multiple {
      SchemaCleanTabs(config);
      TruthyGetsAbsent(plan.tabs, "tab_header_input");
    }
  }

  // ---------------------------------------------------------------------
  // When the two see the same tokens

  /** Every tab header present is truthy, so the validator counts every header the menu will use as a selector. */
  predicate HeadersTruthy(tabs: seq<Value>) {
    forall i :: 0 <= i < |tabs| && tabs[i].VDict? && Lookup(tabs[i].entries, "tab_header_input").Some? ==>
      Truthy(Lookup(tabs[i].entries, "tab_header_input").value)
  }

  predicate ItemStringInputs(item: Value) {
    PV.Children(item, "item_inputs").Ok? ==> forall e :: e in PV.Children(item, "item_inputs").value ==> e.VStr?
  }

  predicate TabStringTokens(tab: Value) {
    && (tab.VDict? && Lookup(tab.entries, "tab_header_input").Some? ==> Lookup(tab.entries, "tab_header_input").value.VStr?)
    && (PV.Children(tab, "items").Ok? ==>
          forall q :: 0 <= q < |PV.Children(tab, "items").value| ==> ItemStringInputs(PV.Children(tab, "items").value[q]))
  }

  /** Every tab header and every item input is a string, so `str()` changes none of them. */
  predicate StringTokens(tabs: seq<Value>) {
    forall i :: 0 <= i < |tabs| ==> TabStringTokens(tabs[i])
  }

  /**
   * The validator and the normalizer see the same tokens: the configuration
   * is not case sensitive (both then compare `str().lower()`) and no tab
   * header is falsy, or every header and input is a string.
   */
  predicate SameTokens(config: Value) {
    && config.VDict?
    && var tabs := ConfigTabList(config);
       || (!Truthy(DictGet(config, "case_sensitive", VBool(false)).value) && HeadersTruthy(tabs))
       || StringTokens(tabs)
  }

  /** A string header that passes the tab schema is truthy. */
  lemma StringHeadersTruthy(multiple: bool, tabs: seq<Value>)
    requires StringTokens(tabs) && forall i :: 0 <= i < |tabs| ==> TabShaped(multiple, tabs[i])
    ensures HeadersTruthy(tabs)
  {
    forall i | 0 <= i < |tabs| && tabs[i].VDict? && Lookup(tabs[i].entries, "tab_header_input").Some?
      ensures Truthy(Lookup(tabs[i].entries, "tab_header_input").value)
    {
      assert TabShaped(multiple, tabs[i]) && TabStringTokens(tabs[i]);
    }
  }

  /** With string tokens, the starting choices are strings. */
  lemma StartingStrings(tabs: seq<Value>)
    requires StringTokens(tabs) && PO.TruthyGets(tabs, "tab_header_input").Ok?
    ensures forall v :: v in PO.TruthyGets(tabs, "tab_header_input").value ==> v.VStr?
  {
    PO.TruthyGetsMembers(tabs, "tab_header_input");
    forall v | v in PO.TruthyGets(tabs, "tab_header_input").value ensures v.VStr? {
      var k :| 0 <= k < |tabs| && DictGet(tabs[k], "tab_header_input", VNone) == Ok(v) && Truthy(v);
      assert TabStringTokens(tabs[k]);
    }
  }

  /** With string tokens, a tab's gathered inputs are strings. */
  lemma InputsStrings(tab: Value)
    requires TabStringTokens(tab) && PV.Children(tab, "items").Ok? && PO.TabInputs(PV.Children(tab, "items").value).Ok?
    ensures forall v :: v in PO.TabInputs(PV.Children(tab, "items").value).value ==> v.VStr?
  {
    var items := PV.Children(tab, "items").value;
    PO.TabInputsMembers(items);
    forall v | v in PO.TabInputs(items).value ensures v.VStr? {
      var k :| 0 <= k < |items| && PV.Children(items[k], "item_inputs").Ok? && v in PV.Children(items[k], "item_inputs").value;
      assert ItemStringInputs(items[k]);
    }
  }

  /** The model values of some strings. */
  function AsValues(ss: seq<string>): seq<Value> {
    seq(|ss|, k requires 0 <= k < |ss| => VStr(ss[k]))
  }

  /** When both see the same tokens, the validator's candidates are the normalizer's strings. */
  lemma ChoicesAsStrings(choices: seq<Value>, cs: Value)
    requires !Truthy(cs) || forall v :: v in choices ==> v.VStr?
    ensures (if Truthy(cs) then choices else PO.LowerAll(choices)) == AsValues(NC.InputStrings(choices, cs))
  {
    if Truthy(cs) {
      assert forall k :: 0 <= k < |choices| ==> choices[k] in choices;
    }
  }

  predicate Unrepeated(ss: seq<string>) {
    forall i, j :: 0 <= i < j < |ss| ==> ss[i] != ss[j]
  }

  /** Strings that the validator's counter finds no repeat among are pairwise different. */
  lemma UnrepeatedStrings(ss: seq<string>)
    requires C.NoDuplicates(AsValues(ss))
    ensures Unrepeated(ss)
  {
    forall i, j | 0 <= i < j < |ss| ensures ss[i] != ss[j] {
      assert !C.PyEq(AsValues(ss)[i], AsValues(ss)[j]);
    }
  }

  lemma UnrepeatedSplit(a: seq<string>, b: seq<string>)
    requires Unrepeated(a + b)
    ensures Unrepeated(a) && Unrepeated(b)
    ensures forall x :: x in a ==> x !in b
  {
    forall x | x in a ensures x !in b {
      var i :| 0 <= i < |a| && a[i] == x;
      forall j | 0 <= j < |b| ensures b[j] != x {
        assert (a + b)[i] == x && (a + b)[|a| + j] == b[j];
      }
    }
    forall i, j | 0 <= i < j < |b| ensures b[i] != b[j] {
      assert (a + b)[|a| + i] == b[i] && (a + b)[|a| + j] == b[j];
    }
    forall i, j | 0 <= i < j < |a| ensures a[i] != a[j] {
      assert (a + b)[i] == a[i] && (a + b)[j] == a[j];
    }
  }

  lemma {:induction false} FlatInputsMember(items: seq<NC.NItem>, q: nat, x: string)
    requires q < |items|
    ensures x in TT.InputsOf(items[q]) ==> x in FlatInputs(items)
    decreases q
  {
    if q > 0 {
      FlatInputsMember(items[1..], q - 1, x);
    }
  }

  lemma {:induction false} FlatInputsApart(items: seq<NC.NItem>, q1: nat, q2: nat, x: string)
    requires Unrepeated(FlatInputs(items)) && q1 < q2 < |items| && x in TT.InputsOf(items[q1])
    ensures x !in TT.InputsOf(items[q2])
    decreases q1
  {
    UnrepeatedSplit(TT.InputsOf(items[0]), FlatInputs(items[1..]));
    if q1 == 0 {
      FlatInputsMember(items[1..], q2 - 1, x);
    } else {
      FlatInputsApart(items[1..], q1 - 1, q2 - 1, x);
    }
  }

  /** Selectors and inputs that are all pairwise different write no key of the table twice. */
  lemma NoCollisionOf(sel: seq<string>, items: seq<NC.NItem>)
    requires Unrepeated(sel + FlatInputs(items))
    ensures TT.NoCollision(sel, items)
  {
    UnrepeatedSplit(sel, FlatInputs(items));
    forall k, q | 0 <= k < |sel| && 0 <= q < |items| ensures sel[k] !in TT.InputsOf(items[q]) {
      FlatInputsMember(items, q, sel[k]);
    }
    forall q1, q2, x | 0 <= q1 < q2 < |items| && x in TT.InputsOf(items[q1]) ensures x !in TT.InputsOf(items[q2]) {
      FlatInputsApart(items, q1, q2, x);
    }
  }

  /**
   * A tab the input check passed: its starting choices and its inputs,
   * stringified and re-cased as the normalizer does, are pairwise different.
   */
  lemma TabUnrepeated(starting: seq<Value>, tab: Value, cs: Value, ncs: Value)
    requires Truthy(cs) == Truthy(ncs)
    requires PO.TabChoices(starting, tab, cs).Ok? && C.NoDuplicates(PO.TabChoices(starting, tab, cs).value)
    requires tab.VDict? && PV.Children(tab, "items").Ok?
    requires Truthy(cs) ==> (forall v :: v in starting ==> v.VStr?) && TabStringTokens(tab)
    ensures PO.TabInputs(PV.Children(tab, "items").value).Ok?
    ensures Unrepeated(NC.InputStrings(starting, ncs) + NC.InputStrings(PO.TabInputs(PV.Children(tab, "items").value).value, ncs))
  {
    var inputs := PO.TabInputs(PV.Children(tab, "items").value).value;
    var choices := starting + inputs;
    assert PO.TabChoices(starting, tab, cs).value == (if Truthy(cs) then choices else PO.LowerAll(choices));
    if Truthy(cs) {
      InputsStrings(tab);
    }
    ChoicesAsStrings(choices, cs);
    UnrepeatedStrings(NC.InputStrings(choices, cs));
    InputStringsAppend(starting, inputs, cs);
    InputStringsFlag(starting, cs, ncs);
    InputStringsFlag(inputs, cs, ncs);
  }

  // ---------------------------------------------------------------------
  // The promise

  /**
   * In a configuration that `validate_all` accepts and `normalize` then
   * rebuilds, when the two see the same tokens: every tab has items, each
   * with inputs and a return value, and no key of the tab's table is written
   * twice (the selectors are distinct, no selector is an input, no two items
   * share an input).
   */
  lemma ValidatedTabUnambiguous(config: Value, n: NC.NConfig, t: nat)
    requires DictsUnique(config) && VA.ValidateAllOutcome(config) == Ok(()) && PN.Normalize(config) == Ok(n)
    requires SameTokens(config) && t < |n.tabs|
    ensures n.tabs[t].items.Some?
    ensures TT.ItemsComplete(n.tabs[t].items.value, 0)
    ensures TT.NoCollision(TT.Selectors(n.tabs), n.tabs[t].items.value)
  {
    AcceptedChecks(config);
    InputsChecked(config, t);
    var plan := PO.PlanInputs(config).value;
    PlanFields(config);
    SchemaCleanTabs(config);
    NormalizedTabsOf(config);
    CaseFlagsAgree(config);
    var multiple := plan.layout == PV.Multiple;
    if StringTokens(plan.tabs) {
      StringHeadersTruthy(multiple, plan.tabs);
    }
    SelectorsOfPlan(config, n);
    if Truthy(plan.caseSensitive) {
      assert StringTokens(plan.tabs);
      if multiple {
        StartingStrings(plan.tabs);
      }
    }
    CheckedTab(plan.starting, plan.tabs[t], plan.caseSensitive, multiple, n.tabs[t], n.caseSensitive, TT.Selectors(n.tabs));
  }

  /** `validate_all` accepts only a configuration whose schema check and input check have no message. */
  lemma AcceptedChecks(config: Value)
    requires VA.ValidateAllOutcome(config) == Ok(())
    ensures PV.SchemaMessages(config) == Ok([]) && PO.InputOverlapMessages(config) == Ok([])
  {
    var a := PV.SchemaMessages(config);
    var b := PO.InputOverlapMessages(config);
    var c := PO.ReturnOverlapMessages(config);
    assert a.Ok? && b.Ok? && c.Ok?;
    assert VA.AllMessages(config) == Ok(a.value + b.value + c.value);
    assert |a.value + b.value + c.value| == |a.value| + |b.value| + |c.value|;
  }

  /** One checked tab, normalized: complete items, and no key of its table written twice. */
  lemma CheckedTab(starting: seq<Value>, tab: Value, cs: Value, multiple: bool, nt: NC.NTab, ncs: Value, sel: seq<string>)
    requires DictsUnique(tab) && TabShaped(multiple, tab) && NC.NormalizeTab(PN.Keys, ncs, tab) == Ok(nt)
    requires Truthy(cs) == Truthy(ncs)
    requires PO.TabChoices(starting, tab, cs).Ok? && C.NoDuplicates(PO.TabChoices(starting, tab, cs).value)
    requires Truthy(cs) ==> (forall v :: v in starting ==> v.VStr?) && TabStringTokens(tab)
    requires sel == NC.InputStrings(starting, ncs)
    ensures nt.items.Some? && TT.ItemsComplete(nt.items.value, 0)
    ensures TT.NoCollision(sel, nt.items.value)
  {
    TabUnrepeated(starting, tab, cs, ncs);
    TabItemsAgree(multiple, tab, nt, ncs);
    NoCollisionOf(sel, nt.items.value);
  }

  /**
   * What the menu does with a validated configuration whose two readings
   * agree: every tab's table is built, the selector at position `i` changes
   * to tab `i`, and an item's input returns that item's value.
   */
  lemma ValidatedInputsResolve(config: Value, n: NC.NConfig, t: nat)
    requires DictsUnique(config) && VA.ValidateAllOutcome(config) == Ok(()) && PN.Normalize(config) == Ok(n)
    requires SameTokens(config) && t < |n.tabs|
    ensures n.tabs[t].items.Some? && TT.ItemsComplete(n.tabs[t].items.value, 0)
    ensures TT.TabTableOf(n.tabs[t], TT.Selectors(n.tabs)).Ok?
    ensures var sel := TT.Selectors(n.tabs);
      var table := TT.TabTableOf(n.tabs[t], sel).value;
      var items := n.tabs[t].items.value;
      && (forall i :: 0 <= i < |sel| ==> TT.Process(table, sel[i]) == TT.ChangeTab(i))
      && (forall q, x :: 0 <= q < |items| && x in TT.InputsOf(items[q]) ==>
            TT.Process(table, x) == TT.Return(items[q].returnValue.value))
  {
    ValidatedTabUnambiguous(config, n, t);
    TT.ProcessWithoutCollision(TT.Selectors(n.tabs), n.tabs[t].items.value);
  }

  /** In the multi-tab layout every tab of a schema-clean configuration has a selector, and selector `i` is tab `i`'s. */
  lemma ValidatedSelectorsNameTabs(config: Value, n: NC.NConfig)
    requires DictsUnique(config) && VA.ValidateAllOutcome(config) == Ok(()) && PN.Normalize(config) == Ok(n)
    requires PV.DetermineLayout(config) == Ok(PV.Multiple)
    ensures |TT.Selectors(n.tabs)| == |n.tabs|
    ensures forall i :: 0 <= i < |n.tabs| ==> n.tabs[i].selector.Some? && TT.Selectors(n.tabs)[i] == n.tabs[i].selector.value
  {
    AcceptedChecks(config);
    InputsChecked(config, 0);
    var plan := PO.PlanInputs(config).value;
    PlanFields(config);
    SchemaCleanTabs(config);
    NormalizedTabsOf(config);
    forall i | 0 <= i < |n.tabs| ensures n.tabs[i].selector.Some? && n.tabs[i].selector.value != "" {
      HeadedTabSelects(plan.tabs[i], n.tabs[i], n.caseSensitive);
    }
    TT.SelectorsAllOrNone(n.tabs);
  }

  /** A tab with a non-empty header keeps it, stringified and re-cased, as its selector. */
  lemma HeadedTabSelects(tab: Value, nt: NC.NTab, cs: Value)
    requires DictsUnique(tab) && TabShaped(true, tab) && NC.NormalizeTab(PN.Keys, cs, tab) == Ok(nt)
    ensures nt.selector.Some? && nt.selector.value != ""
  {
    PN.KeysDistinct();
    NC.TabMeaning(PN.Keys, cs, tab);
    var h := Lookup(tab.entries, "tab_header_input").value;
    assert nt.selector == Some(NC.StrCase(h, true, cs));
  }
}
