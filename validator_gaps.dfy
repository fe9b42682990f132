/**
 * Two configurations that pytabby's `validate_all` accepts although the menu
 * built from them breaks the promise of `_validate_no_input_value_overlap`
 * (src/pytabby/validators.py): some input does not lead where its item says.
 *
 * The validator compares the raw tokens and takes only truthy tab headers as
 * selectors; the normalizer stringifies every token and keeps every header.
 *
 *  - `MixedTokens` is case sensitive and lists the integer 1 in one item and
 *    the string "1" in another: the validator sees two different values, the
 *    menu sees the input "1" twice, and the later item wins.
 *  - `FalsyHeader` has a tab whose header is the integer 0: the validator
 *    skips it as falsy, the menu makes it the selector "0", which the same
 *    tab also lists as an item input; the item wins over the tab change.
 */
module ValidatorGaps {
  import opened PyValue
  import SL = SchemaLib
  import C = Counter
  import PV = PytabbyValidators
  import PO = PytabbyOverlap
  import VA = PytabbyValidateAll
  import NC = NormalizerCore
  import PN = PytabbyNormalizer
  import TT = TabTable
  import VT = ValidatedTables

  // ---------------------------------------------------------------------
  // Building blocks

  /** An item with one input token. */
  function Item(shown: string, input: Value, ret: string): Value {
    VDict([("item_choice_displayed", VStr(shown)), ("item_inputs", VList([input])), ("item_returns", VStr(ret))])
  }

  /** A tab of the multi-tab layout. */
  function HeadedTab(header: Value, items: seq<Value>): Value {
    VDict([("tab_header_input", header), ("items", VList(items))])
  }

  /** What `Item` normalizes to. */
  function NormalItem(shown: string, input: string, ret: string): NC.NItem {
    NC.NItem(Some(shown), None, Some(ret), Some([input]))
  }

  /** A three-entry dict with distinct keys, looked up. */
  lemma LookupThree(a: (string, Value), b: (string, Value), c: (string, Value), k: string)
    ensures Lookup([a, b, c], k) ==
      if a.0 == k then Some(a.1) else if b.0 == k then Some(b.1) else if c.0 == k then Some(c.1) else None
  {
    assert [a, b, c][1..] == [b, c];
    LookupTwo(b, c, k);
  }

  /** A two-entry dict, looked up. */
  lemma LookupTwo(a: (string, Value), b: (string, Value), k: string)
    ensures Lookup([a, b], k) == if a.0 == k then Some(a.1) else if b.0 == k then Some(b.1) else None
  {
    assert [a, b][1..] == [b];
    assert [b][1..] == [];
    assert Lookup([b], k) == if b.0 == k then Some(b.1) else None;
  }

  lemma ItemLookups(shown: string, input: Value, ret: string)
    ensures var es := Item(shown, input, ret).entries;
      && Lookup(es, "item_choice_displayed") == Some(VStr(shown))
      && Lookup(es, "item_inputs") == Some(VList([input]))
      && Lookup(es, "item_returns") == Some(VStr(ret))
      && Lookup(es, "item_description") == None
      && UniqueKeys(es)
  {
    var es := Item(shown, input, ret).entries;
    LookupThree(es[0], es[1], es[2], "item_choice_displayed");
    LookupThree(es[0], es[1], es[2], "item_inputs");
    LookupThree(es[0], es[1], es[2], "item_returns");
    LookupThree(es[0], es[1], es[2], "item_description");
  }

  lemma ItemInputs(shown: string, input: Value, ret: string)
    ensures HasKey(Item(shown, input, ret), "item_inputs") == Ok(true)
    ensures PV.Children(Item(shown, input, ret), "item_inputs") == Ok([input])
    ensures NC.ItemInputs(PN.Keys, Item(shown, input, ret)) == Ok([input])
  {
    ItemLookups(shown, input, ret);
  }

  lemma MapFromOne<T, U>(f: T -> Result<U>, x: T, y: U)
    requires f(x) == Ok(y)
    ensures MapFrom(f, [x], 0) == Ok([y])
  {
    assert MapFrom(f, [x], 1) == Ok([]);
    assert [x][0] == x;
    assert [y] + [] == [y];
  }

  lemma MapFromTwo<T, U>(f: T -> Result<U>, x1: T, x2: T, y1: U, y2: U)
    requires f(x1) == Ok(y1) && f(x2) == Ok(y2)
    ensures MapFrom(f, [x1, x2], 0) == Ok([y1, y2])
  {
    assert MapFrom(f, [x1, x2], 2) == Ok([]);
    assert [x1, x2][1] == x2 && [x1, x2][0] == x1;
    assert [y2] + [] == [y2];
    assert MapFrom(f, [x1, x2], 1) == Ok([y2]);
    assert [y1] + [y2] == [y1, y2];
  }

  // ---------------------------------------------------------------------
  // The schema check passes

  /** An item the schema walk passes without a message. */
  predicate ItemChecked(item: Value) {
    && PV.NodeMessage(PV.ItemSchema, item).None?
    && PV.Children(item, "item_inputs").Ok?
    && forall k :: 0 <= k < |PV.Children(item, "item_inputs").value| ==>
         PV.NodeMessage(PV.EntrySchema, PV.Children(item, "item_inputs").value[k]).None?
  }

  /** A dict conforms when each of its entries is allowed and every required key is among them. */
  lemma ConformsBy(keys: seq<SL.KeySpec>, es: seq<(string, Value)>)
    requires forall i :: 0 <= i < |es| ==> SL.EntryOk(keys, es[i])
    requires forall i :: 0 <= i < |keys| && keys[i].kind == SL.Required ==> exists j :: 0 <= j < |es| && es[j].0 == keys[i].name
    ensures SL.Conforms(keys, VDict(es))
  {
    forall ks | ks in keys && ks.kind == SL.Required ensures ks.name in KeysOf(es) {
      var i :| 0 <= i < |keys| && keys[i] == ks;
      var j :| 0 <= j < |es| && es[j].0 == keys[i].name;
      assert KeysOf(es)[j] == ks.name;
    }
  }

  lemma ItemConforms(shown: string, input: Value, ret: string)
    requires |shown| > 0 && |ret| > 0
    ensures SL.Conforms(PV.ItemSchema.keys, Item(shown, input, ret))
  {
    var keys := PV.ItemSchema.keys;
    var es := Item(shown, input, ret).entries;
    assert SL.EntryOk(keys, es[0]) && SL.EntryOk(keys, es[1]) && SL.EntryOk(keys, es[2]);
    assert es[0].0 == keys[0].name && es[1].0 == keys[2].name && es[2].0 == keys[3].name;
    ConformsBy(keys, es);
  }

  lemma ItemPasses(shown: string, input: Value, ret: string)
    requires |shown| > 0 && |ret| > 0 && !input.VNone? && |Str(input)| > 0
    ensures ItemChecked(Item(shown, input, ret))
  {
    ItemInputs(shown, input, ret);
    ItemConforms(shown, input, ret);
    assert SL.Passes(SL.Token, input);
  }

  lemma {:induction false} EntriesClean(ti: nat, j: nat, es: seq<Value>, k: nat)
    requires forall m :: k <= m < |es| ==> PV.NodeMessage(PV.EntrySchema, es[m]).None?
    ensures PV.EntriesWalk(ti, j, es, k) == []
    decreases |es| - k
  {
    if k < |es| {
      EntriesClean(ti, j, es, k + 1);
    }
  }

  lemma {:induction false} ItemsClean(ti: nat, items: seq<Value>, j: nat)
    requires forall q :: j <= q < |items| ==> ItemChecked(items[q])
    ensures VT.Clean(PV.ItemsWalk(ti, items, j))
    decreases |items| - j
  {
    if j < |items| {
      ItemsClean(ti, items, j + 1);
      EntriesClean(ti, j, PV.Children(items[j], "item_inputs").value, 0);
    }
  }

  /** A multi-tab tab the schema walk passes without a message. */
  predicate TabChecked(tab: Value) {
    && PV.NodeMessage(PV.TabMultiple, tab).None?
    && PV.Children(tab, "items").Ok?
    && forall q :: 0 <= q < |PV.Children(tab, "items").value| ==> ItemChecked(PV.Children(tab, "items").value[q])
  }

  lemma HeadedTabConforms(header: Value, items: seq<Value>)
    requires !header.VNone? && |Str(header)| > 0 && |items| > 0
    ensures SL.Conforms(PV.TabMultiple.keys, HeadedTab(header, items))
  {
    var keys := PV.TabMultiple.keys;
    var es := HeadedTab(header, items).entries;
    assert SL.FindSpec(keys, es[0].0) == Some(keys[0]) && SL.Passes(keys[0].check, header);
    assert SL.FindSpec(keys, es[1].0) == Some(keys[3]) && SL.Passes(keys[3].check, VList(items));
    assert SL.EntryOk(keys, es[0]) && SL.EntryOk(keys, es[1]);
    assert es[0].0 == keys[0].name && es[1].0 == keys[3].name;
    ConformsBy(keys, es);
  }

  lemma HeadedTabPasses(header: Value, items: seq<Value>)
    requires !header.VNone? && |Str(header)| > 0 && |items| > 0
    requires forall q :: 0 <= q < |items| ==> ItemChecked(items[q])
    ensures TabChecked(HeadedTab(header, items))
  {
    var tab := HeadedTab(header, items);
    HeadedTabConforms(header, items);
    LookupTwo(tab.entries[0], tab.entries[1], "items");
  }

  lemma {:induction false} TabsClean(tabs: seq<Value>, i: nat)
    requires forall k :: i <= k < |tabs| ==> TabChecked(tabs[k])
    ensures VT.Clean(PV.TabsWalk(tabs, i))
    decreases |tabs| - i
  {
    if i < |tabs| {
      TabsClean(tabs, i + 1);
      ItemsClean(i, PV.Children(tabs[i], "items").value, 0);
    }
  }

  // ---------------------------------------------------------------------
  // The overlap checks pass

  lemma TabInputsCons(x: Value, rest: seq<Value>, es: seq<Value>)
    requires HasKey(x, "item_inputs") == Ok(true) && PV.Children(x, "item_inputs") == Ok(es)
    requires PO.TabInputs(rest).Ok?
    ensures PO.TabInputs([x] + rest) == Ok(es + PO.TabInputs(rest).value)
  {
    assert ([x] + rest)[1..] == rest;
  }

  lemma TabInputsOne(x: Value, es: seq<Value>)
    requires HasKey(x, "item_inputs") == Ok(true) && PV.Children(x, "item_inputs") == Ok(es)
    ensures PO.TabInputs([x]) == Ok(es)
  {
    TabInputsCons(x, [], es);
    assert [x] + [] == [x];
    assert es + [] == es;
  }

  lemma ChoicesOfTab(starting: seq<Value>, tab: Value, items: seq<Value>, inputs: seq<Value>, cs: Value)
    requires tab.VDict? && Lookup(tab.entries, "items") == Some(VList(items)) && PO.TabInputs(items) == Ok(inputs)
    ensures PO.TabChoices(starting, tab, cs) ==
      Ok(if Truthy(cs) then starting + inputs else PO.LowerAll(starting + inputs))
  {
  }

  /** Two hashable values Python does not consider equal are no repetition. */
  lemma PairApart(x: Value, y: Value)
    requires C.Hashable(x) && C.Hashable(y) && !C.PyEq(x, y)
    ensures (forall v :: v in [x, y] ==> C.Hashable(v)) && C.NoDuplicates([x, y])
  {
  }

  lemma OneApart(x: Value)
    requires C.Hashable(x)
    ensures (forall v :: v in [x] ==> C.Hashable(v)) && C.NoDuplicates([x])
  {
  }

  lemma InputsApart(layout: PV.Layout, starting: seq<Value>, cs: Value, i: nat, tab: Value, choices: seq<Value>)
    requires PO.TabChoices(starting, tab, cs) == Ok(choices)
    requires (forall v :: v in choices ==> C.Hashable(v)) && C.NoDuplicates(choices)
    ensures PO.InputCheckTab(layout, starting, cs, i, tab) == Ok(None)
  {
    PO.InputCheckTabMeaning(layout, starting, cs, i, tab, choices);
  }

  /** A tab with `items` whose inputs together with the starting ones repeat nothing is quiet. */
  lemma TabQuiet(layout: PV.Layout, starting: seq<Value>, cs: Value, i: nat, tab: Value, items: seq<Value>, inputs: seq<Value>)
    requires tab.VDict? && Lookup(tab.entries, "items") == Some(VList(items)) && PO.TabInputs(items) == Ok(inputs)
    requires Truthy(cs)
    requires (forall v :: v in starting + inputs ==> C.Hashable(v)) && C.NoDuplicates(starting + inputs)
    ensures PO.InputCheckTab(layout, starting, cs, i, tab) == Ok(None)
  {
    ChoicesOfTab(starting, tab, items, inputs, cs);
    InputsApart(layout, starting, cs, i, tab, starting + inputs);
  }

  lemma ReturnsApart(i: nat, tab: Value, items: seq<Value>, rets: seq<Value>)
    requires tab.VDict? && Lookup(tab.entries, "items") == Some(VList(items))
    requires PO.TruthyGets(items, "item_returns") == Ok(rets)
    requires (forall v :: v in rets ==> C.Hashable(v)) && C.NoDuplicates(rets)
    ensures PO.ReturnCheckTab(i, tab) == Ok(None)
  {
    assert PO.TabReturnValues(tab) == Ok(rets);
    PO.ReturnCheckTabMeaning(i, tab, rets);
  }

  lemma ItemReturns(shown: string, input: Value, ret: string)
    ensures DictGet(Item(shown, input, ret), "item_returns", VNone) == Ok(VStr(ret))
  {
    ItemLookups(shown, input, ret);
  }

  lemma TruthyGetsOne(x: Value, v: Value, key: string)
    requires DictGet(x, key, VNone) == Ok(v) && Truthy(v)
    ensures PO.TruthyGets([x], key) == Ok([v])
  {
    assert [x][1..] == [] && [x][0] == x;
    assert [v] + [] == [v];
  }

  lemma TruthyGetsTwo(x1: Value, x2: Value, v1: Value, v2: Value, key: string)
    requires DictGet(x1, key, VNone) == Ok(v1) && Truthy(v1)
    requires DictGet(x2, key, VNone) == Ok(v2) && Truthy(v2)
    ensures PO.TruthyGets([x1, x2], key) == Ok([v1, v2])
  {
    TruthyGetsOne(x2, v2, key);
    assert [x1, x2][1..] == [x2] && [x1, x2][0] == x1;
    assert [v1] + [v2] == [v1, v2];
  }

  /** With all three checks silent, `validate_all` accepts. */
  lemma Accepted(config: Value)
    requires PV.SchemaMessages(config) == Ok([]) && PO.InputOverlapMessages(config) == Ok([])
    requires PO.ReturnOverlapMessages(config) == Ok([])
    ensures VA.ValidateAllOutcome(config) == Ok(())
  {
    assert VA.AllMessages(config) == Ok([] + [] + []);
  }

  /** No tab reports a repeated input, so the input check reports nothing. */
  lemma InputsQuiet(config: Value, plan: PO.InputPlan)
    requires PO.PlanInputs(config) == Ok(plan)
    requires forall k :: 0 <= k < |plan.tabs| ==>
      PO.InputCheckTab(plan.layout, plan.starting, plan.caseSensitive, k, plan.tabs[k]) == Ok(None)
    ensures PO.InputOverlapMessages(config) == Ok([])
  {
    PO.GatherFromEmpty(PO.InputCheck(plan.layout, plan.starting, plan.caseSensitive), plan.tabs, 0);
  }

  /** No tab reports a repeated return value, so the return check reports nothing. */
  lemma ReturnsQuiet(config: Value, tabs: seq<Value>)
    requires PO.ConfigTabs(config) == Ok(VList(tabs))
    requires forall k :: 0 <= k < |tabs| ==> PO.ReturnCheckTab(k, tabs[k]) == Ok(None)
    ensures PO.ReturnOverlapMessages(config) == Ok([])
  {
    PO.GatherFromEmpty(PO.ReturnCheckTab, tabs, 0);
  }

  // ---------------------------------------------------------------------
  // The two layouts the counterexamples use

  /** `{"case_sensitive": cs, "items": items}`. */
  function SingleConfig(cs: Value, items: seq<Value>): Value {
    VDict([("case_sensitive", cs), ("items", VList(items))])
  }

  /** `{"tabs": tabs}`. */
  function MultiConfig(tabs: seq<Value>): Value {
    VDict([("tabs", VList(tabs))])
  }

  lemma SingleLookups(cs: Value, items: seq<Value>)
    ensures var es := SingleConfig(cs, items).entries;
      && Lookup(es, "tabs") == None && Lookup(es, "items") == Some(VList(items))
      && Lookup(es, "case_sensitive") == Some(cs) && Lookup(es, "screen_width") == None
      && UniqueKeys(es)
  {
    var es := SingleConfig(cs, items).entries;
    LookupTwo(es[0], es[1], "tabs");
    LookupTwo(es[0], es[1], "items");
    LookupTwo(es[0], es[1], "case_sensitive");
    LookupTwo(es[0], es[1], "screen_width");
  }

  lemma MultiLookups(tabs: seq<Value>)
    ensures var es := MultiConfig(tabs).entries;
      && Lookup(es, "tabs") == Some(VList(tabs)) && Lookup(es, "items") == None
      && Lookup(es, "case_sensitive") == None && Lookup(es, "screen_width") == None
  {
  }

  lemma SingleOuterConforms(cs: Value, items: seq<Value>)
    requires cs.VBool? && |items| > 0
    ensures PV.NodeMessage(PV.OuterWithoutTabs, SingleConfig(cs, items)).None?
  {
    var config := SingleConfig(cs, items);
    var keys := PV.OuterWithoutTabs.keys;
    assert SL.EntryOk(keys, config.entries[0]) && SL.EntryOk(keys, config.entries[1]);
    assert config.entries[1].0 == keys[2].name;
    ConformsBy(keys, config.entries);
  }

  lemma SingleSchemaClean(cs: Value, items: seq<Value>)
    requires cs.VBool? && |items| > 0
    requires forall q :: 0 <= q < |items| ==> ItemChecked(items[q])
    ensures PV.SchemaMessages(SingleConfig(cs, items)) == Ok([])
  {
    var config := SingleConfig(cs, items);
    SingleLookups(cs, items);
    SingleOuterConforms(cs, items);
    assert PV.DetermineLayout(config) == Ok(PV.SingleWithoutKey);
    assert PV.Children(config, "items") == Ok(items);
    ItemsClean(0, items, 0);
    VT.CleanRender(PV.SingleWithoutKey, PV.SchemaWalk(PV.SingleWithoutKey, config));
  }

  lemma MultiOuterConforms(tabs: seq<Value>)
    requires |tabs| > 1
    ensures PV.NodeMessage(PV.OuterWithTabs, MultiConfig(tabs)).None?
  {
    var config := MultiConfig(tabs);
    var keys := PV.OuterWithTabs.keys;
    assert SL.EntryOk(keys, config.entries[0]);
    assert config.entries[0].0 == keys[2].name;
    ConformsBy(keys, config.entries);
  }

  lemma MultiSchemaClean(tabs: seq<Value>)
    requires |tabs| > 1
    requires forall k :: 0 <= k < |tabs| ==> TabChecked(tabs[k])
    ensures PV.SchemaMessages(MultiConfig(tabs)) == Ok([])
  {
    var config := MultiConfig(tabs);
    MultiLookups(tabs);
    MultiOuterConforms(tabs);
    TabsClean(tabs, 0);
    VT.CleanRender(PV.Multiple, PV.SchemaWalk(PV.Multiple, config));
  }

  lemma SinglePlan(cs: Value, items: seq<Value>)
    ensures PO.PlanInputs(SingleConfig(cs, items))
      == Ok(PO.InputPlan(cs, PV.SingleWithoutKey, [VDict([("items", VList(items))])], []))
    ensures PO.ConfigTabs(SingleConfig(cs, items)) == Ok(VList([VDict([("items", VList(items))])]))
  {
    SingleLookups(cs, items);
  }

  lemma MultiPlan(tabs: seq<Value>, starting: seq<Value>)
    requires |tabs| > 1 && PO.TruthyGets(tabs, "tab_header_input") == Ok(starting)
    ensures PO.PlanInputs(MultiConfig(tabs)) == Ok(PO.InputPlan(VBool(false), PV.Multiple, tabs, starting))
  {
    MultiLayout(tabs);
    MultiSettings(tabs);
  }

  /** A two-tab configuration whose tabs are each quiet has no input overlap. */
  lemma MultiInputsQuiet(t0: Value, t1: Value, starting: seq<Value>)
    requires PO.TruthyGets([t0, t1], "tab_header_input") == Ok(starting)
    requires PO.InputCheckTab(PV.Multiple, starting, VBool(false), 0, t0) == Ok(None)
    requires PO.InputCheckTab(PV.Multiple, starting, VBool(false), 1, t1) == Ok(None)
    ensures PO.InputOverlapMessages(MultiConfig([t0, t1])) == Ok([])
  {
    MultiPlan([t0, t1], starting);
    var check := PO.InputCheck(PV.Multiple, starting, VBool(false));
    assert check(0, t0) == Ok(None) && check(1, t1) == Ok(None);
    GatherTwoQuiet(check, t0, t1);
  }

  /** The loop over two tabs that each report nothing reports nothing. */
  lemma GatherTwoQuiet(check: (nat, Value) -> Result<Option<string>>, t0: Value, t1: Value)
    requires check(0, t0) == Ok(None) && check(1, t1) == Ok(None)
    ensures PO.GatherFrom(check, [t0, t1], 0) == Ok([])
  {
    assert PO.GatherFrom(check, [t0, t1], 2) == Ok([]);
    assert PO.GatherFrom(check, [t0, t1], 1) == Ok([]);
  }

  /** A one-tab configuration whose tab repeats no return value has no return overlap. */
  lemma SingleReturnsQuiet(cs: Value, items: seq<Value>)
    requires PO.ReturnCheckTab(0, VDict([("items", VList(items))])) == Ok(None)
    ensures PO.ReturnOverlapMessages(SingleConfig(cs, items)) == Ok([])
  {
    SinglePlan(cs, items);
    ReturnsQuiet(SingleConfig(cs, items), [VDict([("items", VList(items))])]);
  }

  lemma MultiSettings(tabs: seq<Value>)
    requires |tabs| > 1
    ensures DictGet(MultiConfig(tabs), "case_sensitive", VBool(false)) == Ok(VBool(false))
    ensures PO.ConfigTabs(MultiConfig(tabs)) == Ok(VList(tabs))
    ensures Iter(VList(tabs)) == Ok(tabs)
  {
    MultiLayout(tabs);
    MultiLookups(tabs);
  }

  lemma MultiLayout(tabs: seq<Value>)
    requires |tabs| > 1
    ensures PV.DetermineLayout(MultiConfig(tabs)) == Ok(PV.Multiple)
  {
    MultiLookups(tabs);
  }

  /** The tab the one-tab layout is folded into has only its items. */
  lemma ItemsOnlyTab(cs: Value, items: seq<Value>, nitems: seq<NC.NItem>)
    requires MapFrom(NC.ItemFn(PN.Keys, cs), items, 0) == Ok(nitems)
    ensures NC.NormalizeTab(PN.Keys, cs, VDict([("items", VList(items))])) == Ok(NC.NTab(None, None, None, Some(nitems)))
  {
    var tab := VDict([("items", VList(items))]);
    PN.KeysDistinct();
    NC.TabMeaning(PN.Keys, cs, tab);
    assert NC.TabItems(PN.Keys, cs, tab) == Ok(nitems);
  }

  /** The fold of the one-tab layout: one tab holding the items, and the settings kept. */
  lemma SingleFolded(cs: Value, items: seq<Value>)
    requires Truthy(cs)
    ensures NC.AddTabsKey(SingleConfig(cs, items).entries, PN.FoldAssertText).Ok?
    ensures var r := NC.AddTabsKey(SingleConfig(cs, items).entries, PN.FoldAssertText).value;
      && Lookup(r, "tabs") == Some(VList([VDict([("items", VList(items))])]))
      && PN.Setting(r, "case_sensitive", VBool(false)) == cs
      && PN.Setting(r, "screen_width", VInt(80)) == VInt(80)
  {
    var es := SingleConfig(cs, items).entries;
    SingleLookups(cs, items);
    NC.AddTabsKeyFolds(es, PN.FoldAssertText);
    NC.AddTabsKeyKeepsOthers(es, PN.FoldAssertText, "case_sensitive");
    NC.AddTabsKeyKeepsOthers(es, PN.FoldAssertText, "screen_width");
  }

  /** The walk over a `tabs` list of one tab. */
  lemma WalkOneTab(cs: Value, r: seq<(string, Value)>, tab: Value, ntab: NC.NTab)
    requires Lookup(r, "tabs") == Some(VList([tab])) && NC.NormalizeTab(PN.Keys, cs, tab) == Ok(ntab)
    ensures NC.WalkTabs(PN.Keys, cs, VDict(r)) == Ok([ntab])
  {
    MapFromOne(NC.TabFn(PN.Keys, cs), tab, ntab);
  }

  lemma SingleNormalized(cs: Value, items: seq<Value>, nitems: seq<NC.NItem>)
    requires Truthy(cs) && MapFrom(NC.ItemFn(PN.Keys, cs), items, 0) == Ok(nitems)
    ensures PN.Normalize(SingleConfig(cs, items)) == Ok(NC.NConfig(cs, VInt(80), [NC.NTab(None, None, None, Some(nitems))]))
  {
    SingleFolded(cs, items);
    ItemsOnlyTab(cs, items, nitems);
    var r := NC.AddTabsKey(SingleConfig(cs, items).entries, PN.FoldAssertText).value;
    WalkOneTab(cs, r, VDict([("items", VList(items))]), NC.NTab(None, None, None, Some(nitems)));
  }

  lemma MultiNormalized(tabs: seq<Value>, ntabs: seq<NC.NTab>)
    requires MapFrom(NC.TabFn(PN.Keys, VBool(false)), tabs, 0) == Ok(ntabs)
    ensures PN.Normalize(MultiConfig(tabs)) == Ok(NC.NConfig(VBool(false), VInt(80), ntabs))
  {
    MultiLookups(tabs);
  }

  // ---------------------------------------------------------------------
  // Case sensitive, with the integer 1 and the string "1"

  const MixedA: Value := Item("a", VInt(1), "first")
  const MixedB: Value := Item("b", VStr("1"), "second")
  const MixedTab: Value := VDict([("items", VList([MixedA, MixedB]))])
  const MixedTokens: Value := SingleConfig(VBool(true), [MixedA, MixedB])

  lemma OneIsDigit()
    ensures Str(VInt(1)) == "1"
  {
    assert NatToString(1) == [DigitChar(1)];
  }

  lemma BothChecked(a: Value, b: Value)
    requires ItemChecked(a) && ItemChecked(b)
    ensures forall q :: 0 <= q < |[a, b]| ==> ItemChecked([a, b][q])
  {
  }

  lemma MixedTokensSchema()
    ensures PV.SchemaMessages(MixedTokens) == Ok([])
  {
    OneIsDigit();
    SingleTwoPasses(VBool(true), "a", VInt(1), "first", "b", VStr("1"), "second");
  }

  /** A one-tab configuration of two passing items passes. */
  lemma SingleTwoPasses(cs: Value, sa: string, ia: Value, ra: string, sb: string, ib: Value, rb: string)
    requires cs.VBool?
    requires |sa| > 0 && |ra| > 0 && !ia.VNone? && |Str(ia)| > 0
    requires |sb| > 0 && |rb| > 0 && !ib.VNone? && |Str(ib)| > 0
    ensures PV.SchemaMessages(SingleConfig(cs, [Item(sa, ia, ra), Item(sb, ib, rb)])) == Ok([])
  {
    ItemPasses(sa, ia, ra);
    ItemPasses(sb, ib, rb);
    BothChecked(Item(sa, ia, ra), Item(sb, ib, rb));
    SingleSchemaClean(cs, [Item(sa, ia, ra), Item(sb, ib, rb)]);
  }

  lemma MixedTabInputs()
    ensures PO.TabInputs([MixedA, MixedB]) == Ok([VInt(1), VStr("1")])
  {
    ItemInputs("a", VInt(1), "first");
    ItemInputs("b", VStr("1"), "second");
    TabInputsOne(MixedB, [VStr("1")]);
    TabInputsCons(MixedA, [MixedB], [VInt(1)]);
    assert [MixedA] + [MixedB] == [MixedA, MixedB];
    assert [VInt(1)] + [VStr("1")] == [VInt(1), VStr("1")];
  }

  /** The validator sees 1 and "1" as different inputs. */
  lemma MixedTabQuiet()
    ensures PO.InputCheckTab(PV.SingleWithoutKey, [], VBool(true), 0, MixedTab) == Ok(None)
  {
    MixedTabInputs();
    assert Lookup(MixedTab.entries, "items") == Some(VList([MixedA, MixedB]));
    var inputs := [VInt(1), VStr("1")];
    assert [] + inputs == inputs;
    PairApart(VInt(1), VStr("1"));
    TabQuiet(PV.SingleWithoutKey, [], VBool(true), 0, MixedTab, [MixedA, MixedB], inputs);
  }

  lemma MixedTokensInputs()
    ensures PO.InputOverlapMessages(MixedTokens) == Ok([])
  {
    SinglePlan(VBool(true), [MixedA, MixedB]);
    MixedTabQuiet();
    InputsQuiet(MixedTokens, PO.InputPlan(VBool(true), PV.SingleWithoutKey, [MixedTab], []));
  }

  lemma MixedTabReturns()
    ensures PO.ReturnCheckTab(0, MixedTab) == Ok(None)
  {
    ItemReturns("a", VInt(1), "first");
    ItemReturns("b", VStr("1"), "second");
    TruthyGetsTwo(MixedA, MixedB, VStr("first"), VStr("second"), "item_returns");
    PairApart(VStr("first"), VStr("second"));
    assert Lookup(MixedTab.entries, "items") == Some(VList([MixedA, MixedB]));
    ReturnsApart(0, MixedTab, [MixedA, MixedB], [VStr("first"), VStr("second")]);
  }

  lemma MixedTokensReturns()
    ensures PO.ReturnOverlapMessages(MixedTokens) == Ok([])
  {
    MixedTabReturns();
    SingleReturnsQuiet(VBool(true), [MixedA, MixedB]);
  }

  lemma NormalizedItem(shown: string, input: Value, ret: string, cs: Value)
    ensures NC.NormalizeItem(PN.Keys, cs, Item(shown, input, ret))
      == Ok(NormalItem(shown, NC.StrCase(input, true, cs), ret))
  {
    var item := Item(shown, input, ret);
    PN.KeysDistinct();
    ItemLookups(shown, input, ret);
    ItemInputs(shown, input, ret);
    assert !NC.IsTextKey(PN.Keys, item.entries[1].0);
    NC.ItemMeaning(PN.Keys, cs, item);
    assert NC.InputStrings([input], cs) == [NC.StrCase(input, true, cs)];
  }

  const NormalMixedTab: NC.NTab := NC.NTab(None, None, None, Some([NormalItem("a", "1", "first"), NormalItem("b", "1", "second")]))
  const NormalMixed: NC.NConfig := NC.NConfig(VBool(true), VInt(80), [NormalMixedTab])

  lemma MixedTokensNormalized()
    ensures PN.Normalize(MixedTokens) == Ok(NormalMixed)
  {
    var cs := VBool(true);
    OneIsDigit();
    NormalizedItem("a", VInt(1), "first", cs);
    NormalizedItem("b", VStr("1"), "second", cs);
    MapFromTwo(NC.ItemFn(PN.Keys, cs), MixedA, MixedB, NormalItem("a", "1", "first"), NormalItem("b", "1", "second"));
    SingleNormalized(cs, [MixedA, MixedB], NormalMixedTab.items.value);
  }

  /** Both items list "1"; the second one, written last, holds the key. */
  lemma MixedTable()
    ensures !TT.NoCollision([], NormalMixedTab.items.value)
    ensures TT.TabTableOf(NormalMixedTab, []).Ok?
    ensures TT.Process(TT.TabTableOf(NormalMixedTab, []).value, "1") == TT.Return("second")
  {
    var items := NormalMixedTab.items.value;
    assert "1" in TT.InputsOf(items[0]) && "1" in TT.InputsOf(items[1]);
    TT.ParseItemsMeaning([], items);
    assert TT.InItemsFrom(items, 0, "1");
    assert TT.LastItemFrom(items, 0, "1") == 1 by {
      assert TT.InItemsFrom(items, 1, "1");
    }
  }

  /**
   * `MixedTokens` passes `validate_all`, yet after normalization both items
   * list the input "1", so the table keeps only the second item's value:
   * typing the first item's input returns "second".
   */
  lemma CaseSensitiveCollision()
    ensures VA.ValidateAllOutcome(MixedTokens) == Ok(())
    ensures PN.Normalize(MixedTokens) == Ok(NormalMixed)
    ensures TT.Selectors(NormalMixed.tabs) == []
    ensures var item := NormalMixed.tabs[0].items.value[0];
      "1" in TT.InputsOf(item) && item.returnValue == Some("first")
    ensures !TT.NoCollision([], NormalMixed.tabs[0].items.value)
    ensures TT.Process(TT.TabTableOf(NormalMixed.tabs[0], []).value, "1") == TT.Return("second")
  {
    MixedTokensSchema();
    MixedTokensInputs();
    MixedTokensReturns();
    Accepted(MixedTokens);
    MixedTokensNormalized();
    TT.SelectorsAllOrNone(NormalMixed.tabs);
    MixedTable();
  }

  // ---------------------------------------------------------------------
  // A tab headed by the integer 0

  const ZeroItem: Value := Item("a", VStr("0"), "x")
  const LetterItem: Value := Item("c", VStr("c"), "y")
  const ZeroTab: Value := HeadedTab(VInt(0), [ZeroItem])
  const LetterTab: Value := HeadedTab(VStr("b"), [LetterItem])
  const FalsyHeader: Value := MultiConfig([ZeroTab, LetterTab])

  lemma ZeroIsDigit()
    ensures Str(VInt(0)) == "0"
  {
    assert NatToString(0) == [DigitChar(0)];
  }

  lemma OneChecked(a: Value)
    requires ItemChecked(a)
    ensures forall q :: 0 <= q < |[a]| ==> ItemChecked([a][q])
  {
  }

  /** A tab with a printable header and one passing item passes. */
  lemma HeadedOnePasses(header: Value, shown: string, input: Value, ret: string)
    requires !header.VNone? && |Str(header)| > 0
    requires |shown| > 0 && |ret| > 0 && !input.VNone? && |Str(input)| > 0
    ensures TabChecked(HeadedTab(header, [Item(shown, input, ret)]))
  {
    ItemPasses(shown, input, ret);
    OneChecked(Item(shown, input, ret));
    HeadedTabPasses(header, [Item(shown, input, ret)]);
  }

  lemma ZeroTabChecked()
    ensures TabChecked(ZeroTab)
  {
    ZeroIsDigit();
    HeadedOnePasses(VInt(0), "a", VStr("0"), "x");
  }

  lemma LetterTabChecked()
    ensures TabChecked(LetterTab)
  {
    HeadedOnePasses(VStr("b"), "c", VStr("c"), "y");
  }

  lemma BothTabsChecked(a: Value, b: Value)
    requires TabChecked(a) && TabChecked(b)
    ensures forall k :: 0 <= k < |[a, b]| ==> TabChecked([a, b][k])
  {
  }

  lemma FalsyHeaderSchema()
    ensures PV.SchemaMessages(FalsyHeader) == Ok([])
  {
    ZeroTabChecked();
    LetterTabChecked();
    BothTabsChecked(ZeroTab, LetterTab);
    MultiSchemaClean([ZeroTab, LetterTab]);
  }

  lemma LowerKeeps(s: string)
    requires forall i :: 0 <= i < |s| ==> !('A' <= s[i] <= 'Z')
    ensures Lower(s) == s
  {
  }

  lemma HeaderLookups(header: Value, items: seq<Value>)
    ensures var es := HeadedTab(header, items).entries;
      && Lookup(es, "tab_header_input") == Some(header) && Lookup(es, "items") == Some(VList(items))
  {
    var es := HeadedTab(header, items).entries;
    LookupTwo(es[0], es[1], "tab_header_input");
    LookupTwo(es[0], es[1], "items");
  }

  /** The validator's starting choices: the header 0 is falsy and left out. */
  lemma FalsyStarting()
    ensures PO.TruthyGets([ZeroTab, LetterTab], "tab_header_input") == Ok([VStr("b")])
  {
    HeaderLookups(VInt(0), [ZeroItem]);
    HeaderLookups(VStr("b"), [LetterItem]);
    TruthyGetsOne(LetterTab, VStr("b"), "tab_header_input");
    assert [ZeroTab, LetterTab][1..] == [LetterTab] && [ZeroTab, LetterTab][0] == ZeroTab;
    assert [] + [VStr("b")] == [VStr("b")];
  }

  lemma HeadedTabChoices(a: string, header: Value, item: Value, input: Value)
    requires HasKey(item, "item_inputs") == Ok(true) && PV.Children(item, "item_inputs") == Ok([input])
    requires forall k :: 0 <= k < |a| ==> !('A' <= a[k] <= 'Z')
    requires input.VStr? && forall k :: 0 <= k < |input.s| ==> !('A' <= input.s[k] <= 'Z')
    ensures PO.TabChoices([VStr(a)], HeadedTab(header, [item]), VBool(false)) == Ok([VStr(a), input])
  {
    HeadedTabFolded([VStr(a)], header, item, input);
    assert [VStr(a)] + [input] == [VStr(a), VStr(input.s)];
    LowerPair(a, input.s);
  }

  /** A headed tab of one item, before folding: the starting choices, then the item's input. */
  lemma HeadedTabFolded(starting: seq<Value>, header: Value, item: Value, input: Value)
    requires HasKey(item, "item_inputs") == Ok(true) && PV.Children(item, "item_inputs") == Ok([input])
    ensures PO.TabChoices(starting, HeadedTab(header, [item]), VBool(false)) == Ok(PO.LowerAll(starting + [input]))
  {
    HeaderLookups(header, [item]);
    TabInputsOne(item, [input]);
    ChoicesOfTab(starting, HeadedTab(header, [item]), [item], [input], VBool(false));
  }

  lemma LowerPair(a: string, b: string)
    requires forall k :: 0 <= k < |a| ==> !('A' <= a[k] <= 'Z')
    requires forall k :: 0 <= k < |b| ==> !('A' <= b[k] <= 'Z')
    ensures PO.LowerAll([VStr(a), VStr(b)]) == [VStr(a), VStr(b)]
  {
    LowerKeeps(a);
    LowerKeeps(b);
    var r := PO.LowerAll([VStr(a), VStr(b)]);
    assert r[0] == VStr(a) && r[1] == VStr(b);
  }

  lemma HeadedTabChecked(i: nat, header: Value, item: Value, input: Value)
    requires HasKey(item, "item_inputs") == Ok(true) && PV.Children(item, "item_inputs") == Ok([input])
    requires input.VStr? && input.s != "b" && input.s != "" && forall k :: 0 <= k < |input.s| ==> !('A' <= input.s[k] <= 'Z')
    ensures PO.InputCheckTab(PV.Multiple, [VStr("b")], VBool(false), i, HeadedTab(header, [item])) == Ok(None)
  {
    HeadedTabChoices("b", header, item, input);
    PairApart(VStr("b"), input);
    InputsApart(PV.Multiple, [VStr("b")], VBool(false), i, HeadedTab(header, [item]), [VStr("b"), input]);
  }

  /** With "b" as the only starting choice, neither tab repeats an input. */
  lemma FalsyTabsQuiet()
    ensures PO.InputCheckTab(PV.Multiple, [VStr("b")], VBool(false), 0, ZeroTab) == Ok(None)
    ensures PO.InputCheckTab(PV.Multiple, [VStr("b")], VBool(false), 1, LetterTab) == Ok(None)
  {
    ItemInputs("a", VStr("0"), "x");
    ItemInputs("c", VStr("c"), "y");
    HeadedTabChecked(0, VInt(0), ZeroItem, VStr("0"));
    HeadedTabChecked(1, VStr("b"), LetterItem, VStr("c"));
  }

  lemma FalsyHeaderInputs()
    ensures PO.InputOverlapMessages(FalsyHeader) == Ok([])
  {
    FalsyStarting();
    FalsyTabsQuiet();
    MultiInputsQuiet(ZeroTab, LetterTab, [VStr("b")]);
  }

  lemma HeadedTabReturns(i: nat, header: Value, shown: string, input: Value, ret: string)
    requires ret != ""
    ensures PO.ReturnCheckTab(i, HeadedTab(header, [Item(shown, input, ret)])) == Ok(None)
  {
    var item := Item(shown, input, ret);
    HeaderLookups(header, [item]);
    ItemReturns(shown, input, ret);
    TruthyGetsOne(item, VStr(ret), "item_returns");
    OneApart(VStr(ret));
    ReturnsApart(i, HeadedTab(header, [item]), [item], [VStr(ret)]);
  }

  lemma FalsyHeaderReturns()
    ensures PO.ReturnOverlapMessages(FalsyHeader) == Ok([])
  {
    MultiSettings([ZeroTab, LetterTab]);
    HeadedTabReturns(0, VInt(0), "a", VStr("0"), "x");
    HeadedTabReturns(1, VStr("b"), "c", VStr("c"), "y");
    ReturnsQuiet(FalsyHeader, [ZeroTab, LetterTab]);
  }

  lemma NormalizedHeadedTab(header: Value, items: seq<Value>, cs: Value, nitems: seq<NC.NItem>)
    requires MapFrom(NC.ItemFn(PN.Keys, cs), items, 0) == Ok(nitems)
    ensures NC.NormalizeTab(PN.Keys, cs, HeadedTab(header, items))
      == Ok(NC.NTab(Some(NC.StrCase(header, true, cs)), None, None, Some(nitems)))
  {
    var tab := HeadedTab(header, items);
    PN.KeysDistinct();
    HeaderLookups(header, items);
    var es := tab.entries;
    LookupTwo(es[0], es[1], "tab_header_description");
    LookupTwo(es[0], es[1], "tab_header_long_description");
    NC.TabMeaning(PN.Keys, cs, tab);
  }

  const NormalZeroTab: NC.NTab := NC.NTab(Some("0"), None, None, Some([NormalItem("a", "0", "x")]))
  const NormalLetterTab: NC.NTab := NC.NTab(Some("b"), None, None, Some([NormalItem("c", "c", "y")]))
  const NormalFalsy: NC.NConfig := NC.NConfig(VBool(false), VInt(80), [NormalZeroTab, NormalLetterTab])

  lemma FalsyHeaderNormalized()
    ensures PN.Normalize(FalsyHeader) == Ok(NormalFalsy)
  {
    var cs := VBool(false);
    ZeroIsDigit();
    LowerKeeps("0");
    LowerKeeps("b");
    LowerKeeps("c");
    NormalizedItem("a", VStr("0"), "x", cs);
    NormalizedItem("c", VStr("c"), "y", cs);
    MapFromOne(NC.ItemFn(PN.Keys, cs), ZeroItem, NormalItem("a", "0", "x"));
    MapFromOne(NC.ItemFn(PN.Keys, cs), LetterItem, NormalItem("c", "c", "y"));
    NormalizedHeadedTab(VInt(0), [ZeroItem], cs, [NormalItem("a", "0", "x")]);
    NormalizedHeadedTab(VStr("b"), [LetterItem], cs, [NormalItem("c", "c", "y")]);
    MapFromTwo(NC.TabFn(PN.Keys, cs), ZeroTab, LetterTab, NormalZeroTab, NormalLetterTab);
    MultiNormalized([ZeroTab, LetterTab], [NormalZeroTab, NormalLetterTab]);
  }

  /** The selector "0" is also the first tab's item input; the item, written last, holds the key. */
  lemma ZeroTable()
    ensures !TT.NoCollision(["0", "b"], NormalZeroTab.items.value)
    ensures TT.TabTableOf(NormalZeroTab, ["0", "b"]).Ok?
    ensures TT.Process(TT.TabTableOf(NormalZeroTab, ["0", "b"]).value, "0") == TT.Return("x")
  {
    var items := NormalZeroTab.items.value;
    assert "0" in TT.InputsOf(items[0]);
    TT.ParseItemsMeaning(["0", "b"], items);
    assert TT.InItemsFrom(items, 0, "0");
  }

  /**
   * `FalsyHeader` passes `validate_all`, yet the menu's first selector is
   * "0", which the first tab also lists as an item input: in that tab,
   * typing "0" returns "x" instead of changing to tab 0.
   */
  lemma FalsyHeaderAccepted()
    ensures VA.ValidateAllOutcome(FalsyHeader) == Ok(())
  {
    FalsyHeaderSchema();
    FalsyHeaderInputs();
    FalsyHeaderReturns();
    Accepted(FalsyHeader);
  }

  lemma FalsySelectors()
    ensures TT.Selectors(NormalFalsy.tabs) == ["0", "b"]
  {
    TT.SelectorsAllOrNone(NormalFalsy.tabs);
  }

  lemma FalsyHeaderCollision()
    ensures VA.ValidateAllOutcome(FalsyHeader) == Ok(())
    ensures PN.Normalize(FalsyHeader) == Ok(NormalFalsy)
    ensures TT.Selectors(NormalFalsy.tabs) == ["0", "b"]
    ensures !TT.NoCollision(["0", "b"], NormalFalsy.tabs[0].items.value)
    ensures TT.Process(TT.TabTableOf(NormalFalsy.tabs[0], ["0", "b"]).value, "0") == TT.Return("x")
  {
    FalsyHeaderAccepted();
    FalsyHeaderNormalized();
    FalsySelectors();
    ZeroTable();
  }
}
