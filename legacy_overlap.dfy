/**
 * The two overlap checks and `validate_all` of the older packages:
 * src/tabbedshellmenus/validators.py (`validate_no_return_value_overlap`,
 * `validate_no_input_value_overlap`, `validate_all`) and
 * src/pysimpletabshellmenu/validators.py (`check_return_value_overlap`,
 * `check_accepted_input_overlap`, `validate_all`). The two files run the
 * same loops; they differ in the class of the exception an overlap raises,
 * and in how `validate_all` consults the schema.
 *
 * Unlike pytabby's checks, which collect messages, these stop at the first
 * tab that overlaps, and they use Python's `len(xs) == len(set(xs))`, so
 * an unhashable value raises a TypeError.
 */
module LegacyOverlap {
  import opened PyValue
  import opened Counter
  import PV = PytabbyValidators
  import PO = PytabbyOverlap
  import LS = LegacySchema
  import PS = PySorted

  /** Which of the two older packages is meant. */
  datatype Package = TabbedShellMenus | PySimpleTabShellMenu

  /** The exception an overlap raises. */
  function OverlapClass(pkg: Package): ExcClass {
    match pkg
    case TabbedShellMenus => ValueOverlapError
    case PySimpleTabShellMenu => AssertionError
  }

  /** `len(vs) == len(set(vs))`: building the set needs hashable values. */
  function AllDistinct(vs: seq<Value>): (r: Result<bool>)
    ensures r.Err? <==> exists i :: 0 <= i < |vs| && !Hashable(vs[i])
    ensures r.Err? ==> r.error.cls == TypeError
    ensures r.Ok? ==> (r.value <==> NoDuplicates(vs))
  {
    match FirstUnhashable(vs)
    case Some(u) => Err(Exc(TypeError, "unhashable type: '" + UnhashableType(u) + "'"))
    case None => Ok(NoDuplicates(vs))
  }

  /** Python's equality: an int and a string are different set elements, even the int 1 and the string "1". */
  lemma IntAndDigitDiffer(n: int, s: string)
    ensures AllDistinct([VInt(n), VStr(s)]) == Ok(true)
  {
    assert !PyEq(VInt(n), VStr(s));
  }

  /** Python's equality: a bool is the same set element as the int it counts as (True and 1, False and 0). */
  lemma TrueAndOneCollide(b: bool)
    ensures AllDistinct([VBool(b), VInt(if b then 1 else 0)]) == Ok(false)
  {
    var vs := [VBool(b), VInt(if b then 1 else 0)];
    assert Hashable(vs[0]) && Hashable(vs[1]) && PyEq(vs[0], vs[1]);
  }

  // ---------------------------------------------------------------------
  // Repeated return values

  /** `x["returns"]`. */
  function ReturnOf(item: Value): Result<Value> {
    GetKey(item, "returns")
  }

  /** `[x["returns"] for x in tab["items"]]`. */
  function TabReturns(tab: Value): Result<seq<Value>> {
    var items :- PV.Children(tab, "items");
    MapFrom(ReturnOf, items, 0)
  }

  /** The text of the exception for a tab with repeated return values. */
  function ReturnMessage(tab: Value, rets: seq<Value>): string {
    if tab.VDict? && Lookup(tab.entries, LS.HeaderKey).Some? then
      "in tab " + Str(Lookup(tab.entries, LS.HeaderKey).value) + ", there are repeated return values: " + Repr(VList(rets))
    else "in the single tab, there are repeated return values: " + Repr(VList(rets))
  }

  /** One pass of the loop over tabs. */
  function ReturnCheckTab(pkg: Package, tab: Value): Result<()> {
    var rets :- TabReturns(tab);
    var distinct :- AllDistinct(rets);
    if distinct then Ok(()) else Err(Exc(OverlapClass(pkg), ReturnMessage(tab, rets)))
  }

  function ReturnCheck(pkg: Package): Value -> Result<()> {
    tab => ReturnCheckTab(pkg, tab)
  }

  /**
   * What the return check raises on a configuration, if anything. Once the
   * tabs are found it passes exactly when every tab passes on its own.
   */
  function ReturnOverlap(pkg: Package, config: Value): (r: Result<()>)
    ensures r.Ok? ==> PO.ConfigTabs(config).Ok? && Iter(PO.ConfigTabs(config).value).Ok?
    ensures PO.ConfigTabs(config).Ok? && Iter(PO.ConfigTabs(config).value).Ok? ==>
      var tabs := Iter(PO.ConfigTabs(config).value).value;
      (r.Ok? <==> forall i :: 0 <= i < |tabs| ==> ReturnCheckTab(pkg, tabs[i]).Ok?)
  {
    var tabsValue :- PO.ConfigTabs(config);
    var tabs :- Iter(tabsValue);
    LS.CheckAllMeaning(ReturnCheck(pkg), tabs);
    LS.CheckAll(ReturnCheck(pkg), tabs)
  }

  /**
   * A tab passes when its return values can be gathered and hashed and no two are
   * equal; it raises the package's overlap exception exactly when they can
   * be gathered and hashed but two are equal.
   */
  lemma ReturnCheckTabMeaning(pkg: Package, tab: Value)
    ensures ReturnCheckTab(pkg, tab).Ok? <==>
      TabReturns(tab).Ok? && AllDistinct(TabReturns(tab).value) == Ok(true)
    ensures ReturnCheckTab(pkg, tab).Err? && ReturnCheckTab(pkg, tab).error.cls == OverlapClass(pkg) <==>
      TabReturns(tab).Ok? && AllDistinct(TabReturns(tab).value) == Ok(false)
    ensures ReturnCheckTab(pkg, tab).Err? && TabReturns(tab).Ok? && AllDistinct(TabReturns(tab).value) == Ok(false) ==>
      ReturnCheckTab(pkg, tab).error.text == ReturnMessage(tab, TabReturns(tab).value)
  {
    if TabReturns(tab).Err? {
      TabReturnsErrClass(tab);
      assert ReturnCheckTab(pkg, tab) == Err(TabReturns(tab).error);
    } else {
      var rets := TabReturns(tab).value;
      assert ReturnCheckTab(pkg, tab) ==
        if AllDistinct(rets).Err? then Err(AllDistinct(rets).error)
        else if AllDistinct(rets).value then Ok(())
        else Err(Exc(OverlapClass(pkg), ReturnMessage(tab, rets)));
    }
  }

  /** Gathering the return values raises only KeyError, TypeError or AttributeError. */
  lemma TabReturnsErrClass(tab: Value)
    requires TabReturns(tab).Err?
    ensures TabReturns(tab).error.cls in {KeyError, TypeError, AttributeError}
  {
    var items := PV.Children(tab, "items");
    if items.Ok? {
      MapFromErr(ReturnOf, items.value, 0);
    }
  }

  /**
   * The return check is per tab and stops at the first tab that fails:
   * it passes exactly when every tab passes, and otherwise raises what the
   * first failing tab raises. Two tabs may return the same value.
   */
  lemma ReturnOverlapMeaning(pkg: Package, config: Value, tabs: seq<Value>)
    requires PO.ConfigTabs(config).Ok? && Iter(PO.ConfigTabs(config).value) == Ok(tabs)
    ensures ReturnOverlap(pkg, config).Ok? <==> forall i :: 0 <= i < |tabs| ==> ReturnCheckTab(pkg, tabs[i]).Ok?
    ensures ReturnOverlap(pkg, config).Err? ==> exists i ::
      && 0 <= i < |tabs| && ReturnCheckTab(pkg, tabs[i]) == Err(ReturnOverlap(pkg, config).error)
      && forall m :: 0 <= m < i ==> ReturnCheckTab(pkg, tabs[m]).Ok?
  {
    LS.CheckAllMeaning(ReturnCheck(pkg), tabs);
  }

  /** Return values are compared as they are: "a" and "A" do not overlap, whatever `case_sensitive` says. */
  lemma ReturnsNeverFolded(s: string, t: string)
    requires s != t
    ensures AllDistinct([VStr(s), VStr(t)]) == Ok(true)
  {
    assert !PyEq(VStr(s), VStr(t));
  }

  /** The loop over tabs of `validate_no_return_value_overlap`, after `_config_tabs`. */
  method CheckReturnsOfTabs(pkg: Package, tabs: seq<Value>) returns (r: Result<()>)
    ensures r == LS.CheckAll(ReturnCheck(pkg), tabs)
  {
    ghost var whole := MapFrom(ReturnCheck(pkg), tabs, 0);
    ghost var done: seq<()> := [];
    MapLoopStart(ReturnCheck(pkg), tabs);
    var i := 0;
    while i < |tabs|
      invariant MapSoFar(ReturnCheck(pkg), tabs, i, done, whole)
    {
      var rets := TabReturns(tabs[i]);
      var checked: Result<()>;
      if rets.Err? {
        checked := Err(rets.error);
      } else {
        var distinct := AllDistinct(rets.value);
        if distinct.Err? {
          checked := Err(distinct.error);
        } else if !distinct.value {
          checked := Err(Exc(OverlapClass(pkg), ReturnMessage(tabs[i], rets.value)));
        } else {
          checked := Ok(());
        }
      }
      assert checked == ReturnCheck(pkg)(tabs[i]);
      if checked.Err? {
        MapLoopErr(ReturnCheck(pkg), tabs, i, done, whole, checked.error);
        return Err(checked.error);
      }
      MapLoopNext(ReturnCheck(pkg), tabs, i, done, whole, ());
      done := done + [()];
      i := i + 1;
    }
    MapLoopEnd(ReturnCheck(pkg), tabs, done, whole);
    return Ok(());
  }

  /**
   * `validate_no_return_value_overlap(config)` (tabbedshellmenus) and
   * `check_return_value_overlap(dict_)` (pysimpletabshellmenu); both add
   * the implied `tabs` key to the caller's dict.
   */
  method ValidateNoReturnValueOverlap(pkg: Package, config: Dict) returns (r: Result<()>)
    modifies config
    ensures r == ReturnOverlap(pkg, VDict(old(config.entries)))
    ensures config.entries == LS.TabsAdded(old(config.entries))
  {
    var tabsValue :- LS.ConfigTabsInPlace(config);
    var tabs :- Iter(tabsValue);
    r := CheckReturnsOfTabs(pkg, tabs);
  }

  // ---------------------------------------------------------------------
  // Repeated input values

  /** `header_choice.lower()`: only a string has the method. */
  function LowerMethod(v: Value): (r: Result<Value>)
    ensures r.Ok? <==> v.VStr?
    ensures r.Ok? ==> r.value == VStr(Lower(v.s)) && (Truthy(r.value) <==> Truthy(v))
  {
    if v.VStr? then Ok(VStr(Lower(v.s)))
    else Err(Exc(AttributeError, "'" + TypeName(v) + "' object has no attribute 'lower'"))
  }

  /** A tab's `header_choice` after the first loop's body: lower-cased when truthy and not case sensitive. */
  function HeaderChoice(caseSensitive: Value, tab: Value): Result<Value> {
    var choice :- DictGet(tab, LS.HeaderKey, VNone);
    if Truthy(choice) && !Truthy(caseSensitive) then LowerMethod(choice) else Ok(choice)
  }

  function HeaderChoiceOf(caseSensitive: Value): Value -> Result<Value> {
    tab => HeaderChoice(caseSensitive, tab)
  }

  /** The truthy values among `hs`, in order: `tab_values`. */
  function TruthyOnly(hs: seq<Value>): (r: seq<Value>)
    ensures forall v :: v in r <==> v in hs && Truthy(v)
  {
    if hs == [] then []
    else
      var init := hs[..|hs| - 1];
      var last := hs[|hs| - 1];
      assert hs == init + [last];
      TruthyOnly(init) + if Truthy(last) then [last] else []
  }

  /**
   * The set-up of the input check: the case flag, the tabs, the tab
   * selectors, and the `header_choice` the first loop leaves behind (that
   * of the last tab; the loop over tabs raises only when there is a tab).
   */
  datatype InputPlan = InputPlan(caseSensitive: Value, tabs: seq<Value>, selectors: seq<Value>, lastChoice: Value)

  function PlanInputs(config: Value): Result<InputPlan> {
    var caseSensitive :- DictGet(config, "case_sensitive", VBool(false));
    var tabsValue :- PO.ConfigTabs(config);
    var tabs :- Iter(tabsValue);
    var choices :- MapFrom(HeaderChoiceOf(caseSensitive), tabs, 0);
    Ok(InputPlan(caseSensitive, tabs, TruthyOnly(choices), if |choices| == 0 then VNone else choices[|choices| - 1]))
  }

  /** `[x.lower() if isinstance(x, str) else x for x in valid_entries]` when not case sensitive. */
  function FoldCase(caseSensitive: Value, entries: seq<Value>): (r: seq<Value>)
    ensures |r| == |entries|
    ensures forall k :: 0 <= k < |r| ==>
      r[k] == (if entries[k].VStr? && !Truthy(caseSensitive) then VStr(Lower(entries[k].s)) else entries[k])
  {
    if Truthy(caseSensitive) then entries
    else seq(|entries|, k requires 0 <= k < |entries| => if entries[k].VStr? then VStr(Lower(entries[k].s)) else entries[k])
  }

  /**
   * The loop over a tab's items from `items[j]` on, with `acc` the input
   * values so far: None when every assertion holds, or the list on which
   * the first one failed.
   */
  function ItemsInputs(caseSensitive: Value, items: seq<Value>, j: nat, acc: seq<Value>): Result<Option<seq<Value>>>
    decreases |items| - j
  {
    if j >= |items| then Ok(None)
    else
      var entries :- PV.Children(items[j], "valid_entries");
      var values := acc + FoldCase(caseSensitive, entries);
      var distinct :- AllDistinct(values);
      if !distinct then Ok(Some(values)) else ItemsInputs(caseSensitive, items, j + 1, values)
  }

  /** One item of the loop: what gathering or hashing raises ends it, a repeat ends it, and distinct values move on. */
  lemma ItemsInputsAt(caseSensitive: Value, items: seq<Value>, j: nat, acc: seq<Value>)
    requires j < |items|
    ensures var got := PV.Children(items[j], "valid_entries");
      && (got.Err? ==> ItemsInputs(caseSensitive, items, j, acc) == Err(got.error))
      && (got.Ok? ==>
        var values := acc + FoldCase(caseSensitive, got.value);
        && (AllDistinct(values).Err? ==> ItemsInputs(caseSensitive, items, j, acc) == Err(AllDistinct(values).error))
        && (AllDistinct(values) == Ok(false) ==> ItemsInputs(caseSensitive, items, j, acc) == Ok(Some(values)))
        && (AllDistinct(values) == Ok(true) ==> ItemsInputs(caseSensitive, items, j, acc) == ItemsInputs(caseSensitive, items, j + 1, values)))
  {
  }

  /** One tab: its input values start as a copy of the selectors. */
  function TabInputs(caseSensitive: Value, selectors: seq<Value>, tab: Value): Result<Option<seq<Value>>> {
    var items :- PV.Children(tab, "items");
    ItemsInputs(caseSensitive, items, 0, selectors)
  }

  /** A loop over `xs[i..]` that stops at the first element for which `f` finds something. */
  function FirstFound<T, U>(f: T -> Result<Option<U>>, xs: seq<T>, i: nat): Result<Option<U>>
    decreases |xs| - i
  {
    if i >= |xs| then Ok(None)
    else
      var found :- f(xs[i]);
      if found.Some? then Ok(found) else FirstFound(f, xs, i + 1)
  }

  /** One step of the loop: an element's exception or finding ends it, and nothing found moves on. */
  lemma FirstFoundStep<T, U>(f: T -> Result<Option<U>>, xs: seq<T>, i: nat)
    requires i < |xs|
    ensures f(xs[i]).Err? ==> FirstFound(f, xs, i) == Err(f(xs[i]).error)
    ensures f(xs[i]).Ok? && f(xs[i]).value.Some? ==> FirstFound(f, xs, i) == f(xs[i])
    ensures f(xs[i]) == Ok(None) ==> FirstFound(f, xs, i) == FirstFound(f, xs, i + 1)
  {
  }

  /** The loop finds nothing exactly when no element yields anything, and otherwise reports what one element found. */
  lemma {:induction false} FirstFoundMeaning<T, U>(f: T -> Result<Option<U>>, xs: seq<T>, i: nat)
    requires i <= |xs|
    ensures FirstFound(f, xs, i) == Ok(None) <==> forall k :: i <= k < |xs| ==> f(xs[k]) == Ok(None)
    ensures FirstFound(f, xs, i).Ok? && FirstFound(f, xs, i).value.Some? ==>
      exists k :: i <= k < |xs| && f(xs[k]) == FirstFound(f, xs, i)
    decreases |xs| - i
  {
    if i < |xs| {
      FirstFoundMeaning(f, xs, i + 1);
    }
  }

  function TabInputsOf(caseSensitive: Value, selectors: seq<Value>): Value -> Result<Option<seq<Value>>> {
    tab => TabInputs(caseSensitive, selectors, tab)
  }

  /** The loop over tabs, stopping at the first tab whose assertion fails. */
  function TabsInputs(caseSensitive: Value, selectors: seq<Value>, tabs: seq<Value>): Result<Option<seq<Value>>> {
    FirstFound(TabInputsOf(caseSensitive, selectors), tabs, 0)
  }

  /** The text of the exception for repeated inputs: it names the `header_choice` left by the first loop. */
  function InputMessage(lastChoice: Value, values: seq<Value>, caseSensitive: Value): string {
    if Truthy(lastChoice) then
      "in tab " + Str(lastChoice) + ", there are repeated input values: " + Repr(VList(values))
      + ",including other tabs. Note case_sensitive=" + Str(caseSensitive)
    else
      "in the single tab, there are repeated input values: " + Repr(VList(values))
      + ",Note case_sensitive=" + Str(caseSensitive)
  }

  /**
   * The list the message shows: `sorted(input_values)` in
   * tabbedshellmenus, which raises TypeError when the values cannot be
   * compared, and `input_values` itself in pysimpletabshellmenu.
   */
  function Shown(pkg: Package, values: seq<Value>): Result<seq<Value>> {
    match pkg
    case TabbedShellMenus => PS.Sorted(values)
    case PySimpleTabShellMenu => Ok(values)
  }

  /**
   * pysimpletabshellmenu shows the values as they are; tabbedshellmenus
   * shows them in ascending order when they are all numbers or all strings,
   * and otherwise raises TypeError while building the message.
   */
  lemma ShownMeaning(pkg: Package, values: seq<Value>)
    ensures pkg == PySimpleTabShellMenu ==> Shown(pkg, values) == Ok(values)
    ensures pkg == TabbedShellMenus ==> (Shown(pkg, values).Ok? <==> PS.Orderable(values))
    ensures Shown(pkg, values).Ok? ==> multiset(Shown(pkg, values).value) == multiset(values)
    ensures pkg == TabbedShellMenus && Shown(pkg, values).Ok? ==> PS.Ascending(Shown(pkg, values).value)
    ensures Shown(pkg, values).Err? ==> Shown(pkg, values).error.cls == TypeError
  {
    if pkg == TabbedShellMenus && PS.Sorted(values).Ok? {
      PS.SortedAscending(values);
    }
  }

  /**
   * What the input check raises on a configuration, if anything. It passes
   * exactly when the set-up succeeds and no tab's assertion fails; a failed
   * assertion raises the package's overlap exception or, in
   * tabbedshellmenus only, the TypeError of sorting the values.
   */
  function InputOverlap(pkg: Package, config: Value): (r: Result<()>)
    ensures r.Ok? <==>
      (PlanInputs(config).Ok? &&
       TabsInputs(PlanInputs(config).value.caseSensitive, PlanInputs(config).value.selectors, PlanInputs(config).value.tabs) == Ok(None))
    ensures (r.Err? && PlanInputs(config).Ok? &&
             TabsInputs(PlanInputs(config).value.caseSensitive, PlanInputs(config).value.selectors, PlanInputs(config).value.tabs).Ok?)
      ==> r.error.cls == OverlapClass(pkg) || (pkg == TabbedShellMenus && r.error.cls == TypeError)
  {
    var plan :- PlanInputs(config);
    var found :- TabsInputs(plan.caseSensitive, plan.selectors, plan.tabs);
    match found
    case None => Ok(())
    case Some(values) =>
      ShownMeaning(pkg, values);
      var shown :- Shown(pkg, values);
      Err(Exc(OverlapClass(pkg), InputMessage(plan.lastChoice, shown, plan.caseSensitive)))
  }

  /** Every input value of a tab's items, in order, folded when not case sensitive. */
  function AllEntries(caseSensitive: Value, items: seq<Value>, j: nat): Result<seq<Value>>
    decreases |items| - j
  {
    if j >= |items| then Ok([])
    else
      var entries :- PV.Children(items[j], "valid_entries");
      Prepend(FoldCase(caseSensitive, entries), AllEntries(caseSensitive, items, j + 1))
  }

  lemma {:induction false} NoDuplicatesPrefix(a: seq<Value>, b: seq<Value>)
    requires NoDuplicates(a + b)
    ensures NoDuplicates(a)
  {
    forall i, j | 0 <= i < j < |a|
      ensures !PyEq(a[i], a[j])
    {
      assert (a + b)[i] == a[i] && (a + b)[j] == a[j];
    }
  }

  /**
   * Asserting after every item checks, in the end, the whole list: once
   * every entry can be gathered and hashed, a tab with items passes
   * exactly when the selectors and all its input values are pairwise
   * different. Falsy values never become selectors, and a tab without
   * items checks nothing, not even repeated selectors.
   */
  /** One item's step, once the list so far can be hashed. */
  lemma ItemsInputsStep(caseSensitive: Value, items: seq<Value>, j: nat, acc: seq<Value>, entries: seq<Value>)
    requires j < |items| && PV.Children(items[j], "valid_entries") == Ok(entries)
    requires forall v :: v in acc + FoldCase(caseSensitive, entries) ==> Hashable(v)
    ensures var values := acc + FoldCase(caseSensitive, entries);
      ItemsInputs(caseSensitive, items, j, acc)
      == if NoDuplicates(values) then ItemsInputs(caseSensitive, items, j + 1, values) else Ok(Some(values))
  {
    var values := acc + FoldCase(caseSensitive, entries);
    assert AllDistinct(values) == Ok(NoDuplicates(values));
  }

  lemma AllEntriesStep(caseSensitive: Value, items: seq<Value>, j: nat)
    requires j < |items| && AllEntries(caseSensitive, items, j).Ok?
    ensures PV.Children(items[j], "valid_entries").Ok? && AllEntries(caseSensitive, items, j + 1).Ok?
    ensures AllEntries(caseSensitive, items, j).value
      == FoldCase(caseSensitive, PV.Children(items[j], "valid_entries").value) + AllEntries(caseSensitive, items, j + 1).value
  {
  }

  lemma {:induction false} ItemsInputsMeaning(caseSensitive: Value, items: seq<Value>, j: nat, acc: seq<Value>)
    requires j < |items| && AllEntries(caseSensitive, items, j).Ok?
    requires forall v :: v in acc + AllEntries(caseSensitive, items, j).value ==> Hashable(v)
    ensures ItemsInputs(caseSensitive, items, j, acc).Ok?
    ensures ItemsInputs(caseSensitive, items, j, acc) == Ok(None) <==>
      NoDuplicates(acc + AllEntries(caseSensitive, items, j).value)
    decreases |items| - j
  {
    AllEntriesStep(caseSensitive, items, j);
    var entries := PV.Children(items[j], "valid_entries").value;
    var values := acc + FoldCase(caseSensitive, entries);
    var rest := AllEntries(caseSensitive, items, j + 1).value;
    assert acc + AllEntries(caseSensitive, items, j).value == values + rest;
    assert forall v :: v in values ==> v in values + rest;
    ItemsInputsStep(caseSensitive, items, j, acc, entries);
    if !NoDuplicates(values) {
      if NoDuplicates(values + rest) {
        NoDuplicatesPrefix(values, rest);
      }
    } else if j + 1 == |items| {
      assert values + rest == values;
    } else {
      ItemsInputsMeaning(caseSensitive, items, j + 1, values);
    }
  }

  /** A list the assertion rejects: hashable values with a repeat, starting with `acc`. */
  predicate RejectedFrom(values: seq<Value>, acc: seq<Value>) {
    && (forall k :: 0 <= k < |values| ==> Hashable(values[k]))
    && !NoDuplicates(values)
    && |acc| <= |values| && values[..|acc|] == acc
  }

  /** A failed assertion reports a list of hashable values with a repeat, which starts with the selectors. */
  lemma {:induction false} ItemsInputsRaised(caseSensitive: Value, items: seq<Value>, j: nat, acc: seq<Value>)
    requires ItemsInputs(caseSensitive, items, j, acc).Ok? && ItemsInputs(caseSensitive, items, j, acc).value.Some?
    ensures RejectedFrom(ItemsInputs(caseSensitive, items, j, acc).value.value, acc)
    decreases |items| - j
  {
    ItemsInputsAt(caseSensitive, items, j, acc);
    var entries := PV.Children(items[j], "valid_entries").value;
    var values := acc + FoldCase(caseSensitive, entries);
    assert values[..|acc|] == acc;
    if AllDistinct(values) == Ok(true) {
      ItemsInputsRaised(caseSensitive, items, j + 1, values);
      var found := ItemsInputs(caseSensitive, items, j + 1, values).value.value;
      RejectedExtends(found, values, acc);
    } else {
      assert RejectedFrom(values, acc);
    }
  }

  /** A rejected list that starts with a longer list starting with `acc` starts with `acc`. */
  lemma RejectedExtends(found: seq<Value>, values: seq<Value>, acc: seq<Value>)
    requires RejectedFrom(found, values) && |acc| <= |values| && values[..|acc|] == acc
    ensures RejectedFrom(found, acc)
  {
    assert found[..|acc|] == found[..|values|][..|acc|];
  }

  /**
   * Every truthy selector is among every tab's starting input values, so an
   * entry equal to any tab's selector is an overlap.
   */
  lemma SelectorsCollected(caseSensitive: Value, tabs: seq<Value>, choices: seq<Value>, k: nat)
    requires MapFrom(HeaderChoiceOf(caseSensitive), tabs, 0) == Ok(choices) && k < |choices|
    requires Truthy(choices[k])
    ensures k < |tabs| && HeaderChoice(caseSensitive, tabs[k]) == Ok(choices[k]) && choices[k] in TruthyOnly(choices)
  {
    MapFromOk(HeaderChoiceOf(caseSensitive), tabs, 0);
  }

  /**
   * The input check raises exactly when some tab's assertion fails: the
   * package's overlap exception, whose text names the last tab's
   * `header_choice` (not necessarily the tab that overlaps) and shows the
   * values, or the TypeError of sorting values that cannot be compared.
   */
  lemma InputOverlapRaised(pkg: Package, config: Value)
    requires PlanInputs(config).Ok?
    ensures var plan := PlanInputs(config).value;
      var found := TabsInputs(plan.caseSensitive, plan.selectors, plan.tabs);
      && (InputOverlap(pkg, config) == Ok(()) <==> found == Ok(None))
      && (found.Ok? && found.value.Some? ==>
            var shown := Shown(pkg, found.value.value);
            && InputOverlap(pkg, config).Err?
            && (shown.Err? ==> InputOverlap(pkg, config).error == shown.error)
            && (shown.Ok? ==>
                  && InputOverlap(pkg, config).error.cls == OverlapClass(pkg)
                  && InputOverlap(pkg, config).error.text == InputMessage(plan.lastChoice, shown.value, plan.caseSensitive))
            && exists k :: 0 <= k < |plan.tabs| && TabInputs(plan.caseSensitive, plan.selectors, plan.tabs[k]) == found)
  {
    var plan := PlanInputs(config).value;
    var found := TabsInputs(plan.caseSensitive, plan.selectors, plan.tabs);
    FirstFoundMeaning(TabInputsOf(plan.caseSensitive, plan.selectors), plan.tabs, 0);
  }

  /**
   * A truthy tab selector that is not a string (a non-zero integer, or
   * True) cannot be lower-cased: when the configuration is not case
   * sensitive the check raises an AttributeError, although the schema
   * accepts integer selectors.
   */
  lemma IntSelectorNeedsCaseSensitive(caseSensitive: Value, tabs: seq<Value>, k: nat, header: Value)
    requires k < |tabs| && tabs[k].VDict? && !Truthy(caseSensitive)
    requires Lookup(tabs[k].entries, LS.HeaderKey) == Some(header) && Truthy(header) && !header.VStr?
    ensures MapFrom(HeaderChoiceOf(caseSensitive), tabs, 0).Err?
    ensures MapFrom(HeaderChoiceOf(caseSensitive), tabs, 0).error.cls == AttributeError
  {
    var f := HeaderChoiceOf(caseSensitive);
    assert f(tabs[k]).Err? by {
      assert HeaderChoice(caseSensitive, tabs[k]) == LowerMethod(header);
    }
    MapFromOk(f, tabs, 0);
    MapFromErr(f, tabs, 0);
    var i :| 0 <= i < |tabs| && f(tabs[i]) == Err(MapFrom(f, tabs, 0).error);
    HeaderChoiceFails(caseSensitive, tabs[i]);
  }

  /** The first loop's body can only raise AttributeError: a tab without `get`, or a header without `lower`. */
  lemma HeaderChoiceFails(caseSensitive: Value, tab: Value)
    ensures HeaderChoice(caseSensitive, tab).Err? ==> HeaderChoice(caseSensitive, tab).error.cls == AttributeError
  {
  }

  ghost predicate SelectorsSoFar(caseSensitive: Value, tabs: seq<Value>, i: nat, choices: seq<Value>,
                                 whole: Result<seq<Value>>, tabValues: seq<Value>, headerChoice: Value) {
    && MapSoFar(HeaderChoiceOf(caseSensitive), tabs, i, choices, whole)
    && |choices| == i
    && tabValues == TruthyOnly(choices)
    && headerChoice == (if i == 0 then VNone else choices[i - 1])
  }

  lemma SelectorsStep(caseSensitive: Value, tabs: seq<Value>, i: nat, choices: seq<Value>,
                      whole: Result<seq<Value>>, tabValues: seq<Value>, headerChoice: Value, choice: Value)
    requires SelectorsSoFar(caseSensitive, tabs, i, choices, whole, tabValues, headerChoice)
    requires i < |tabs| && HeaderChoice(caseSensitive, tabs[i]) == Ok(choice)
    ensures SelectorsSoFar(caseSensitive, tabs, i + 1, choices + [choice], whole,
                           tabValues + (if Truthy(choice) then [choice] else []), choice)
  {
    MapLoopNext(HeaderChoiceOf(caseSensitive), tabs, i, choices, whole, choice);
    assert (choices + [choice])[..|choices|] == choices;
  }

  /** The first loop of the input check: `tab_values` and the last `header_choice`. */
  method CollectSelectors(caseSensitive: Value, tabs: seq<Value>) returns (r: Result<(seq<Value>, Value)>)
    ensures r.Ok? <==> MapFrom(HeaderChoiceOf(caseSensitive), tabs, 0).Ok?
    ensures r.Err? ==> r.error == MapFrom(HeaderChoiceOf(caseSensitive), tabs, 0).error
    ensures r.Ok? ==> var choices := MapFrom(HeaderChoiceOf(caseSensitive), tabs, 0).value;
      r.value == (TruthyOnly(choices), if |choices| == 0 then VNone else choices[|choices| - 1])
  {
    ghost var whole := MapFrom(HeaderChoiceOf(caseSensitive), tabs, 0);
    ghost var choices: seq<Value> := [];
    var tabValues: seq<Value> := [];
    var headerChoice := VNone;
    MapLoopStart(HeaderChoiceOf(caseSensitive), tabs);
    var i := 0;
    while i < |tabs|
      invariant SelectorsSoFar(caseSensitive, tabs, i, choices, whole, tabValues, headerChoice)
    {
      var got := DictGet(tabs[i], LS.HeaderKey, VNone);
      if got.Err? {
        MapLoopErr(HeaderChoiceOf(caseSensitive), tabs, i, choices, whole, got.error);
        return Err(got.error);
      }
      var choice := got.value;
      if Truthy(choice) {
        if !Truthy(caseSensitive) {
          var lowered := LowerMethod(choice);
          if lowered.Err? {
            MapLoopErr(HeaderChoiceOf(caseSensitive), tabs, i, choices, whole, lowered.error);
            return Err(lowered.error);
          }
          choice := lowered.value;
        }
      }
      SelectorsStep(caseSensitive, tabs, i, choices, whole, tabValues, headerChoice, choice);
      if Truthy(choice) {
        tabValues := tabValues + [choice];
      }
      headerChoice := choice;
      choices := choices + [choice];
      i := i + 1;
    }
    MapLoopEnd(HeaderChoiceOf(caseSensitive), tabs, choices, whole);
    return Ok((tabValues, headerChoice));
  }

  /** The loop over one tab's items: extend the input values, then assert they are distinct. */
  method CheckItemsInputs(caseSensitive: Value, items: seq<Value>, selectors: seq<Value>) returns (r: Result<Option<seq<Value>>>)
    ensures r == ItemsInputs(caseSensitive, items, 0, selectors)
  {
    var inputValues := selectors;
    var j := 0;
    while j < |items|
      invariant j <= |items|
      invariant ItemsInputs(caseSensitive, items, 0, selectors) == ItemsInputs(caseSensitive, items, j, inputValues)
    {
      ItemsInputsAt(caseSensitive, items, j, inputValues);
      var entries := PV.Children(items[j], "valid_entries");
      if entries.Err? {
        return Err(entries.error);
      }
      inputValues := inputValues + FoldCase(caseSensitive, entries.value);
      var distinct := AllDistinct(inputValues);
      if distinct.Err? {
        return Err(distinct.error);
      }
      if !distinct.value {
        return Ok(Some(inputValues));
      }
      j := j + 1;
    }
    return Ok(None);
  }

  /** One tab of the second loop: its items are checked against the selectors. */
  method CheckTabInputs(caseSensitive: Value, selectors: seq<Value>, tab: Value) returns (r: Result<Option<seq<Value>>>)
    ensures r == TabInputs(caseSensitive, selectors, tab)
  {
    var items := PV.Children(tab, "items");
    if items.Err? {
      return Err(items.error);
    }
    r := CheckItemsInputs(caseSensitive, items.value, selectors);
  }

  /** The second loop of the input check, over tabs. */
  method CheckTabsInputs(caseSensitive: Value, selectors: seq<Value>, tabs: seq<Value>) returns (r: Result<Option<seq<Value>>>)
    ensures r == TabsInputs(caseSensitive, selectors, tabs)
  {
    ghost var f := TabInputsOf(caseSensitive, selectors);
    var i := 0;
    while i < |tabs|
      invariant i <= |tabs|
      invariant FirstFound(f, tabs, 0) == FirstFound(f, tabs, i)
    {
      var found := CheckTabInputs(caseSensitive, selectors, tabs[i]);
      assert f(tabs[i]) == found;
      FirstFoundStep(f, tabs, i);
      if found.Err? {
        return Err(found.error);
      }
      if found.value.Some? {
        return found;
      }
      i := i + 1;
    }
    return Ok(None);
  }

  /** The set-up statements of the input check, which add the implied `tabs` key to the caller's dict. */
  method PlanInputsInPlace(config: Dict) returns (r: Result<InputPlan>)
    modifies config
    ensures r == PlanInputs(VDict(old(config.entries)))
    ensures config.entries == LS.TabsAdded(old(config.entries))
  {
    var caseSensitive := DictGet(VDict(config.entries), "case_sensitive", VBool(false)).value;
    var tabsValue :- LS.ConfigTabsInPlace(config);
    var tabs :- Iter(tabsValue);
    var selected :- CollectSelectors(caseSensitive, tabs);
    return Ok(InputPlan(caseSensitive, tabs, selected.0, selected.1));
  }

  /**
   * `validate_no_input_value_overlap(config)` (tabbedshellmenus) and
   * `check_accepted_input_overlap(dict_)` (pysimpletabshellmenu); both add
   * the implied `tabs` key to the caller's dict.
   */
  method ValidateNoInputValueOverlap(pkg: Package, config: Dict) returns (r: Result<()>)
    modifies config
    ensures r == InputOverlap(pkg, VDict(old(config.entries)))
    ensures config.entries == LS.TabsAdded(old(config.entries))
  {
    var plan :- PlanInputsInPlace(config);
    var found :- CheckTabsInputs(plan.caseSensitive, plan.selectors, plan.tabs);
    if found.Some? {
      var shown :- Shown(pkg, found.value);
      return Err(Exc(OverlapClass(pkg), InputMessage(plan.lastChoice, shown, plan.caseSensitive)));
    }
    return Ok(());
  }

  // ---------------------------------------------------------------------
  // `validate_all`

  /** The schema step: `validate_schema` must not raise, or `schema_is_valid` must answer True. */
  predicate SchemaGate(pkg: Package, config: Value) {
    match pkg
    case TabbedShellMenus => LS.SchemaWalk(config).Ok?
    case PySimpleTabShellMenu => LS.SchemaVerdict(config) == Ok(true)
  }

  /** `InvalidInputError()`, raised for any exception of the three steps. */
  const Invalid := Exc(InvalidInputError, "")

  /** What `validate_all` raises; the return check sees the dict the input check changed. */
  function ValidateAllResult(pkg: Package, es: seq<(string, Value)>): Result<()> {
    if SchemaGate(pkg, VDict(es)) && InputOverlap(pkg, VDict(es)) == Ok(())
       && ReturnOverlap(pkg, VDict(LS.TabsAdded(es))) == Ok(())
    then Ok(())
    else Err(Invalid)
  }

  /** The caller's dict after `validate_all`. */
  function ValidateAllState(pkg: Package, es: seq<(string, Value)>): seq<(string, Value)> {
    if SchemaGate(pkg, VDict(es)) then LS.TabsAdded(es) else es
  }

  /** `validate_all(config)` of either package. */
  method ValidateAll(pkg: Package, config: Dict) returns (r: Result<()>)
    modifies config
    ensures r == ValidateAllResult(pkg, old(config.entries))
    ensures config.entries == ValidateAllState(pkg, old(config.entries))
  {
    ghost var es := config.entries;
    var passed: bool;
    if pkg == TabbedShellMenus {
      var walked := LS.ValidateSchema(VDict(config.entries));
      passed := walked.Ok?;
    } else {
      var verdict := LS.SchemaIsValid(VDict(config.entries));
      passed := verdict == Ok(true);
    }
    if !passed {
      return Err(Invalid);
    }
    var inputs := ValidateNoInputValueOverlap(pkg, config);
    if inputs.Err? {
      return Err(Invalid);
    }
    LS.ConfigTabsIdempotent(es);
    var rets := ValidateNoReturnValueOverlap(pkg, config);
    if rets.Err? {
      return Err(Invalid);
    }
    return Ok(());
  }

  /** The return check sees the same tabs before and after `_config_tabs` changed the dict. */
  lemma ReturnOverlapAfterTabsAdded(pkg: Package, es: seq<(string, Value)>)
    requires PO.ConfigTabs(VDict(es)).Ok?
    ensures ReturnOverlap(pkg, VDict(LS.TabsAdded(es))) == ReturnOverlap(pkg, VDict(es))
  {
    LS.ConfigTabsIdempotent(es);
  }

  /**
   * `validate_all` accepts exactly the configurations whose every node
   * conforms to the schema and which pass both overlap checks; on any
   * other it raises InvalidInputError, and it leaves the dict untouched
   * when the schema already fails.
   */
  lemma ValidateAllMeaning(pkg: Package, es: seq<(string, Value)>)
    ensures ValidateAllResult(pkg, es).Ok? <==>
      LS.ConfigValid(VDict(es)) && InputOverlap(pkg, VDict(es)) == Ok(()) && ReturnOverlap(pkg, VDict(es)) == Ok(())
    ensures ValidateAllResult(pkg, es).Err? ==> ValidateAllResult(pkg, es).error == Invalid
    ensures ValidateAllState(pkg, es) == if LS.ConfigValid(VDict(es)) then LS.TabsAdded(es) else es
  {
    LS.SchemaWalkMeaning(VDict(es));
    LS.SchemaVerdictMeaning(VDict(es));
    assert SchemaGate(pkg, VDict(es)) <==> LS.ConfigValid(VDict(es));
    if InputOverlap(pkg, VDict(es)) == Ok(()) {
      ReturnOverlapAfterTabsAdded(pkg, es);
    }
  }

  /** Only the class and text of an overlap exception depend on the package. */
  lemma InputOverlapIgnoresPackage(config: Value)
    ensures InputOverlap(TabbedShellMenus, config) == Ok(()) <==> InputOverlap(PySimpleTabShellMenu, config) == Ok(())
  {
    if PlanInputs(config).Ok? {
      InputOverlapRaised(TabbedShellMenus, config);
      InputOverlapRaised(PySimpleTabShellMenu, config);
    }
  }

  lemma ReturnOverlapIgnoresPackage(config: Value)
    ensures ReturnOverlap(TabbedShellMenus, config) == Ok(()) <==> ReturnOverlap(PySimpleTabShellMenu, config) == Ok(())
  {
    if PO.ConfigTabs(config).Ok? && Iter(PO.ConfigTabs(config).value).Ok? {
      var tabs := Iter(PO.ConfigTabs(config).value).value;
      ReturnOverlapMeaning(TabbedShellMenus, config, tabs);
      ReturnOverlapMeaning(PySimpleTabShellMenu, config, tabs);
      forall i | 0 <= i < |tabs|
        ensures ReturnCheckTab(TabbedShellMenus, tabs[i]).Ok? <==> ReturnCheckTab(PySimpleTabShellMenu, tabs[i]).Ok?
      {
        ReturnCheckTabMeaning(TabbedShellMenus, tabs[i]);
        ReturnCheckTabMeaning(PySimpleTabShellMenu, tabs[i]);
      }
    }
  }

  /** The two packages' `validate_all` accept the same configurations and change the dict alike. */
  lemma PackagesAgree(es: seq<(string, Value)>)
    ensures ValidateAllResult(TabbedShellMenus, es) == ValidateAllResult(PySimpleTabShellMenu, es)
    ensures ValidateAllState(TabbedShellMenus, es) == ValidateAllState(PySimpleTabShellMenu, es)
  {
    ValidateAllMeaning(TabbedShellMenus, es);
    ValidateAllMeaning(PySimpleTabShellMenu, es);
    InputOverlapIgnoresPackage(VDict(es));
    ReturnOverlapIgnoresPackage(VDict(es));
  }
}
