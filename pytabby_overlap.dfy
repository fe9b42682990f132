/**
 * The two uniqueness checks of `pytabby`'s validator
 * (src/pytabby/validators.py): repeated return values within a tab, and
 * repeated input tokens within a tab (counting every tab's selector), with
 * case folding when the configuration is not case sensitive.
 *
 * Each check reads the configuration defensively (`.get`, `in keys()`), so
 * that a configuration the schema walk already rejected does not stop it
 * early; the Python operations it still performs can raise, and those
 * exceptions are the `Err` cases here.
 */
module PytabbyOverlap {
  import opened PyValue
  import opened Counter
  import opened PytabbyValidators

  // ---------------------------------------------------------------------
  // Shared pieces

  /** `_config_tabs`: the `tabs` value, or a one-tab list made from the top-level `items`. */
  function ConfigTabs(config: Value): (r: Result<Value>)
    ensures DetermineLayout(config).Err? ==> r == Err(DetermineLayout(config).error)
    ensures DetermineLayout(config) == Ok(SingleWithoutKey) ==>
      && (r.Ok? <==> Lookup(config.entries, "items").Some?)
      && (r.Ok? ==> r.value == VList([VDict([("items", Lookup(config.entries, "items").value)])]))
    ensures DetermineLayout(config).Ok? && DetermineLayout(config).value != SingleWithoutKey ==>
      r == Ok(Lookup(config.entries, "tabs").value)
  {
    var layout :- DetermineLayout(config);
    if layout == SingleWithoutKey then
      var items :- GetKey(config, "items");
      Ok(VList([VDict([("items", items)])]))
    else Ok(Lookup(config.entries, "tabs").value)
  }

  /** The repr of `_count_for_overlap`'s list of `(value, count)` tuples, as the messages format it. */
  function ReprCounts(ms: seq<(Value, nat)>): string {
    Repr(VList(seq(|ms|, i requires 0 <= i < |ms| => VTuple([ms[i].0, VInt(ms[i].1)]))))
  }

  /** `_count_for_overlap` is empty exactly on hashable values without a repeat. */
  lemma CountForOverlapEmpty(vs: seq<Value>)
    ensures CountForOverlap(vs) == Ok([]) <==> (forall i :: 0 <= i < |vs| ==> Hashable(vs[i])) && NoDuplicates(vs)
  {
    if forall i :: 0 <= i < |vs| ==> Hashable(vs[i]) {
      CountForOverlapMeaning(vs);
    }
  }

  /**
   * `[d.get(key, None) for d in ds if d.get(key, None)]`, the shape of both
   * the returns loop and the tab-selector loop; `.get` needs a dict.
   */
  function TruthyGets(ds: seq<Value>, key: string): Result<seq<Value>>
    decreases |ds|
  {
    if ds == [] then Ok([])
    else
      var value :- DictGet(ds[0], key, VNone);
      Prepend(if Truthy(value) then [value] else [], TruthyGets(ds[1..], key))
  }

  /** The gathering fails exactly when some element is not a dict. */
  lemma {:induction false} TruthyGetsOk(ds: seq<Value>, key: string)
    ensures TruthyGets(ds, key).Ok? <==> forall k :: 0 <= k < |ds| ==> ds[k].VDict?
    decreases |ds|
  {
    if ds != [] {
      TruthyGetsOk(ds[1..], key);
      assert forall k :: 1 <= k < |ds| ==> ds[k] == ds[1..][k - 1];
    }
  }

  /** The gathered values are exactly the truthy values stored under `key`. */
  lemma {:induction false} TruthyGetsMembers(ds: seq<Value>, key: string)
    requires TruthyGets(ds, key).Ok?
    ensures forall v :: v in TruthyGets(ds, key).value <==>
      exists k :: 0 <= k < |ds| && DictGet(ds[k], key, VNone) == Ok(v) && Truthy(v)
    decreases |ds|
  {
    if ds != [] {
      var value := DictGet(ds[0], key, VNone).value;
      var here: seq<Value> := if Truthy(value) then [value] else [];
      TruthyGetsMembers(ds[1..], key);
      var rest := TruthyGets(ds[1..], key).value;
      assert TruthyGets(ds, key).value == here + rest;
      forall v | v in here + rest
        ensures exists k :: 0 <= k < |ds| && DictGet(ds[k], key, VNone) == Ok(v) && Truthy(v)
      {
        if v in here {
          assert DictGet(ds[0], key, VNone) == Ok(v);
        } else {
          var k :| 0 <= k < |ds[1..]| && DictGet(ds[1..][k], key, VNone) == Ok(v) && Truthy(v);
          assert DictGet(ds[k + 1], key, VNone) == Ok(v);
        }
      }
      forall v | exists k :: 0 <= k < |ds| && DictGet(ds[k], key, VNone) == Ok(v) && Truthy(v)
        ensures v in here + rest
      {
        var k :| 0 <= k < |ds| && DictGet(ds[k], key, VNone) == Ok(v) && Truthy(v);
        if k == 0 {
          assert v in here;
        } else {
          assert DictGet(ds[1..][k - 1], key, VNone) == Ok(v);
        }
      }
    }
  }

  ghost predicate TruthySoFar(ds: seq<Value>, key: string, k: nat, got: seq<Value>) {
    k <= |ds| && TruthyGets(ds, key) == Prepend(got, TruthyGets(ds[k..], key))
  }

  lemma TruthyLoopStart(ds: seq<Value>, key: string)
    ensures TruthySoFar(ds, key, 0, [])
  {
    assert ds[0..] == ds;
    PrependNothing(TruthyGets(ds, key));
  }

  lemma TruthyLoopErr(ds: seq<Value>, key: string, k: nat, got: seq<Value>)
    requires TruthySoFar(ds, key, k, got) && k < |ds| && DictGet(ds[k], key, VNone).Err?
    ensures TruthyGets(ds, key) == Err(DictGet(ds[k], key, VNone).error)
  {
    assert ds[k..][0] == ds[k];
  }

  lemma TruthyLoopNext(ds: seq<Value>, key: string, k: nat, got: seq<Value>, value: Value)
    requires TruthySoFar(ds, key, k, got) && k < |ds| && DictGet(ds[k], key, VNone) == Ok(value)
    ensures Truthy(value) ==> TruthySoFar(ds, key, k + 1, got + [value])
    ensures !Truthy(value) ==> TruthySoFar(ds, key, k + 1, got)
  {
    assert ds[k..][0] == ds[k];
    assert ds[k..][1..] == ds[k + 1..];
    var rest := TruthyGets(ds[k + 1..], key);
    if Truthy(value) {
      PrependTwice(got, [value], rest);
    } else {
      PrependNothing(rest);
    }
  }

  lemma TruthyLoopEnd(ds: seq<Value>, key: string, got: seq<Value>)
    requires TruthySoFar(ds, key, |ds|, got)
    ensures TruthyGets(ds, key) == Ok(got)
  {
    assert ds[|ds|..] == [];
    assert got + [] == got;
  }

  /** The loop over `ds`, appending each truthy `d.get(key, None)`. */
  method CollectTruthyGets(ds: seq<Value>, key: string) returns (r: Result<seq<Value>>)
    ensures r == TruthyGets(ds, key)
  {
    var got: seq<Value> := [];
    var k := 0;
    TruthyLoopStart(ds, key);
    while k < |ds|
      invariant TruthySoFar(ds, key, k, got)
    {
      var value := DictGet(ds[k], key, VNone);
      if value.Err? {
        TruthyLoopErr(ds, key, k, got);
        return Err(value.error);
      }
      TruthyLoopNext(ds, key, k, got, value.value);
      if Truthy(value.value) {
        got := got + [value.value];
      }
      k := k + 1;
    }
    TruthyLoopEnd(ds, key, got);
    return Ok(got);
  }

  /**
   * The loop over tabs shared by both checks: `check(i, tab)` is one
   * iteration, which may raise, append one message, or append nothing.
   */
  function GatherFrom(check: (nat, Value) -> Result<Option<string>>, tabs: seq<Value>, i: nat): Result<seq<string>>
    decreases |tabs| - i
  {
    if i >= |tabs| then Ok([])
    else
      var m :- check(i, tabs[i]);
      Prepend(if m.Some? then [m.value] else [], GatherFrom(check, tabs, i + 1))
  }

  /** The loop succeeds exactly when every iteration does, and appends at most one message per tab. */
  lemma {:induction false} GatherFromOk(check: (nat, Value) -> Result<Option<string>>, tabs: seq<Value>, i: nat)
    requires i <= |tabs|
    ensures GatherFrom(check, tabs, i).Ok? <==> forall k :: i <= k < |tabs| ==> check(k, tabs[k]).Ok?
    ensures GatherFrom(check, tabs, i).Ok? ==> |GatherFrom(check, tabs, i).value| <= |tabs| - i
    decreases |tabs| - i
  {
    if i < |tabs| {
      GatherFromOk(check, tabs, i + 1);
      if check(i, tabs[i]).Err? {
        assert GatherFrom(check, tabs, i) == Err(check(i, tabs[i]).error);
      } else {
        var m := check(i, tabs[i]).value;
        assert GatherFrom(check, tabs, i) == Prepend(if m.Some? then [m.value] else [], GatherFrom(check, tabs, i + 1));
      }
    }
  }

  /** No message at all exactly when no iteration reports. */
  lemma {:induction false} GatherFromEmpty(check: (nat, Value) -> Result<Option<string>>, tabs: seq<Value>, i: nat)
    ensures GatherFrom(check, tabs, i) == Ok([]) <==> forall k :: i <= k < |tabs| ==> check(k, tabs[k]) == Ok(None)
    decreases |tabs| - i
  {
    if i < |tabs| {
      GatherFromEmpty(check, tabs, i + 1);
    }
  }

  /** A reporting iteration's message is in the result, in its tab's order. */
  lemma {:induction false} GatherFromReports(check: (nat, Value) -> Result<Option<string>>, tabs: seq<Value>, i: nat, k: nat)
    requires i <= k < |tabs| && GatherFrom(check, tabs, i).Ok? && check(k, tabs[k]).Ok? && check(k, tabs[k]).value.Some?
    ensures check(k, tabs[k]).value.value in GatherFrom(check, tabs, i).value
    decreases k - i
  {
    if i < k {
      GatherFromReports(check, tabs, i + 1, k);
    }
  }

  /**
   * The invariant of both loops over tabs: `out` holds the messages so far
   * and the remaining tabs produce the rest of `msgs + whole`.
   */
  ghost predicate TabsSoFar(whole: Result<seq<string>>, msgs: seq<string>,
                            check: (nat, Value) -> Result<Option<string>>, tabs: seq<Value>, i: nat, out: seq<string>) {
    i <= |tabs| && Prepend(msgs, whole) == Prepend(out, GatherFrom(check, tabs, i))
  }

  lemma TabsLoopErr(whole: Result<seq<string>>, msgs: seq<string>,
                    check: (nat, Value) -> Result<Option<string>>, tabs: seq<Value>, i: nat, out: seq<string>, e: Exc)
    requires TabsSoFar(whole, msgs, check, tabs, i, out) && i < |tabs| && check(i, tabs[i]) == Err(e)
    ensures Prepend(msgs, whole) == Err(e)
  {
  }

  lemma TabsLoopNext(whole: Result<seq<string>>, msgs: seq<string>,
                     check: (nat, Value) -> Result<Option<string>>, tabs: seq<Value>, i: nat, out: seq<string>, m: Option<string>)
    requires TabsSoFar(whole, msgs, check, tabs, i, out) && i < |tabs| && check(i, tabs[i]) == Ok(m)
    ensures m.None? ==> TabsSoFar(whole, msgs, check, tabs, i + 1, out)
    ensures m.Some? ==> TabsSoFar(whole, msgs, check, tabs, i + 1, out + [m.value])
  {
    var rest := GatherFrom(check, tabs, i + 1);
    if m.None? {
      PrependNothing(rest);
    } else {
      PrependTwice(out, [m.value], rest);
    }
  }

  lemma TabsLoopEnd(whole: Result<seq<string>>, msgs: seq<string>,
                    check: (nat, Value) -> Result<Option<string>>, tabs: seq<Value>, out: seq<string>)
    requires TabsSoFar(whole, msgs, check, tabs, |tabs|, out)
    ensures Prepend(msgs, whole) == Ok(out)
  {
    assert out + [] == out;
  }

  // ---------------------------------------------------------------------
  // Repeated return values

  /** The returns a tab contributes: the truthy `item_returns` of its items, none without an `items` key. */
  function TabReturnValues(tab: Value): (r: Result<seq<Value>>)
    ensures r.Ok? ==> tab.VDict?
  {
    var hasItems :- HasKey(tab, "items");
    if hasItems then
      var items :- Children(tab, "items");
      TruthyGets(items, "item_returns")
    else Ok([])
  }

  /** The message for a tab with repeated returns; only a multi-tab tab has a selector key. */
  function ReturnMessage(i: nat, tab: Value, multiples: seq<(Value, nat)>): string
    requires tab.VDict?
  {
    if Lookup(tab.entries, "tab_header_input").Some? then
      "In tab#" + IntToString(i) + ", there are repeated return values: " + ReprCounts(multiples) + "."
    else "In the single tab, there are repeated return values: " + ReprCounts(multiples)
  }

  /**
   * One iteration of `_validate_no_return_value_overlap`'s loop over tabs:
   * it passes only when the tab's returns can be gathered and hashed, and
   * is then silent exactly when no two of them are equal.
   */
  function ReturnCheckTab(i: nat, tab: Value): (r: Result<Option<string>>)
    ensures r.Ok? ==> TabReturnValues(tab).Ok?
    ensures r.Ok? ==> forall v :: v in TabReturnValues(tab).value ==> Hashable(v)
    ensures r.Ok? ==> (r.value.None? <==> NoDuplicates(TabReturnValues(tab).value))
  {
    var rets :- TabReturnValues(tab);
    CountForOverlapEmpty(rets);
    var multiples :- CountForOverlap(rets);
    if multiples == [] then Ok(None) else Ok(Some(ReturnMessage(i, tab, multiples)))
  }

  /**
   * Given a tab's returns, its check succeeds when they can be hashed, is
   * silent exactly when no two are equal, and otherwise lists the repeated
   * ones; a tab whose returns cannot be gathered raises.
   */
  lemma ReturnCheckTabMeaning(i: nat, tab: Value, rets: seq<Value>)
    requires TabReturnValues(tab) == Ok(rets)
    ensures ReturnCheckTab(i, tab).Ok? <==> forall v :: v in rets ==> Hashable(v)
    ensures ReturnCheckTab(i, tab) == Ok(None) <==> (forall v :: v in rets ==> Hashable(v)) && NoDuplicates(rets)
    ensures ReturnCheckTab(i, tab).Ok? && ReturnCheckTab(i, tab).value.Some? ==>
      ReturnCheckTab(i, tab).value.value == ReturnMessage(i, tab, Repeated(rets))
  {
    CountForOverlapEmpty(rets);
  }

  lemma ReturnCheckTabRaises(i: nat, tab: Value)
    requires TabReturnValues(tab).Err?
    ensures ReturnCheckTab(i, tab) == Err(TabReturnValues(tab).error)
  {
  }

  /** What `_validate_no_return_value_overlap` appends. */
  function ReturnOverlapMessages(config: Value): Result<seq<string>> {
    var tabsValue :- ConfigTabs(config);
    var tabs :- Iter(tabsValue);
    GatherFrom(ReturnCheckTab, tabs, 0)
  }

  /**
   * The check is per tab: when every tab's returns are hashable and pairwise
   * distinct, nothing is reported, even if two tabs return the same value.
   */
  lemma ReturnsPerTabOnly(tabs: seq<Value>)
    requires forall k :: 0 <= k < |tabs| ==>
      TabReturnValues(tabs[k]).Ok?
      && (forall v :: v in TabReturnValues(tabs[k]).value ==> Hashable(v))
      && NoDuplicates(TabReturnValues(tabs[k]).value)
    ensures GatherFrom(ReturnCheckTab, tabs, 0) == Ok([])
  {
    forall k | 0 <= k < |tabs|
      ensures ReturnCheckTab(k, tabs[k]) == Ok(None)
    {
      ReturnCheckTabMeaning(k, tabs[k], TabReturnValues(tabs[k]).value);
    }
    GatherFromEmpty(ReturnCheckTab, tabs, 0);
  }

  /** One tab: `if "items" in tab.keys(): for item in tab["items"]: ...`. */
  method CollectReturns(tab: Value) returns (r: Result<seq<Value>>)
    ensures r == TabReturnValues(tab)
  {
    var hasItems :- HasKey(tab, "items");
    if !hasItems {
      return Ok([]);
    }
    var items :- Children(tab, "items");
    r := CollectTruthyGets(items, "item_returns");
  }

  /** `_validate_no_return_value_overlap`: the loop over tabs. */
  method ValidateNoReturnValueOverlap(msgs: seq<string>, config: Value) returns (r: Result<seq<string>>)
    ensures r == Prepend(msgs, ReturnOverlapMessages(config))
  {
    var tabsValue :- ConfigTabs(config);
    var tabs :- Iter(tabsValue);
    ghost var whole := ReturnOverlapMessages(config);
    var out := msgs;
    var i := 0;
    while i < |tabs|
      invariant TabsSoFar(whole, msgs, ReturnCheckTab, tabs, i, out)
    {
      var rets := CollectReturns(tabs[i]);
      if rets.Err? {
        TabsLoopErr(whole, msgs, ReturnCheckTab, tabs, i, out, rets.error);
        return Err(rets.error);
      }
      var multiples := CountForOverlap(rets.value);
      if multiples.Err? {
        TabsLoopErr(whole, msgs, ReturnCheckTab, tabs, i, out, multiples.error);
        return Err(multiples.error);
      }
      if multiples.value != [] {
        var m := ReturnMessage(i, tabs[i], multiples.value);
        TabsLoopNext(whole, msgs, ReturnCheckTab, tabs, i, out, Some(m));
        out := out + [m];
      } else {
        TabsLoopNext(whole, msgs, ReturnCheckTab, tabs, i, out, None);
      }
      i := i + 1;
    }
    TabsLoopEnd(whole, msgs, ReturnCheckTab, tabs, out);
    return Ok(out);
  }

  // ---------------------------------------------------------------------
  // Repeated input values

  /** The entries of every item's `item_inputs`, in order; an item without that key contributes nothing. */
  function TabInputs(items: seq<Value>): Result<seq<Value>>
    decreases |items|
  {
    if items == [] then Ok([])
    else
      var has :- HasKey(items[0], "item_inputs");
      if has then
        var entries :- Children(items[0], "item_inputs");
        Prepend(entries, TabInputs(items[1..]))
      else TabInputs(items[1..])
  }

  /** Every entry gathered comes from some item's `item_inputs`, and every such entry is gathered. */
  lemma {:induction false} TabInputsMembers(items: seq<Value>)
    requires TabInputs(items).Ok?
    ensures forall x :: x in TabInputs(items).value <==>
      exists k :: 0 <= k < |items| && Children(items[k], "item_inputs").Ok? && x in Children(items[k], "item_inputs").value
    decreases |items|
  {
    if items != [] {
      TabInputsMembers(items[1..]);
      var rest := TabInputs(items[1..]).value;
      var here: seq<Value> := if Lookup(items[0].entries, "item_inputs").Some? then Children(items[0], "item_inputs").value else [];
      assert TabInputs(items).value == here + rest;
      assert Lookup(items[0].entries, "item_inputs").None? ==> Children(items[0], "item_inputs").Err?;
      forall x | x in here + rest
        ensures exists k :: 0 <= k < |items| && Children(items[k], "item_inputs").Ok? && x in Children(items[k], "item_inputs").value
      {
        if x in here {
          assert Children(items[0], "item_inputs").Ok?;
        } else {
          var k :| 0 <= k < |items[1..]| && Children(items[1..][k], "item_inputs").Ok? && x in Children(items[1..][k], "item_inputs").value;
          assert items[1..][k] == items[k + 1];
        }
      }
      forall x | exists k :: 0 <= k < |items| && Children(items[k], "item_inputs").Ok? && x in Children(items[k], "item_inputs").value
        ensures x in here + rest
      {
        var k :| 0 <= k < |items| && Children(items[k], "item_inputs").Ok? && x in Children(items[k], "item_inputs").value;
        if k > 0 {
          assert items[1..][k - 1] == items[k];
        }
      }
    }
  }

  ghost predicate InputsSoFar(starting: seq<Value>, items: seq<Value>, j: nat, choices: seq<Value>) {
    j <= |items| && Prepend(starting, TabInputs(items)) == Prepend(choices, TabInputs(items[j..]))
  }

  lemma InputsLoopStart(starting: seq<Value>, items: seq<Value>)
    ensures InputsSoFar(starting, items, 0, starting)
  {
    assert items[0..] == items;
  }

  lemma InputsLoopErr(starting: seq<Value>, items: seq<Value>, j: nat, choices: seq<Value>, e: Exc)
    requires InputsSoFar(starting, items, j, choices) && j < |items|
    requires HasKey(items[j], "item_inputs") == Err(e)
             || (HasKey(items[j], "item_inputs") == Ok(true) && Children(items[j], "item_inputs") == Err(e))
    ensures Prepend(starting, TabInputs(items)) == Err(e)
  {
    assert items[j..][0] == items[j];
  }

  lemma InputsLoopSkip(starting: seq<Value>, items: seq<Value>, j: nat, choices: seq<Value>)
    requires InputsSoFar(starting, items, j, choices) && j < |items| && HasKey(items[j], "item_inputs") == Ok(false)
    ensures InputsSoFar(starting, items, j + 1, choices)
  {
    assert items[j..][0] == items[j];
    assert items[j..][1..] == items[j + 1..];
  }

  lemma InputsLoopTake(starting: seq<Value>, items: seq<Value>, j: nat, choices: seq<Value>, entries: seq<Value>)
    requires InputsSoFar(starting, items, j, choices) && j < |items|
    requires HasKey(items[j], "item_inputs") == Ok(true) && Children(items[j], "item_inputs") == Ok(entries)
    ensures InputsSoFar(starting, items, j + 1, choices + entries)
  {
    assert items[j..][0] == items[j];
    assert items[j..][1..] == items[j + 1..];
    PrependTwice(choices, entries, TabInputs(items[j + 1..]));
  }

  lemma InputsLoopEnd(starting: seq<Value>, items: seq<Value>, choices: seq<Value>)
    requires InputsSoFar(starting, items, |items|, choices)
    ensures TabInputs(items).Ok? && choices == starting + TabInputs(items).value
  {
    assert items[|items|..] == [];
    assert choices + [] == choices;
  }

  /** `[str(choice).lower() for choice in choices]`. */
  function LowerAll(choices: seq<Value>): (r: seq<Value>)
    ensures |r| == |choices|
    ensures forall k :: 0 <= k < |r| ==> r[k] == VStr(Lower(Str(choices[k])))
  {
    seq(|choices|, k requires 0 <= k < |choices| => VStr(Lower(Str(choices[k]))))
  }

  /** A tab's candidates: the starting choices, then its items' inputs, folded when not case sensitive. */
  function TabChoices(starting: seq<Value>, tab: Value, caseSensitive: Value): Result<seq<Value>> {
    var hasItems :- HasKey(tab, "items");
    if !hasItems then Ok(starting)
    else
      var items :- Children(tab, "items");
      var inputs :- TabInputs(items);
      var choices := starting + inputs;
      Ok(if Truthy(caseSensitive) then choices else LowerAll(choices))
  }

  /**
   * The starting choices lead a tab's candidates unchanged, or lower-cased
   * when the configuration is not case sensitive and the tab has items; a
   * tab without items keeps them as they are.
   */
  lemma TabChoicesStart(starting: seq<Value>, tab: Value, caseSensitive: Value)
    requires TabChoices(starting, tab, caseSensitive).Ok?
    ensures var c := TabChoices(starting, tab, caseSensitive).value;
      && tab.VDict?
      && |starting| <= |c|
      && (Lookup(tab.entries, "items").None? ==> c == starting)
      && forall a :: 0 <= a < |starting| ==>
           c[a] == (if Lookup(tab.entries, "items").Some? && !Truthy(caseSensitive)
                    then VStr(Lower(Str(starting[a]))) else starting[a])
  {
  }

  /** With case folding, every candidate is a lower-case string, so tokens differing only in case collide. */
  lemma TabChoicesFolded(starting: seq<Value>, tab: Value, caseSensitive: Value)
    requires TabChoices(starting, tab, caseSensitive).Ok? && !Truthy(caseSensitive)
    requires tab.VDict? && Lookup(tab.entries, "items").Some?
    ensures forall x :: x in TabChoices(starting, tab, caseSensitive).value ==> x.VStr? && Lower(x.s) == x.s
  {
    var c := TabChoices(starting, tab, caseSensitive).value;
    forall x | x in c
      ensures x.VStr? && Lower(x.s) == x.s
    {
      var k :| 0 <= k < |c| && c[k] == x;
      LowerIdempotent(Str((starting + TabInputs(Children(tab, "items").value).value)[k]));
    }
  }

  const CaseNote := " Note case sensitive is false, so values have been changed to lower-case, which can create overlap"

  function CaseNoteFor(caseSensitive: Value): string {
    if Truthy(caseSensitive) then "" else CaseNote
  }

  function InputMessage(layout: Layout, i: nat, multiples: seq<(Value, nat)>, caseSensitive: Value): string {
    if layout == Multiple then
      "In tab#" + IntToString(i) + ", there are repeated input values including tab selectors: "
      + ReprCounts(multiples) + "." + CaseNoteFor(caseSensitive)
    else "In single tab, there are repeated input values: " + ReprCounts(multiples) + "." + CaseNoteFor(caseSensitive)
  }

  /** The case-folding note ends a message exactly when the configuration is not case sensitive. */
  lemma InputMessageNote(layout: Layout, i: nat, multiples: seq<(Value, nat)>, caseSensitive: Value)
    ensures var m := InputMessage(layout, i, multiples, caseSensitive);
      && (!Truthy(caseSensitive) <==> |m| >= |CaseNote| && m[|m| - |CaseNote|..] == CaseNote)
      && (Truthy(caseSensitive) ==> m[|m| - 1] == '.')
  {
    var m := InputMessage(layout, i, multiples, caseSensitive);
    if Truthy(caseSensitive) {
      assert m[|m| - 1] == '.';
      if |m| >= |CaseNote| {
        assert m[|m| - |CaseNote|..][|CaseNote| - 1] == m[|m| - 1];
        assert CaseNote[|CaseNote| - 1] == 'p';
      }
    }
  }

  /**
   * One iteration of `_validate_no_input_value_overlap`'s loop over tabs: it
   * passes only when the tab's candidates can be gathered and hashed, and is
   * then silent exactly when no two of them are equal.
   */
  function InputCheckTab(layout: Layout, starting: seq<Value>, caseSensitive: Value, i: nat, tab: Value)
    : (r: Result<Option<string>>)
    ensures r.Ok? ==> TabChoices(starting, tab, caseSensitive).Ok?
    ensures r.Ok? ==> forall v :: v in TabChoices(starting, tab, caseSensitive).value ==> Hashable(v)
    ensures r.Ok? ==> (r.value.None? <==> NoDuplicates(TabChoices(starting, tab, caseSensitive).value))
  {
    var choices :- TabChoices(starting, tab, caseSensitive);
    CountForOverlapEmpty(choices);
    var multiples :- CountForOverlap(choices);
    if multiples == [] then Ok(None) else Ok(Some(InputMessage(layout, i, multiples, caseSensitive)))
  }

  function InputCheck(layout: Layout, starting: seq<Value>, caseSensitive: Value): (nat, Value) -> Result<Option<string>> {
    (i: nat, tab: Value) => InputCheckTab(layout, starting, caseSensitive, i, tab)
  }

  /**
   * Given a tab's candidates, its check succeeds when they can be hashed, is
   * silent exactly when no two are equal, and otherwise lists the repeated
   * ones.
   */
  lemma InputCheckTabMeaning(layout: Layout, starting: seq<Value>, caseSensitive: Value, i: nat, tab: Value, choices: seq<Value>)
    requires TabChoices(starting, tab, caseSensitive) == Ok(choices)
    ensures InputCheckTab(layout, starting, caseSensitive, i, tab).Ok? <==> forall v :: v in choices ==> Hashable(v)
    ensures InputCheckTab(layout, starting, caseSensitive, i, tab) == Ok(None) <==>
      (forall v :: v in choices ==> Hashable(v)) && NoDuplicates(choices)
    ensures InputCheckTab(layout, starting, caseSensitive, i, tab).Ok? && InputCheckTab(layout, starting, caseSensitive, i, tab).value.Some? ==>
      InputCheckTab(layout, starting, caseSensitive, i, tab).value.value == InputMessage(layout, i, Repeated(choices), caseSensitive)
  {
    CountForOverlapEmpty(choices);
  }

  /**
   * The set-up of `_validate_no_input_value_overlap`: the case sensitivity,
   * the layout, the tabs and the starting choices (the tab selectors of a
   * multi-tab configuration, none otherwise).
   */
  datatype InputPlan = InputPlan(caseSensitive: Value, layout: Layout, tabs: seq<Value>, starting: seq<Value>)

  function PlanInputs(config: Value): Result<InputPlan> {
    var caseSensitive :- DictGet(config, "case_sensitive", VBool(false));
    var layout :- DetermineLayout(config);
    var tabsValue :- ConfigTabs(config);
    var tabs :- Iter(tabsValue);
    var starting :- if layout == Multiple then TruthyGets(tabs, "tab_header_input") else Ok([]);
    Ok(InputPlan(caseSensitive, layout, tabs, starting))
  }

  /** What `_validate_no_input_value_overlap` appends. */
  function InputOverlapMessages(config: Value): Result<seq<string>> {
    var plan :- PlanInputs(config);
    GatherFrom(InputCheck(plan.layout, plan.starting, plan.caseSensitive), plan.tabs, 0)
  }

  /**
   * In a multi-tab configuration every tab's truthy selector is among the
   * starting choices, which lead every tab's candidates: a tab whose own
   * input equals any selector is reported.
   */
  lemma SelectorsAreStartingChoices(tabs: seq<Value>, k: nat)
    requires TruthyGets(tabs, "tab_header_input").Ok? && k < |tabs| && tabs[k].VDict?
    requires Truthy(DictGet(tabs[k], "tab_header_input", VNone).value)
    ensures DictGet(tabs[k], "tab_header_input", VNone).value in TruthyGets(tabs, "tab_header_input").value
  {
    var h := DictGet(tabs[k], "tab_header_input", VNone).value;
    TruthyGetsMembers(tabs, "tab_header_input");
    assert DictGet(tabs[k], "tab_header_input", VNone) == Ok(h) && Truthy(h);
  }

  /** `for entry in entries: choices.append(entry)`. */
  method AppendEach(choices: seq<Value>, entries: seq<Value>) returns (out: seq<Value>)
    ensures out == choices + entries
  {
    out := choices;
    var e := 0;
    while e < |entries|
      invariant e <= |entries|
      invariant out == choices + entries[..e]
    {
      assert entries[..e + 1] == entries[..e] + [entries[e]];
      out := out + [entries[e]];
      e := e + 1;
    }
    assert entries[..e] == entries;
  }

  /** One tab: the starting choices, then the loops over items and their entries, then the case folding. */
  method CollectTabChoices(starting: seq<Value>, tab: Value, caseSensitive: Value) returns (r: Result<seq<Value>>)
    ensures r == TabChoices(starting, tab, caseSensitive)
  {
    var hasItems :- HasKey(tab, "items");
    if !hasItems {
      return Ok(starting);
    }
    var items :- Children(tab, "items");
    var choices := starting;
    var j := 0;
    InputsLoopStart(starting, items);
    while j < |items|
      invariant InputsSoFar(starting, items, j, choices)
    {
      var has := HasKey(items[j], "item_inputs");
      if has.Err? {
        InputsLoopErr(starting, items, j, choices, has.error);
        return Err(has.error);
      }
      if has.value {
        var entries := Children(items[j], "item_inputs");
        if entries.Err? {
          InputsLoopErr(starting, items, j, choices, entries.error);
          return Err(entries.error);
        }
        InputsLoopTake(starting, items, j, choices, entries.value);
        choices := AppendEach(choices, entries.value);
      } else {
        InputsLoopSkip(starting, items, j, choices);
      }
      j := j + 1;
    }
    InputsLoopEnd(starting, items, choices);
    if !Truthy(caseSensitive) {
      choices := LowerAll(choices);
    }
    return Ok(choices);
  }

  /** The set-up statements of `_validate_no_input_value_overlap`. */
  method ComputeInputPlan(config: Value) returns (r: Result<InputPlan>)
    ensures r == PlanInputs(config)
  {
    var caseSensitive :- DictGet(config, "case_sensitive", VBool(false));
    var layout :- DetermineLayout(config);
    var tabsValue :- ConfigTabs(config);
    var tabs :- Iter(tabsValue);
    var starting: seq<Value> := [];
    if layout == Multiple {
      starting :- CollectTruthyGets(tabs, "tab_header_input");
    }
    return Ok(InputPlan(caseSensitive, layout, tabs, starting));
  }

  /** The body of the loop over tabs for one tab. */
  method CheckInputTab(layout: Layout, starting: seq<Value>, caseSensitive: Value, i: nat, tab: Value)
    returns (r: Result<Option<string>>)
    ensures r == InputCheckTab(layout, starting, caseSensitive, i, tab)
  {
    var choices :- CollectTabChoices(starting, tab, caseSensitive);
    var multiples :- CountForOverlap(choices);
    if multiples != [] {
      return Ok(Some(InputMessage(layout, i, multiples, caseSensitive)));
    }
    return Ok(None);
  }

  /** `_validate_no_input_value_overlap`. */
  method ValidateNoInputValueOverlap(msgs: seq<string>, config: Value) returns (r: Result<seq<string>>)
    ensures r == Prepend(msgs, InputOverlapMessages(config))
  {
    var plan :- ComputeInputPlan(config);
    var tabs := plan.tabs;
    ghost var whole := InputOverlapMessages(config);
    ghost var check := InputCheck(plan.layout, plan.starting, plan.caseSensitive);
    var out := msgs;
    var i := 0;
    while i < |tabs|
      invariant TabsSoFar(whole, msgs, check, tabs, i, out)
    {
      var m := CheckInputTab(plan.layout, plan.starting, plan.caseSensitive, i, tabs[i]);
      assert check(i, tabs[i]) == m;
      if m.Err? {
        TabsLoopErr(whole, msgs, check, tabs, i, out, m.error);
        return Err(m.error);
      }
      TabsLoopNext(whole, msgs, check, tabs, i, out, m.value);
      if m.value.Some? {
        out := out + [m.value.value];
      }
      i := i + 1;
    }
    TabsLoopEnd(whole, msgs, check, tabs, out);
    return Ok(out);
  }
}
