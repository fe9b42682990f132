/**
 * The per-tab input table of src/tabbedshellmenus/tab.py. Every tab selector
 * at position `i` maps to "change to tab i", every entry of every item's
 * inputs maps to "return the item's value", and anything else is invalid.
 * The table is built by one pass over the selectors and then one over the
 * items, so a later insertion under the same key replaces an earlier one.
 *
 * A tab is read from the normalized configuration (`NTab` under pytabby's
 * key names); a field the walk never wrote is a missing dict key.
 */
module TabTable {
  import opened PyValue
  import opened NormalizerCore

  /** `{"type": "change_tab", "new_number": i}`, `{"type": "return", "return_value": v}`, `{"type": "invalid"}`. */
  datatype Outcome = ChangeTab(newNumber: nat) | Return(value: string) | Invalid

  type Table = map<string, Outcome>

  // ---------------------------------------------------------------------
  // The table, as the loops of `_parse_items` build it

  /** `for i, selector in enumerate(self.selectors)` from position `i` on. */
  function AddSelectors(m: Table, sel: seq<string>, i: nat): (r: Table)
    ensures m.Keys <= r.Keys
    ensures forall x :: x in r ==> r[x].ChangeTab? || (x in m && r[x] == m[x])
    decreases |sel| - i
  {
    if i >= |sel| then m else AddSelectors(m[sel[i] := ChangeTab(i)], sel, i + 1)
  }

  /** `for entry in item["item_inputs"]` from position `k` on; `item["item_returns"]` is read once per entry. */
  function AddEntries(m: Table, entries: seq<string>, ret: Option<string>, k: nat): (r: Result<Table>)
    ensures r.Err? ==> r.error == MissingKey("item_returns")
    ensures r.Ok? ==> m.Keys <= r.value.Keys
    decreases |entries| - k
  {
    if k >= |entries| then Ok(m)
    else if ret.None? then Err(MissingKey("item_returns"))
    else AddEntries(m[entries[k] := Return(ret.value)], entries, ret, k + 1)
  }

  /** `for item in items` from position `j` on. */
  function AddItems(m: Table, items: seq<NItem>, j: nat): (r: Result<Table>)
    ensures r.Err? ==> r.error == MissingKey("item_inputs") || r.error == MissingKey("item_returns")
    ensures r.Ok? ==> m.Keys <= r.value.Keys
    decreases |items| - j
  {
    if j >= |items| then Ok(m)
    else if items[j].inputs.None? then Err(MissingKey("item_inputs"))
    else
      var next :- AddEntries(m, items[j].inputs.value, items[j].returnValue, 0);
      AddItems(next, items, j + 1)
  }

  /**
   * `_parse_items`: the selectors, then the items' inputs. It raises
   * KeyError exactly when some item lacks inputs, or has inputs but no
   * return value.
   */
  function ParseItems(selectors: seq<string>, items: seq<NItem>): (r: Result<Table>)
    ensures r.Ok? <==> ItemsComplete(items, 0)
  {
    AddItemsOk(AddSelectors(map[], selectors, 0), items, 0);
    AddItems(AddSelectors(map[], selectors, 0), items, 0)
  }

  /**
   * `Tab(tab_dict, tab_selectors)`: `tab_dict["items"]` must exist. The table
   * is built exactly when the tab has complete items; otherwise a KeyError.
   */
  function TabTableOf(t: NTab, selectors: seq<string>): (r: Result<Table>)
    ensures r.Ok? <==> t.items.Some? && ItemsComplete(t.items.value, 0)
    ensures r.Err? ==> r.error.cls == KeyError
  {
    if t.items.None? then Err(MissingKey("items")) else ParseItems(selectors, t.items.value)
  }

  /** `process_input`: the stored outcome, or invalid for a string the table does not hold. */
  function Process(table: Table, s: string): (r: Outcome)
    ensures s in table ==> r == table[s]
    ensures s !in table ==> r == Invalid
  {
    if s in table then table[s] else Invalid
  }

  // ---------------------------------------------------------------------
  // The table, read declaratively

  function InputsOf(it: NItem): seq<string> {
    if it.inputs.Some? then it.inputs.value else []
  }

  /** Every item from position `j` on has inputs, and a return value whenever its inputs are non-empty. */
  predicate ItemsComplete(items: seq<NItem>, j: nat) {
    forall q :: j <= q < |items| ==> items[q].inputs.Some? && (|items[q].inputs.value| > 0 ==> items[q].returnValue.Some?)
  }

  /** Some item from position `j` on lists `x` among its inputs. */
  predicate InItemsFrom(items: seq<NItem>, j: nat, x: string) {
    exists q :: j <= q < |items| && x in InputsOf(items[q])
  }

  /** The position of the last item from `j` on that lists `x`. */
  function LastItemFrom(items: seq<NItem>, j: nat, x: string): (q: nat)
    requires InItemsFrom(items, j, x)
    ensures j <= q < |items| && x in InputsOf(items[q]) && !InItemsFrom(items, q + 1, x)
    decreases |items| - j
  {
    if InItemsFrom(items, j + 1, x) then LastItemFrom(items, j + 1, x) else j
  }

  /** Some selector from position `i` on is `x`. */
  predicate InSelectorsFrom(sel: seq<string>, i: nat, x: string) {
    exists k :: i <= k < |sel| && sel[k] == x
  }

  /** The position of the last selector from `i` on that is `x`. */
  function LastSelectorFrom(sel: seq<string>, i: nat, x: string): (k: nat)
    requires InSelectorsFrom(sel, i, x)
    ensures i <= k < |sel| && sel[k] == x && !InSelectorsFrom(sel, k + 1, x)
    decreases |sel| - i
  {
    if InSelectorsFrom(sel, i + 1, x) then LastSelectorFrom(sel, i + 1, x) else i
  }

  lemma {:induction false} AddSelectorsMeaning(m: Table, sel: seq<string>, i: nat)
    requires i <= |sel|
    ensures var r := AddSelectors(m, sel, i);
      && r.Keys == m.Keys + (set k | i <= k < |sel| :: sel[k])
      && forall x :: x in r ==>
           r[x] == if InSelectorsFrom(sel, i, x) then ChangeTab(LastSelectorFrom(sel, i, x)) else m[x]
    decreases |sel| - i
  {
    if i < |sel| {
      var m' := m[sel[i] := ChangeTab(i)];
      var r := AddSelectors(m', sel, i + 1);
      assert AddSelectors(m, sel, i) == r;
      AddSelectorsMeaning(m', sel, i + 1);
      assert (set k | i <= k < |sel| :: sel[k]) == {sel[i]} + (set k | i + 1 <= k < |sel| :: sel[k]);
      forall x | x in r
        ensures r[x] == if InSelectorsFrom(sel, i, x) then ChangeTab(LastSelectorFrom(sel, i, x)) else m[x]
      {
        if InSelectorsFrom(sel, i + 1, x) {
          assert InSelectorsFrom(sel, i, x);
        } else if x == sel[i] {
          assert InSelectorsFrom(sel, i, x);
        } else {
          assert !InSelectorsFrom(sel, i, x);
        }
      }
    }
  }

  lemma {:induction false} AddEntriesMeaning(m: Table, entries: seq<string>, ret: Option<string>, k: nat)
    requires k <= |entries|
    ensures var r := AddEntries(m, entries, ret, k);
      && (r.Ok? <==> k == |entries| || ret.Some?)
      && (r.Ok? ==>
            && r.value.Keys == m.Keys + (set e | e in entries[k..])
            && forall x :: x in r.value ==> r.value[x] == if x in entries[k..] then Return(ret.value) else m[x])
    decreases |entries| - k
  {
    if k < |entries| && ret.Some? {
      AddEntriesMeaning(m[entries[k] := Return(ret.value)], entries, ret, k + 1);
      assert entries[k..] == [entries[k]] + entries[k + 1..];
    }
  }

  lemma {:induction false} AddItemsOk(m: Table, items: seq<NItem>, j: nat)
    requires j <= |items|
    ensures AddItems(m, items, j).Ok? <==> ItemsComplete(items, j)
    decreases |items| - j
  {
    if j < |items| && items[j].inputs.Some? {
      var e := AddEntries(m, items[j].inputs.value, items[j].returnValue, 0);
      AddEntriesMeaning(m, items[j].inputs.value, items[j].returnValue, 0);
      if e.Ok? {
        AddItemsOk(e.value, items, j + 1);
      }
    }
  }

  /** The inputs of every item from position `j` on. */
  function ItemKeys(items: seq<NItem>, j: nat): set<string>
    decreases |items| - j
  {
    if j >= |items| then {} else (set e | e in InputsOf(items[j])) + ItemKeys(items, j + 1)
  }

  lemma {:induction false} ItemKeysMeaning(items: seq<NItem>, j: nat, x: string)
    ensures x in ItemKeys(items, j) <==> InItemsFrom(items, j, x)
    decreases |items| - j
  {
    if j < |items| {
      ItemKeysMeaning(items, j + 1, x);
      assert InItemsFrom(items, j, x) <==> x in InputsOf(items[j]) || InItemsFrom(items, j + 1, x) by {
        if InItemsFrom(items, j, x) && x !in InputsOf(items[j]) {
          var q :| j <= q < |items| && x in InputsOf(items[q]);
          assert j + 1 <= q;
        }
      }
    }
  }

  /** All items from `j` on are added; the keys grow by exactly their inputs. */
  lemma {:induction false} AddItemsKeys(m: Table, items: seq<NItem>, j: nat)
    requires j <= |items| && ItemsComplete(items, j)
    ensures AddItems(m, items, j).Ok?
    ensures AddItems(m, items, j).value.Keys == m.Keys + ItemKeys(items, j)
    decreases |items| - j
  {
    if j < |items| {
      var it := items[j];
      AddEntriesMeaning(m, it.inputs.value, it.returnValue, 0);
      var e := AddEntries(m, it.inputs.value, it.returnValue, 0).value;
      AddItemsKeys(e, items, j + 1);
      assert it.inputs.value[0..] == it.inputs.value;
    }
  }

  /** A key no item from `j` on lists keeps its old outcome. */
  lemma {:induction false} AddItemsKept(m: Table, items: seq<NItem>, j: nat)
    requires j <= |items| && ItemsComplete(items, j)
    ensures AddItems(m, items, j).Ok?
    ensures var r := AddItems(m, items, j).value;
      forall x :: x in m && !InItemsFrom(items, j, x) ==> x in r && r[x] == m[x]
    decreases |items| - j
  {
    AddItemsKeys(m, items, j);
    if j < |items| {
      var it := items[j];
      AddEntriesMeaning(m, it.inputs.value, it.returnValue, 0);
      var e := AddEntries(m, it.inputs.value, it.returnValue, 0).value;
      AddItemsKept(e, items, j + 1);
      assert it.inputs.value[0..] == it.inputs.value;
      var r := AddItems(m, items, j).value;
      forall x | x in m && !InItemsFrom(items, j, x)
        ensures x in r && r[x] == m[x]
      {
        assert x !in InputsOf(it);
        assert !InItemsFrom(items, j + 1, x);
      }
    }
  }

  /** A key listed by some item from `j` on holds the return value of the last such item; any other keeps its old outcome. */
  lemma {:induction false} AddItemsValues(m: Table, items: seq<NItem>, j: nat)
    requires j <= |items| && ItemsComplete(items, j)
    ensures AddItems(m, items, j).Ok?
    ensures var r := AddItems(m, items, j).value;
      && (forall x :: InItemsFrom(items, j, x) ==>
            x in r && r[x] == Return(items[LastItemFrom(items, j, x)].returnValue.value))
      && (forall x :: x in m && !InItemsFrom(items, j, x) ==> x in r && r[x] == m[x])
    decreases |items| - j
  {
    AddItemsKept(m, items, j);
    if j < |items| {
      var it := items[j];
      AddEntriesMeaning(m, it.inputs.value, it.returnValue, 0);
      var e := AddEntries(m, it.inputs.value, it.returnValue, 0).value;
      AddItemsValues(e, items, j + 1);
      assert it.inputs.value[0..] == it.inputs.value;
      var r := AddItems(m, items, j).value;
      forall x | InItemsFrom(items, j, x)
        ensures x in r && r[x] == Return(items[LastItemFrom(items, j, x)].returnValue.value)
      {
        ItemKeysMeaning(items, j, x);
        if !InItemsFrom(items, j + 1, x) {
          assert x in InputsOf(it);
        }
      }
    }
  }

  /**
   * The whole table: it exists exactly when every item has inputs and every
   * item with inputs has a return value; its keys are the selectors and all
   * the inputs; an input holds the return value of the last item listing it;
   * a selector no item lists holds the position of its last occurrence.
   */
  lemma ParseItemsMeaning(selectors: seq<string>, items: seq<NItem>)
    ensures ParseItems(selectors, items).Ok? <==> ItemsComplete(items, 0)
    ensures ParseItems(selectors, items).Ok? ==>
      var t := ParseItems(selectors, items).value;
      && t.Keys == (set k | 0 <= k < |selectors| :: selectors[k]) + ItemKeys(items, 0)
      && (forall x :: InItemsFrom(items, 0, x) ==> x in t && t[x] == Return(items[LastItemFrom(items, 0, x)].returnValue.value))
      && (forall x :: InSelectorsFrom(selectors, 0, x) && !InItemsFrom(items, 0, x) ==>
            x in t && t[x] == ChangeTab(LastSelectorFrom(selectors, 0, x)))
  {
    var m := AddSelectors(map[], selectors, 0);
    AddSelectorsMeaning(map[], selectors, 0);
    AddItemsOk(m, items, 0);
    if ItemsComplete(items, 0) {
      AddItemsKeys(m, items, 0);
      AddItemsValues(m, items, 0);
      forall x | InSelectorsFrom(selectors, 0, x)
        ensures x in m
      {
        var k :| 0 <= k < |selectors| && selectors[k] == x;
      }
    }
  }

  /** `process_input` answers invalid exactly for a string that is neither a selector nor an input. */
  lemma ProcessInvalidIff(selectors: seq<string>, items: seq<NItem>, s: string)
    requires ParseItems(selectors, items).Ok?
    ensures Process(ParseItems(selectors, items).value, s) == Invalid <==>
      !InSelectorsFrom(selectors, 0, s) && !InItemsFrom(items, 0, s)
  {
    ParseItemsMeaning(selectors, items);
    ItemKeysMeaning(items, 0, s);
    if InSelectorsFrom(selectors, 0, s) {
      var k :| 0 <= k < |selectors| && selectors[k] == s;
    }
  }

  /** No key is inserted twice: the selectors are distinct, no selector is an input, and no two items share an input. */
  predicate NoCollision(selectors: seq<string>, items: seq<NItem>) {
    && (forall a, b :: 0 <= a < b < |selectors| ==> selectors[a] != selectors[b])
    && (forall k, q :: 0 <= k < |selectors| && 0 <= q < |items| ==> selectors[k] !in InputsOf(items[q]))
    && (forall q1, q2, x :: 0 <= q1 < q2 < |items| && x in InputsOf(items[q1]) ==> x !in InputsOf(items[q2]))
  }

  /** Without collisions, the selector at position `i` changes to tab `i` and an item's input returns that item's value. */
  lemma ProcessWithoutCollision(selectors: seq<string>, items: seq<NItem>)
    requires ItemsComplete(items, 0) && NoCollision(selectors, items)
    ensures ParseItems(selectors, items).Ok?
    ensures var t := ParseItems(selectors, items).value;
      && (forall i :: 0 <= i < |selectors| ==> Process(t, selectors[i]) == ChangeTab(i))
      && (forall q, x :: 0 <= q < |items| && x in InputsOf(items[q]) ==> Process(t, x) == Return(items[q].returnValue.value))
  {
    ParseItemsMeaning(selectors, items);
    var t := ParseItems(selectors, items).value;
    forall i | 0 <= i < |selectors|
      ensures Process(t, selectors[i]) == ChangeTab(i)
    {
      var x := selectors[i];
      assert InSelectorsFrom(selectors, 0, x);
      assert !InItemsFrom(items, 0, x);
      assert LastSelectorFrom(selectors, 0, x) == i;
      ItemKeysMeaning(items, 0, x);
    }
    forall q, x | 0 <= q < |items| && x in InputsOf(items[q])
      ensures Process(t, x) == Return(items[q].returnValue.value)
    {
      assert InItemsFrom(items, 0, x);
      assert LastItemFrom(items, 0, x) == q;
      ItemKeysMeaning(items, 0, x);
    }
  }

  // ---------------------------------------------------------------------
  // `create_tab_objects`: the selector list

  /** `tab.get("tab_header_input", None)` when truthy. */
  function SelectorOf(t: NTab): seq<string> {
    if t.selector.Some? && t.selector.value != "" then [t.selector.value] else []
  }

  /** `tab_selectors`: the truthy selectors, in tab order. */
  function Selectors(tabs: seq<NTab>): (r: seq<string>)
    ensures |r| <= |tabs|
    ensures forall k :: 0 <= k < |r| ==> r[k] != ""
    decreases |tabs|
  {
    if |tabs| == 0 then [] else Selectors(tabs[..|tabs| - 1]) + SelectorOf(tabs[|tabs| - 1])
  }

  /** A string is a selector exactly when some tab has it as a non-empty header input; there are never more selectors than tabs. */
  lemma {:induction false} SelectorsMeaning(tabs: seq<NTab>)
    ensures |Selectors(tabs)| <= |tabs|
    ensures forall x :: x in Selectors(tabs) <==> exists i :: 0 <= i < |tabs| && tabs[i].selector == Some(x) && x != ""
    decreases |tabs|
  {
    if |tabs| > 0 {
      var init := tabs[..|tabs| - 1];
      SelectorsMeaning(init);
      forall x
        ensures x in Selectors(tabs) <==> exists i :: 0 <= i < |tabs| && tabs[i].selector == Some(x) && x != ""
      {
        if exists i :: 0 <= i < |tabs| && tabs[i].selector == Some(x) && x != "" {
          var i :| 0 <= i < |tabs| && tabs[i].selector == Some(x) && x != "";
          if i < |tabs| - 1 {
            assert init[i] == tabs[i];
          }
        }
        if x in Selectors(init) {
          var i :| 0 <= i < |init| && init[i].selector == Some(x) && x != "";
          assert tabs[i] == init[i];
        }
      }
    }
  }

  /** With every header present and non-empty, selector `i` is tab `i`'s header; with none present, there are no selectors. */
  lemma {:induction false} SelectorsAllOrNone(tabs: seq<NTab>)
    ensures (forall i :: 0 <= i < |tabs| ==> tabs[i].selector.Some? && tabs[i].selector.value != "") ==>
      |Selectors(tabs)| == |tabs| && forall i :: 0 <= i < |tabs| ==> Selectors(tabs)[i] == tabs[i].selector.value
    ensures (forall i :: 0 <= i < |tabs| ==> tabs[i].selector.None?) ==> Selectors(tabs) == []
    decreases |tabs|
  {
    if |tabs| > 0 {
      var init := tabs[..|tabs| - 1];
      SelectorsAllOrNone(init);
      assert forall i :: 0 <= i < |init| ==> init[i] == tabs[i];
    }
  }

  // ---------------------------------------------------------------------
  // The Tab objects

  class Tab {
    var headChoice: Option<string>
    var headDesc: Option<string>
    var headDescLong: Option<string>
    var selectors: seq<string>
    var input2result: Table

    /** `tab_dict.get(k, None)` for the description keys: absent or None both read as None. */
    static function Flatten(d: Option<Option<string>>): Option<string> {
      if d.Some? then d.value else None
    }

    /** The header fields of `Tab.__init__`, before the items are read. */
    constructor (t: NTab, tabSelectors: seq<string>)
      ensures headChoice == t.selector && headDesc == Flatten(t.desc) && headDescLong == Flatten(t.longDesc)
      ensures selectors == tabSelectors && input2result == map[]
    {
      headChoice := t.selector;
      headDesc := Flatten(t.desc);
      headDescLong := Flatten(t.longDesc);
      selectors := tabSelectors;
      input2result := map[];
    }

    /** `_parse_items`: selectors first, then every item's inputs, each insertion replacing an earlier one. */
    method ParseItemsLoop(items: seq<NItem>) returns (r: Result<()>)
      modifies this
      ensures headChoice == old(headChoice) && headDesc == old(headDesc) && headDescLong == old(headDescLong)
      ensures selectors == old(selectors)
      ensures r.Ok? <==> ParseItems(selectors, items).Ok?
      ensures r.Ok? ==> input2result == ParseItems(selectors, items).value
      ensures r.Err? ==> r.error == ParseItems(selectors, items).error
    {
      ghost var whole := ParseItems(selectors, items);
      input2result := map[];
      var i := 0;
      while i < |selectors|
        invariant i <= |selectors| && whole == AddItems(AddSelectors(input2result, selectors, i), items, 0)
        invariant headChoice == old(headChoice) && headDesc == old(headDesc) && headDescLong == old(headDescLong)
        invariant selectors == old(selectors)
      {
        input2result := input2result[selectors[i] := ChangeTab(i)];
        i := i + 1;
      }
      var j := 0;
      while j < |items|
        invariant j <= |items| && whole == AddItems(input2result, items, j)
        invariant headChoice == old(headChoice) && headDesc == old(headDesc) && headDescLong == old(headDescLong)
        invariant selectors == old(selectors)
      {
        var item := items[j];
        if item.inputs.None? {
          return Err(MissingKey("item_inputs"));
        }
        var entries := item.inputs.value;
        ghost var inner := AddEntries(input2result, entries, item.returnValue, 0);
        var k := 0;
        while k < |entries|
          invariant k <= |entries| && inner == AddEntries(input2result, entries, item.returnValue, k)
          invariant headChoice == old(headChoice) && headDesc == old(headDesc) && headDescLong == old(headDescLong)
          invariant selectors == old(selectors)
        {
          if item.returnValue.None? {
            return Err(MissingKey("item_returns"));
          }
          input2result := input2result[entries[k] := Return(item.returnValue.value)];
          k := k + 1;
        }
        j := j + 1;
      }
      return Ok(());
    }

    /** `process_input`: a lookup that changes nothing. */
    method ProcessInput(s: string) returns (r: Outcome)
      ensures r == Process(input2result, s)
    {
      if s in input2result {
        r := input2result[s];
      } else {
        r := Invalid;
      }
    }
  }

  /** `Tab(tab_dict, tab_selectors)`; `tab_dict["items"]` raises KeyError for a tab the walk left empty. */
  method NewTab(t: NTab, tabSelectors: seq<string>) returns (r: Result<Tab>)
    ensures r.Ok? <==> TabTableOf(t, tabSelectors).Ok?
    ensures r.Err? ==> r.error == TabTableOf(t, tabSelectors).error
    ensures r.Ok? ==> fresh(r.value) && r.value.input2result == TabTableOf(t, tabSelectors).value
    ensures r.Ok? ==> r.value.headChoice == t.selector && r.value.selectors == tabSelectors
    ensures r.Ok? ==> r.value.headDesc == Tab.Flatten(t.desc) && r.value.headDescLong == Tab.Flatten(t.longDesc)
  {
    var tab := new Tab(t, tabSelectors);
    if t.items.None? {
      return Err(MissingKey("items"));
    }
    var parsed := tab.ParseItemsLoop(t.items.value);
    if parsed.Err? {
      return Err(parsed.error);
    }
    return Ok(tab);
  }

  function TableFn(tabSelectors: seq<string>): NTab -> Result<Table> {
    t => TabTableOf(t, tabSelectors)
  }

  /** The tables of all tabs, each built with the same selector list; the first failing tab raises. */
  function TabTables(tabs: seq<NTab>): (r: Result<seq<Table>>)
    ensures r.Ok? <==> forall i :: 0 <= i < |tabs| ==> TabTableOf(tabs[i], Selectors(tabs)).Ok?
    ensures r.Ok? ==> |r.value| == |tabs| && forall i :: 0 <= i < |tabs| ==> TabTableOf(tabs[i], Selectors(tabs)) == Ok(r.value[i])
  {
    MapFromOk(TableFn(Selectors(tabs)), tabs, 0);
    MapFrom(TableFn(Selectors(tabs)), tabs, 0)
  }

  /** The first loop of `create_tab_objects`: every truthy `tab_header_input`, in tab order. */
  method CollectSelectors(tabs: seq<NTab>) returns (tabSelectors: seq<string>)
    ensures tabSelectors == Selectors(tabs)
  {
    tabSelectors := [];
    var j := 0;
    while j < |tabs|
      invariant j <= |tabs| && tabSelectors == Selectors(tabs[..j])
    {
      assert tabs[..j + 1][..j] == tabs[..j];
      if tabs[j].selector.Some? && tabs[j].selector.value != "" {
        tabSelectors := tabSelectors + [tabs[j].selector.value];
      }
      j := j + 1;
    }
    assert tabs[..|tabs|] == tabs;
  }

  /** Tab object `i` holds table `i`, the selector list and tab `i`'s header choice. */
  ghost predicate TabsHold(out: seq<Tab>, tables: seq<Table>, tabSelectors: seq<string>, tabs: seq<NTab>)
    reads set t | t in out
  {
    && |out| == |tables| <= |tabs|
    && forall i :: 0 <= i < |out| ==>
      && out[i].input2result == tables[i]
      && out[i].selectors == tabSelectors
      && out[i].headChoice == tabs[i].selector
  }

  /** Appending the object built for the next tab keeps the correspondence. */
  lemma TabsHoldAppend(out: seq<Tab>, tables: seq<Table>, tabSelectors: seq<string>, tabs: seq<NTab>, nt: Tab)
    requires TabsHold(out, tables, tabSelectors, tabs) && |out| < |tabs|
    requires nt.selectors == tabSelectors && nt.headChoice == tabs[|out|].selector
    ensures TabsHold(out + [nt], tables + [nt.input2result], tabSelectors, tabs)
  {
    var out' := out + [nt];
    var tables' := tables + [nt.input2result];
    forall i | 0 <= i < |out'|
      ensures out'[i].input2result == tables'[i] && out'[i].selectors == tabSelectors && out'[i].headChoice == tabs[i].selector
    {
      if i < |out| {
        assert out'[i] == out[i] && tables'[i] == tables[i];
      }
    }
  }

  /** `create_tab_objects(config)`: the selector list, then one Tab per tab, in order. */
  method CreateTabObjects(tabs: seq<NTab>) returns (r: Result<seq<Tab>>)
    ensures r.Ok? <==> TabTables(tabs).Ok?
    ensures r.Err? ==> r.error == TabTables(tabs).error
    ensures r.Ok? ==> |r.value| == |tabs| && |TabTables(tabs).value| == |tabs|
    ensures r.Ok? ==> forall i :: 0 <= i < |tabs| ==>
      && fresh(r.value[i])
      && r.value[i].input2result == TabTables(tabs).value[i]
      && r.value[i].selectors == Selectors(tabs)
      && r.value[i].headChoice == tabs[i].selector
  {
    var tabSelectors := CollectSelectors(tabs);
    var f := TableFn(tabSelectors);
    ghost var whole := MapFrom(f, tabs, 0);
    MapLoopStart(f, tabs);
    ghost var tables: seq<Table> := [];
    var out: seq<Tab> := [];
    var j := 0;
    while j < |tabs|
      invariant MapSoFar(f, tabs, j, tables, whole) && |out| == j
      invariant forall i :: 0 <= i < j ==> fresh(out[i])
      invariant TabsHold(out, tables, tabSelectors, tabs)
    {
      var t := NewTab(tabs[j], tabSelectors);
      assert f(tabs[j]) == TabTableOf(tabs[j], tabSelectors);
      if t.Err? {
        MapLoopErr(f, tabs, j, tables, whole, t.error);
        return Err(t.error);
      }
      var nt := t.value;
      MapLoopNext(f, tabs, j, tables, whole, nt.input2result);
      TabsHoldAppend(out, tables, tabSelectors, tabs, nt);
      tables := tables + [nt.input2result];
      out := out + [nt];
      j := j + 1;
    }
    MapLoopEnd(f, tabs, tables, whole);
    return Ok(out);
  }
}
