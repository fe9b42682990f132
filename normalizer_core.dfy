/**
 * The tree walk that both normalizers share (`_walk_stringize_and_case` in
 * src/pytabby/normalizer.py and in src/tabbedshellmenus/normalizer.py): a new
 * configuration is built tab by tab and item by item, every field kept as
 * `str()` of its value, the input fields lower-cased when the configuration
 * is not case sensitive. The two files differ only in their key names and in
 * how they read `case_sensitive` and `screen_width`; `KeyNames` carries the
 * former and the callers the latter.
 *
 * The normalized configuration is typed: a field is `None` when the walk
 * never wrote its key, and a description field holds `Some(None)` when it
 * was written as Python's None.
 */
module NormalizerCore {
  import opened PyValue

  datatype KeyNames = KeyNames(
    selector: string, desc: string, longDesc: string,
    choice: string, itemDesc: string, returnValue: string, inputs: string)

  /** The key names never clash, and no tab key is `items`. */
  predicate DistinctKeys(keys: KeyNames) {
    && |{keys.selector, keys.desc, keys.longDesc, "items"}| == 4
    && |{keys.choice, keys.itemDesc, keys.returnValue, keys.inputs}| == 4
  }

  datatype NItem = NItem(choice: Option<string>, desc: Option<string>, returnValue: Option<string>, inputs: Option<seq<string>>)
  datatype NTab = NTab(selector: Option<string>, desc: Option<Option<string>>, longDesc: Option<Option<string>>,
                       items: Option<seq<NItem>>)
  datatype NConfig = NConfig(caseSensitive: Value, screenWidth: Value, tabs: seq<NTab>)

  const NoItem := NItem(None, None, None, None)
  const NoTab := NTab(None, None, None, None)

  /** `stringify_and_recase(v, change_case)`: `str(v)`, lower-cased when asked to and the configuration is not case sensitive. */
  function StrCase(v: Value, changeCase: bool, caseSensitive: Value): string {
    if changeCase && !Truthy(caseSensitive) then Lower(Str(v)) else Str(v)
  }

  /** `stringify_and_recase(v, none_allowed=True)`: None stays None. */
  function StrOrNone(v: Value): Option<string> {
    if v.VNone? then None else Some(Str(v))
  }

  /** The new `item_inputs` list: every entry stringified and re-cased. */
  function InputStrings(es: seq<Value>, caseSensitive: Value): seq<string> {
    seq(|es|, i requires 0 <= i < |es| => StrCase(es[i], true, caseSensitive))
  }

  /** `old_item[inputs]`, iterated. */
  function ItemInputs(keys: KeyNames, item: Value): Result<seq<Value>> {
    var inputs :- GetKey(item, keys.inputs);
    Iter(inputs)
  }

  /** One pass of the loop over an item's keys: the three text keys are stringified; any other key rebuilds the inputs. */
  function ItemStep(keys: KeyNames, cs: Value, item: Value, acc: NItem, key: string, v: Value): Result<NItem> {
    if key == keys.choice then Ok(acc.(choice := Some(Str(v))))
    else if key == keys.itemDesc then Ok(acc.(desc := Some(Str(v))))
    else if key == keys.returnValue then Ok(acc.(returnValue := Some(Str(v))))
    else
      var es :- ItemInputs(keys, item);
      Ok(acc.(inputs := Some(InputStrings(es, cs))))
  }

  /** The loop over an item's keys from position `j` on. */
  function ItemFrom(keys: KeyNames, cs: Value, item: Value, acc: NItem, j: nat): Result<NItem>
    requires item.VDict?
    decreases |item.entries| - j
  {
    if j >= |item.entries| then Ok(acc)
    else
      var next :- ItemStep(keys, cs, item, acc, item.entries[j].0, item.entries[j].1);
      ItemFrom(keys, cs, item, next, j + 1)
  }

  function NotADict(v: Value): Exc {
    Exc(AttributeError, "'" + TypeName(v) + "' object has no attribute 'items'")
  }

  /**
   * The new item built from an old one. It fails only on a non-dict, or
   * when some key other than the three text keys sends the walk to the
   * input list and that list cannot be read.
   */
  function NormalizeItem(keys: KeyNames, cs: Value, item: Value): (r: Result<NItem>)
    ensures r.Ok? <==> item.VDict? && (!OtherKeyFrom(keys, item.entries, 0) || ItemInputs(keys, item).Ok?)
  {
    if !item.VDict? then Err(NotADict(item))
    else
      ItemFromOk(keys, cs, item, NoItem, 0);
      ItemFrom(keys, cs, item, NoItem, 0)
  }

  function ItemFn(keys: KeyNames, cs: Value): Value -> Result<NItem> {
    item => NormalizeItem(keys, cs, item)
  }

  /** `old_tab["items"]`, every item normalized. */
  function TabItems(keys: KeyNames, cs: Value, tab: Value): Result<seq<NItem>> {
    var itemsValue :- GetKey(tab, "items");
    var items :- Iter(itemsValue);
    MapFrom(ItemFn(keys, cs), items, 0)
  }

  /**
   * One pass of the loop over a tab's keys: the selector is stringified and
   * re-cased, a description stringified unless None; then, whatever the key,
   * the whole item list is rebuilt.
   */
  function TabStep(keys: KeyNames, cs: Value, tab: Value, acc: NTab, key: string, v: Value): Result<NTab> {
    var headed :=
      if key == keys.selector then acc.(selector := Some(StrCase(v, true, cs)))
      else if key == keys.desc then acc.(desc := Some(StrOrNone(v)))
      else if key == keys.longDesc then acc.(longDesc := Some(StrOrNone(v)))
      else acc;
    var items :- TabItems(keys, cs, tab);
    Ok(headed.(items := Some(items)))
  }

  function TabFrom(keys: KeyNames, cs: Value, tab: Value, acc: NTab, j: nat): Result<NTab>
    requires tab.VDict?
    decreases |tab.entries| - j
  {
    if j >= |tab.entries| then Ok(acc)
    else
      var next :- TabStep(keys, cs, tab, acc, tab.entries[j].0, tab.entries[j].1);
      TabFrom(keys, cs, tab, next, j + 1)
  }

  /** The new tab built from an old one. */
  function NormalizeTab(keys: KeyNames, cs: Value, tab: Value): Result<NTab> {
    if !tab.VDict? then Err(NotADict(tab)) else TabFrom(keys, cs, tab, NoTab, 0)
  }

  function TabFn(keys: KeyNames, cs: Value): Value -> Result<NTab> {
    tab => NormalizeTab(keys, cs, tab)
  }

  /**
   * `new_config["tabs"]`: the loop over `old_config["tabs"]`. On success it
   * holds one new tab per old tab, in order, each the old one normalized.
   */
  function WalkTabs(keys: KeyNames, cs: Value, config: Value): (r: Result<seq<NTab>>)
    ensures r.Ok? ==> GetKey(config, "tabs").Ok? && Iter(GetKey(config, "tabs").value).Ok?
    ensures r.Ok? ==>
      var olds := Iter(GetKey(config, "tabs").value).value;
      && |r.value| == |olds|
      && forall i :: 0 <= i < |olds| ==> NormalizeTab(keys, cs, olds[i]) == Ok(r.value[i])
  {
    var tabsValue :- GetKey(config, "tabs");
    var tabs :- Iter(tabsValue);
    var walked := MapFrom(TabFn(keys, cs), tabs, 0);
    if walked.Err? then walked
    else
      MapFromEach(TabFn(keys, cs), tabs);
      walked
  }

  // ---------------------------------------------------------------------
  // What the walk produces, read declaratively

  /** The first option when it holds a value, else the second: a later write wins. */
  function Or<T>(later: Option<T>, earlier: Option<T>): Option<T> {
    if later.Some? then later else earlier
  }

  function StrField(ps: seq<(string, Value)>, k: string): Option<string> {
    match Lookup(ps, k)
    case None => None
    case Some(v) => Some(Str(v))
  }

  function SelectorField(ps: seq<(string, Value)>, keys: KeyNames, cs: Value): Option<string> {
    match Lookup(ps, keys.selector)
    case None => None
    case Some(v) => Some(StrCase(v, true, cs))
  }

  function DescField(ps: seq<(string, Value)>, k: string): Option<Option<string>> {
    match Lookup(ps, k)
    case None => None
    case Some(v) => Some(StrOrNone(v))
  }

  predicate IsTextKey(keys: KeyNames, key: string) {
    key == keys.choice || key == keys.itemDesc || key == keys.returnValue
  }

  /** Some key from position `j` on is not one of the three text keys. */
  predicate OtherKeyFrom(keys: KeyNames, ps: seq<(string, Value)>, j: nat) {
    exists i :: j <= i < |ps| && !IsTextKey(keys, ps[i].0)
  }

  lemma {:induction false} ItemFromOk(keys: KeyNames, cs: Value, item: Value, acc: NItem, j: nat)
    requires item.VDict? && j <= |item.entries|
    ensures ItemFrom(keys, cs, item, acc, j).Ok? <==> !OtherKeyFrom(keys, item.entries, j) || ItemInputs(keys, item).Ok?
    decreases |item.entries| - j
  {
    var ps := item.entries;
    if j < |ps| {
      assert OtherKeyFrom(keys, ps, j) <==> !IsTextKey(keys, ps[j].0) || OtherKeyFrom(keys, ps, j + 1);
      var step := ItemStep(keys, cs, item, acc, ps[j].0, ps[j].1);
      if step.Ok? {
        ItemFromOk(keys, cs, item, step.value, j + 1);
      }
    }
  }

  lemma {:induction false} ItemFromFields(keys: KeyNames, cs: Value, item: Value, acc: NItem, j: nat)
    requires DistinctKeys(keys) && item.VDict? && j <= |item.entries| && UniqueKeys(item.entries)
    requires ItemFrom(keys, cs, item, acc, j).Ok?
    requires OtherKeyFrom(keys, item.entries, j) ==> ItemInputs(keys, item).Ok?
    ensures var ps := item.entries;
      var r := ItemFrom(keys, cs, item, acc, j).value;
      && r.choice == Or(StrField(ps[j..], keys.choice), acc.choice)
      && r.desc == Or(StrField(ps[j..], keys.itemDesc), acc.desc)
      && r.returnValue == Or(StrField(ps[j..], keys.returnValue), acc.returnValue)
      && r.inputs == if OtherKeyFrom(keys, ps, j) then Some(InputStrings(ItemInputs(keys, item).value, cs)) else acc.inputs
    decreases |item.entries| - j
  {
    var ps := item.entries;
    if j < |ps| {
      assert OtherKeyFrom(keys, ps, j) <==> !IsTextKey(keys, ps[j].0) || OtherKeyFrom(keys, ps, j + 1);
      var next := ItemStep(keys, cs, item, acc, ps[j].0, ps[j].1).value;
      LookupFrom(ps, j, keys.choice);
      LookupFrom(ps, j, keys.itemDesc);
      LookupFrom(ps, j, keys.returnValue);
      LookupPastOwnKey(ps, j);
      ItemFromFields(keys, cs, item, next, j + 1);
    }
  }

  /**
   * For a dict whose keys are unique (as every Python dict's are): each text
   * field of the new item is `str()` of the old value under its key, absent
   * when the key is; the inputs are rebuilt, stringified and re-cased, when
   * the item has any other key; and the walk raises exactly when it has such
   * a key but its inputs are missing or not iterable.
   */
  lemma ItemMeaning(keys: KeyNames, cs: Value, item: Value)
    requires DistinctKeys(keys) && item.VDict? && UniqueKeys(item.entries)
    ensures var ps := item.entries;
      var r := NormalizeItem(keys, cs, item);
      && (r.Ok? <==> !OtherKeyFrom(keys, ps, 0) || ItemInputs(keys, item).Ok?)
      && (r.Ok? ==>
            && r.value.choice == StrField(ps, keys.choice)
            && r.value.desc == StrField(ps, keys.itemDesc)
            && r.value.returnValue == StrField(ps, keys.returnValue)
            && r.value.inputs ==
                 if OtherKeyFrom(keys, ps, 0) then Some(InputStrings(ItemInputs(keys, item).value, cs)) else None)
  {
    ItemFromOk(keys, cs, item, NoItem, 0);
    if NormalizeItem(keys, cs, item).Ok? {
      ItemFromFields(keys, cs, item, NoItem, 0);
    }
    assert item.entries[0..] == item.entries;
  }

  lemma {:induction false} TabFromOk(keys: KeyNames, cs: Value, tab: Value, acc: NTab, j: nat)
    requires tab.VDict? && j <= |tab.entries|
    ensures TabFrom(keys, cs, tab, acc, j).Ok? <==> j == |tab.entries| || TabItems(keys, cs, tab).Ok?
    decreases |tab.entries| - j
  {
    var ps := tab.entries;
    if j < |ps| {
      var step := TabStep(keys, cs, tab, acc, ps[j].0, ps[j].1);
      if step.Ok? {
        TabFromOk(keys, cs, tab, step.value, j + 1);
      }
    }
  }

  lemma {:induction false} TabFromFields(keys: KeyNames, cs: Value, tab: Value, acc: NTab, j: nat)
    requires DistinctKeys(keys) && tab.VDict? && j <= |tab.entries| && UniqueKeys(tab.entries)
    requires TabFrom(keys, cs, tab, acc, j).Ok?
    ensures var ps := tab.entries;
      var r := TabFrom(keys, cs, tab, acc, j).value;
      && r.selector == Or(SelectorField(ps[j..], keys, cs), acc.selector)
      && r.desc == Or(DescField(ps[j..], keys.desc), acc.desc)
      && r.longDesc == Or(DescField(ps[j..], keys.longDesc), acc.longDesc)
      && r.items == if j == |ps| then acc.items else Some(TabItems(keys, cs, tab).value)
    decreases |tab.entries| - j
  {
    var ps := tab.entries;
    if j < |ps| {
      var next := TabStep(keys, cs, tab, acc, ps[j].0, ps[j].1).value;
      LookupFrom(ps, j, keys.selector);
      LookupFrom(ps, j, keys.desc);
      LookupFrom(ps, j, keys.longDesc);
      LookupPastOwnKey(ps, j);
      TabFromFields(keys, cs, tab, next, j + 1);
    }
  }

  /**
   * For a dict whose keys are unique: the selector is `str()` of the old
   * one, lower-cased when not case sensitive; a description keeps None and
   * is otherwise `str()` of the old one, never lower-cased; absent keys stay
   * absent; and a tab with any key gets its whole item list normalized,
   * while an empty tab gets none.
   */
  lemma TabMeaning(keys: KeyNames, cs: Value, tab: Value)
    requires DistinctKeys(keys) && tab.VDict? && UniqueKeys(tab.entries)
    ensures var ps := tab.entries;
      var r := NormalizeTab(keys, cs, tab);
      && (r.Ok? <==> ps == [] || TabItems(keys, cs, tab).Ok?)
      && (r.Ok? ==>
            && r.value.selector == SelectorField(ps, keys, cs)
            && r.value.desc == DescField(ps, keys.desc)
            && r.value.longDesc == DescField(ps, keys.longDesc)
            && r.value.items == if ps == [] then None else Some(TabItems(keys, cs, tab).value))
  {
    TabFromOk(keys, cs, tab, NoTab, 0);
    if NormalizeTab(keys, cs, tab).Ok? {
      TabFromFields(keys, cs, tab, NoTab, 0);
    }
    assert tab.entries[0..] == tab.entries;
  }

  // ---------------------------------------------------------------------
  // Normalizing twice

  /** An entry in front of `rest` when the field holds a value, else `rest` itself. */
  function Put(k: string, v: Option<Value>, rest: seq<(string, Value)>): seq<(string, Value)> {
    if v.None? then rest else [(k, v.value)] + rest
  }

  lemma LookupPut(k: string, v: Option<Value>, rest: seq<(string, Value)>, q: string)
    ensures Lookup(Put(k, v, rest), q) == if q == k && v.Some? then v else Lookup(rest, q)
  {
    if v.Some? {
      assert Put(k, v, rest)[1..] == rest;
    }
  }

  lemma PutUnique(k: string, v: Option<Value>, rest: seq<(string, Value)>)
    requires UniqueKeys(rest) && Lookup(rest, k) == None
    ensures UniqueKeys(Put(k, v, rest))
  {
    if v.Some? {
      ConsUnique((k, v.value), rest);
    }
  }

  lemma OtherKeyPut(keys: KeyNames, k: string, v: Option<Value>, rest: seq<(string, Value)>)
    requires IsTextKey(keys, k)
    ensures OtherKeyFrom(keys, Put(k, v, rest), 0) <==> OtherKeyFrom(keys, rest, 0)
  {
    if v.Some? {
      var ps := Put(k, v, rest);
      if OtherKeyFrom(keys, ps, 0) {
        var i :| 0 <= i < |ps| && !IsTextKey(keys, ps[i].0);
        assert ps[i] == rest[i - 1];
      }
      if OtherKeyFrom(keys, rest, 0) {
        var i :| 0 <= i < |rest| && !IsTextKey(keys, rest[i].0);
        assert ps[i + 1] == rest[i];
      }
    }
  }

  function StrValue(f: Option<string>): Option<Value> {
    if f.None? then None else Some(VStr(f.value))
  }

  function DescValue(f: Option<Option<string>>): Option<Value> {
    match f
    case None => None
    case Some(None) => Some(VNone)
    case Some(Some(s)) => Some(VStr(s))
  }

  function StrList(ss: seq<string>): Value {
    VList(seq(|ss|, i requires 0 <= i < |ss| => VStr(ss[i])))
  }

  function InputsValue(f: Option<seq<string>>): Option<Value> {
    if f.None? then None else Some(StrList(f.value))
  }

  /** A normalized item written back as a dict: each field under its key, absent fields left out. */
  function EncodeItem(keys: KeyNames, n: NItem): Value {
    VDict(Put(keys.choice, StrValue(n.choice),
          Put(keys.itemDesc, StrValue(n.desc),
          Put(keys.returnValue, StrValue(n.returnValue),
          Put(keys.inputs, InputsValue(n.inputs), [])))))
  }

  function EncodeItems(keys: KeyNames, its: seq<NItem>): seq<Value> {
    seq(|its|, i requires 0 <= i < |its| => EncodeItem(keys, its[i]))
  }

  function ItemsValue(keys: KeyNames, f: Option<seq<NItem>>): Option<Value> {
    if f.None? then None else Some(VList(EncodeItems(keys, f.value)))
  }

  /** A normalized tab written back as a dict. */
  function EncodeTab(keys: KeyNames, t: NTab): Value {
    VDict(Put(keys.selector, StrValue(t.selector),
          Put(keys.desc, DescValue(t.desc),
          Put(keys.longDesc, DescValue(t.longDesc),
          Put("items", ItemsValue(keys, t.items), [])))))
  }

  function EncodeTabs(keys: KeyNames, ts: seq<NTab>): seq<Value> {
    seq(|ts|, i requires 0 <= i < |ts| => EncodeTab(keys, ts[i]))
  }

  /** A string the input re-casing leaves unchanged. */
  predicate Recased(cs: Value, s: string) {
    StrCase(VStr(s), true, cs) == s
  }

  predicate NormalItem(cs: Value, n: NItem) {
    n.inputs.Some? ==> forall i :: 0 <= i < |n.inputs.value| ==> Recased(cs, n.inputs.value[i])
  }

  predicate NormalItems(cs: Value, its: seq<NItem>) {
    forall i :: 0 <= i < |its| ==> NormalItem(cs, its[i])
  }

  /** The shape of every tab the walk builds: an item list unless empty, re-cased inputs and selector. */
  predicate NormalTab(cs: Value, t: NTab) {
    && (t.items.None? ==> t == NoTab)
    && (t.selector.Some? ==> Recased(cs, t.selector.value))
    && (t.items.Some? ==> NormalItems(cs, t.items.value))
  }

  lemma RecasedStrCase(cs: Value, v: Value)
    ensures Recased(cs, StrCase(v, true, cs))
  {
    LowerIdempotent(Str(v));
  }

  /** Every item the walk builds has re-cased inputs. */
  lemma ItemIsNormal(keys: KeyNames, cs: Value, item: Value)
    requires DistinctKeys(keys) && DictsUnique(item) && NormalizeItem(keys, cs, item).Ok?
    ensures NormalItem(cs, NormalizeItem(keys, cs, item).value)
  {
    ItemMeaning(keys, cs, item);
    var n := NormalizeItem(keys, cs, item).value;
    if n.inputs.Some? {
      var es := ItemInputs(keys, item).value;
      forall i | 0 <= i < |n.inputs.value|
        ensures Recased(cs, n.inputs.value[i])
      {
        RecasedStrCase(cs, es[i]);
      }
    }
  }

  lemma ItemsAreNormal(keys: KeyNames, cs: Value, items: seq<Value>)
    requires DistinctKeys(keys) && forall i :: 0 <= i < |items| ==> DictsUnique(items[i])
    requires MapFrom(ItemFn(keys, cs), items, 0).Ok?
    ensures NormalItems(cs, MapFrom(ItemFn(keys, cs), items, 0).value)
  {
    var its := MapFrom(ItemFn(keys, cs), items, 0).value;
    MapFromLength(ItemFn(keys, cs), items);
    forall i | 0 <= i < |its|
      ensures NormalItem(cs, its[i])
    {
      MapFromAt(ItemFn(keys, cs), items, i);
      ItemIsNormal(keys, cs, items[i]);
    }
  }

  /** Every tab the walk builds has the shape `NormalTab` describes. */
  lemma TabIsNormal(keys: KeyNames, cs: Value, tab: Value)
    requires DistinctKeys(keys) && DictsUnique(tab) && NormalizeTab(keys, cs, tab).Ok?
    ensures NormalTab(cs, NormalizeTab(keys, cs, tab).value)
  {
    TabMeaning(keys, cs, tab);
    var t := NormalizeTab(keys, cs, tab).value;
    if t.selector.Some? {
      RecasedStrCase(cs, Lookup(tab.entries, keys.selector).value);
    }
    if t.items.Some? {
      var itemsValue := GetKey(tab, "items").value;
      IterDictsUnique(itemsValue);
      ItemsAreNormal(keys, cs, Iter(itemsValue).value);
    }
  }

  /** The keys of an encoded item: unique, each holding its field, and only the inputs key outside the text keys. */
  lemma EncodedItemKeys(keys: KeyNames, n: NItem)
    requires DistinctKeys(keys)
    ensures var ps := EncodeItem(keys, n).entries;
      && UniqueKeys(ps)
      && Lookup(ps, keys.choice) == StrValue(n.choice)
      && Lookup(ps, keys.itemDesc) == StrValue(n.desc)
      && Lookup(ps, keys.returnValue) == StrValue(n.returnValue)
      && Lookup(ps, keys.inputs) == InputsValue(n.inputs)
      && (OtherKeyFrom(keys, ps, 0) <==> n.inputs.Some?)
  {
    var p3 := Put(keys.inputs, InputsValue(n.inputs), []);
    var p2 := Put(keys.returnValue, StrValue(n.returnValue), p3);
    var p1 := Put(keys.itemDesc, StrValue(n.desc), p2);
    LookupPut(keys.inputs, InputsValue(n.inputs), [], keys.returnValue);
    LookupPut(keys.inputs, InputsValue(n.inputs), [], keys.itemDesc);
    LookupPut(keys.inputs, InputsValue(n.inputs), [], keys.choice);
    LookupPut(keys.inputs, InputsValue(n.inputs), [], keys.inputs);
    LookupPut(keys.returnValue, StrValue(n.returnValue), p3, keys.itemDesc);
    LookupPut(keys.returnValue, StrValue(n.returnValue), p3, keys.choice);
    LookupPut(keys.returnValue, StrValue(n.returnValue), p3, keys.returnValue);
    LookupPut(keys.returnValue, StrValue(n.returnValue), p3, keys.inputs);
    LookupPut(keys.itemDesc, StrValue(n.desc), p2, keys.choice);
    LookupPut(keys.itemDesc, StrValue(n.desc), p2, keys.itemDesc);
    LookupPut(keys.itemDesc, StrValue(n.desc), p2, keys.returnValue);
    LookupPut(keys.itemDesc, StrValue(n.desc), p2, keys.inputs);
    LookupPut(keys.choice, StrValue(n.choice), p1, keys.choice);
    LookupPut(keys.choice, StrValue(n.choice), p1, keys.itemDesc);
    LookupPut(keys.choice, StrValue(n.choice), p1, keys.returnValue);
    LookupPut(keys.choice, StrValue(n.choice), p1, keys.inputs);
    PutUnique(keys.inputs, InputsValue(n.inputs), []);
    PutUnique(keys.returnValue, StrValue(n.returnValue), p3);
    PutUnique(keys.itemDesc, StrValue(n.desc), p2);
    PutUnique(keys.choice, StrValue(n.choice), p1);
    OtherKeyPut(keys, keys.choice, StrValue(n.choice), p1);
    OtherKeyPut(keys, keys.itemDesc, StrValue(n.desc), p2);
    OtherKeyPut(keys, keys.returnValue, StrValue(n.returnValue), p3);
    assert OtherKeyFrom(keys, p3, 0) <==> n.inputs.Some? by {
      if n.inputs.Some? {
        assert p3[0].0 == keys.inputs;
      }
    }
  }

  lemma StrFieldOf(ps: seq<(string, Value)>, k: string, f: Option<string>)
    requires Lookup(ps, k) == StrValue(f)
    ensures StrField(ps, k) == f
  {
  }

  lemma DescFieldOf(ps: seq<(string, Value)>, k: string, f: Option<Option<string>>)
    requires Lookup(ps, k) == DescValue(f)
    ensures DescField(ps, k) == f
  {
  }

  /** Re-casing a list of already re-cased strings gives it back. */
  lemma InputsRoundTrip(cs: Value, ss: seq<string>)
    requires forall i :: 0 <= i < |ss| ==> Recased(cs, ss[i])
    ensures InputStrings(StrList(ss).elems, cs) == ss
  {
  }

  /** An item dict whose keys hold exactly the fields of a normalized item normalizes to that item. */
  lemma ItemOfFields(keys: KeyNames, cs: Value, item: Value, n: NItem)
    requires DistinctKeys(keys) && NormalItem(cs, n) && item.VDict? && UniqueKeys(item.entries)
    requires var ps := item.entries;
      && Lookup(ps, keys.choice) == StrValue(n.choice)
      && Lookup(ps, keys.itemDesc) == StrValue(n.desc)
      && Lookup(ps, keys.returnValue) == StrValue(n.returnValue)
      && Lookup(ps, keys.inputs) == InputsValue(n.inputs)
      && (OtherKeyFrom(keys, ps, 0) <==> n.inputs.Some?)
    ensures NormalizeItem(keys, cs, item) == Ok(n)
  {
    ItemMeaning(keys, cs, item);
    var ps := item.entries;
    if n.inputs.Some? {
      var ss := n.inputs.value;
      assert GetKey(item, keys.inputs) == Ok(StrList(ss));
      assert ItemInputs(keys, item) == Ok(StrList(ss).elems);
      InputsRoundTrip(cs, ss);
    }
    StrFieldOf(ps, keys.choice, n.choice);
    StrFieldOf(ps, keys.itemDesc, n.desc);
    StrFieldOf(ps, keys.returnValue, n.returnValue);
    var r := NormalizeItem(keys, cs, item);
    assert r.Ok?;
    assert r.value.inputs == n.inputs;
    assert r.value == n;
  }

  /** Normalizing a normalized item, written back as a dict, gives it back. */
  lemma ItemRoundTrip(keys: KeyNames, cs: Value, n: NItem)
    requires DistinctKeys(keys) && NormalItem(cs, n)
    ensures NormalizeItem(keys, cs, EncodeItem(keys, n)) == Ok(n)
  {
    EncodedItemKeys(keys, n);
    ItemOfFields(keys, cs, EncodeItem(keys, n), n);
  }

  lemma ItemsRoundTrip(keys: KeyNames, cs: Value, its: seq<NItem>)
    requires DistinctKeys(keys) && NormalItems(cs, its)
    ensures MapFrom(ItemFn(keys, cs), EncodeItems(keys, its), 0) == Ok(its)
  {
    forall i | 0 <= i < |its|
      ensures ItemFn(keys, cs)(EncodeItems(keys, its)[i]) == Ok(its[i])
    {
      ItemRoundTrip(keys, cs, its[i]);
    }
    MapFromAll(ItemFn(keys, cs), EncodeItems(keys, its), its);
  }

  /** The keys of an encoded tab: unique, each holding its field. */
  lemma EncodedTabKeys(keys: KeyNames, t: NTab)
    requires DistinctKeys(keys)
    ensures var ps := EncodeTab(keys, t).entries;
      && UniqueKeys(ps)
      && Lookup(ps, keys.selector) == StrValue(t.selector)
      && Lookup(ps, keys.desc) == DescValue(t.desc)
      && Lookup(ps, keys.longDesc) == DescValue(t.longDesc)
      && Lookup(ps, "items") == ItemsValue(keys, t.items)
      && (t == NoTab ==> ps == [])
  {
    var p3 := Put("items", ItemsValue(keys, t.items), []);
    var p2 := Put(keys.longDesc, DescValue(t.longDesc), p3);
    var p1 := Put(keys.desc, DescValue(t.desc), p2);
    LookupPut("items", ItemsValue(keys, t.items), [], keys.longDesc);
    LookupPut("items", ItemsValue(keys, t.items), [], keys.desc);
    LookupPut("items", ItemsValue(keys, t.items), [], keys.selector);
    LookupPut("items", ItemsValue(keys, t.items), [], "items");
    LookupPut(keys.longDesc, DescValue(t.longDesc), p3, keys.desc);
    LookupPut(keys.longDesc, DescValue(t.longDesc), p3, keys.selector);
    LookupPut(keys.longDesc, DescValue(t.longDesc), p3, keys.longDesc);
    LookupPut(keys.longDesc, DescValue(t.longDesc), p3, "items");
    LookupPut(keys.desc, DescValue(t.desc), p2, keys.selector);
    LookupPut(keys.desc, DescValue(t.desc), p2, keys.desc);
    LookupPut(keys.desc, DescValue(t.desc), p2, keys.longDesc);
    LookupPut(keys.desc, DescValue(t.desc), p2, "items");
    LookupPut(keys.selector, StrValue(t.selector), p1, keys.selector);
    LookupPut(keys.selector, StrValue(t.selector), p1, keys.desc);
    LookupPut(keys.selector, StrValue(t.selector), p1, keys.longDesc);
    LookupPut(keys.selector, StrValue(t.selector), p1, "items");
    PutUnique("items", ItemsValue(keys, t.items), []);
    PutUnique(keys.longDesc, DescValue(t.longDesc), p3);
    PutUnique(keys.desc, DescValue(t.desc), p2);
    PutUnique(keys.selector, StrValue(t.selector), p1);
  }

  /** A tab dict whose keys hold exactly the fields of a tab of the walk's shape normalizes to that tab. */
  lemma TabOfFields(keys: KeyNames, cs: Value, tab: Value, t: NTab)
    requires DistinctKeys(keys) && NormalTab(cs, t) && tab.VDict? && UniqueKeys(tab.entries)
    requires var ps := tab.entries;
      && Lookup(ps, keys.selector) == StrValue(t.selector)
      && Lookup(ps, keys.desc) == DescValue(t.desc)
      && Lookup(ps, keys.longDesc) == DescValue(t.longDesc)
      && Lookup(ps, "items") == ItemsValue(keys, t.items)
      && (t.items.None? ==> ps == [])
    ensures NormalizeTab(keys, cs, tab) == Ok(t)
  {
    TabMeaning(keys, cs, tab);
    var ps := tab.entries;
    DescFieldOf(ps, keys.desc, t.desc);
    DescFieldOf(ps, keys.longDesc, t.longDesc);
    if t.selector.Some? {
      assert SelectorField(ps, keys, cs) == t.selector;
    }
    if t.items.Some? {
      TabItemsOfField(keys, cs, tab, t.items.value);
    }
  }

  /** A tab dict whose `items` holds encoded items of the walk's shape reads them back. */
  lemma TabItemsOfField(keys: KeyNames, cs: Value, tab: Value, its: seq<NItem>)
    requires DistinctKeys(keys) && NormalItems(cs, its) && tab.VDict?
    requires Lookup(tab.entries, "items") == ItemsValue(keys, Some(its))
    ensures TabItems(keys, cs, tab) == Ok(its)
  {
    ItemsRoundTrip(keys, cs, its);
    assert GetKey(tab, "items") == Ok(VList(EncodeItems(keys, its)));
  }

  /** Normalizing a tab of the walk's shape, written back as a dict, gives it back. */
  lemma TabRoundTrip(keys: KeyNames, cs: Value, t: NTab)
    requires DistinctKeys(keys) && NormalTab(cs, t)
    ensures NormalizeTab(keys, cs, EncodeTab(keys, t)) == Ok(t)
  {
    EncodedTabKeys(keys, t);
    TabOfFields(keys, cs, EncodeTab(keys, t), t);
  }

  predicate NormalTabs(cs: Value, ts: seq<NTab>) {
    forall i :: 0 <= i < |ts| ==> NormalTab(cs, ts[i])
  }

  lemma TabsAreNormal(keys: KeyNames, cs: Value, tabs: seq<Value>)
    requires DistinctKeys(keys) && forall i :: 0 <= i < |tabs| ==> DictsUnique(tabs[i])
    requires MapFrom(TabFn(keys, cs), tabs, 0).Ok?
    ensures NormalTabs(cs, MapFrom(TabFn(keys, cs), tabs, 0).value)
  {
    var ts := MapFrom(TabFn(keys, cs), tabs, 0).value;
    MapFromLength(TabFn(keys, cs), tabs);
    forall i | 0 <= i < |ts|
      ensures NormalTab(cs, ts[i])
    {
      MapFromAt(TabFn(keys, cs), tabs, i);
      TabIsNormal(keys, cs, tabs[i]);
    }
  }

  lemma TabsRoundTrip(keys: KeyNames, cs: Value, ts: seq<NTab>)
    requires DistinctKeys(keys) && NormalTabs(cs, ts)
    ensures MapFrom(TabFn(keys, cs), EncodeTabs(keys, ts), 0) == Ok(ts)
  {
    forall i | 0 <= i < |ts|
      ensures TabFn(keys, cs)(EncodeTabs(keys, ts)[i]) == Ok(ts[i])
    {
      TabRoundTrip(keys, cs, ts[i]);
    }
    MapFromAll(TabFn(keys, cs), EncodeTabs(keys, ts), ts);
  }

  /** Every tab list the walk builds from a `tabs` value holding unique-key dicts is of the walk's shape. */
  lemma WalkIsNormal(keys: KeyNames, cs: Value, config: Value)
    requires DistinctKeys(keys) && WalkTabs(keys, cs, config).Ok?
    requires DictsUnique(GetKey(config, "tabs").value)
    ensures NormalTabs(cs, WalkTabs(keys, cs, config).value)
  {
    var tabsValue := GetKey(config, "tabs").value;
    IterDictsUnique(tabsValue);
    TabsAreNormal(keys, cs, Iter(tabsValue).value);
  }

  /** A normalized configuration written back as a dict: the three keys the walk writes, in its order. */
  function EncodeConfig(keys: KeyNames, n: NConfig): Value {
    VDict([("case_sensitive", n.caseSensitive), ("screen_width", n.screenWidth),
           ("tabs", VList(EncodeTabs(keys, n.tabs)))])
  }

  lemma EncodedConfigKeys(keys: KeyNames, n: NConfig)
    ensures var ps := EncodeConfig(keys, n).entries;
      && Lookup(ps, "case_sensitive") == Some(n.caseSensitive)
      && Lookup(ps, "screen_width") == Some(n.screenWidth)
      && Lookup(ps, "tabs") == Some(VList(EncodeTabs(keys, n.tabs)))
      && Lookup(ps, "items") == None
  {
    var ps := EncodeConfig(keys, n).entries;
    assert ps[1..][1..] == [ps[2]];
  }

  /** Walking the tabs of a written-back configuration gives its tabs back. */
  lemma WalkRoundTrip(keys: KeyNames, n: NConfig)
    requires DistinctKeys(keys) && NormalTabs(n.caseSensitive, n.tabs)
    ensures WalkTabs(keys, n.caseSensitive, EncodeConfig(keys, n)) == Ok(n.tabs)
  {
    EncodedConfigKeys(keys, n);
    TabsRoundTrip(keys, n.caseSensitive, n.tabs);
  }

  /** The walk over the fold of a configuration without `tabs` yields the one tab of its items. */
  lemma FoldedWalk(keys: KeyNames, assertText: string, es: seq<(string, Value)>, cs: Value, tabs: seq<NTab>)
    requires DistinctKeys(keys) && Lookup(es, "tabs").None? && AddTabsKey(es, assertText).Ok?
    requires WalkTabs(keys, cs, VDict(AddTabsKey(es, assertText).value)) == Ok(tabs)
    ensures var items := Iter(Lookup(es, "items").value);
      && items.Ok?
      && MapFrom(ItemFn(keys, cs), items.value, 0).Ok?
      && tabs == [NTab(None, None, None, Some(MapFrom(ItemFn(keys, cs), items.value, 0).value))]
  {
    FoldedTab(es, assertText);
    ItemsOnlyTab(keys, cs, Lookup(es, "items").value, tabs[0]);
  }

  /** The fold of a configuration without `tabs` holds one tab, made of the old `items`. */
  lemma FoldedTab(es: seq<(string, Value)>, assertText: string)
    requires Lookup(es, "tabs").None? && AddTabsKey(es, assertText).Ok?
    ensures Iter(GetKey(VDict(AddTabsKey(es, assertText).value), "tabs").value)
      == Ok([VDict([("items", Lookup(es, "items").value)])])
  {
    assert Lookup(AddTabsKey(es, assertText).value, "tabs") == Some(VList([VDict([("items", Lookup(es, "items").value)])]));
  }

  /** A tab holding only `items` normalizes to a tab with no header fields and those items. */
  lemma ItemsOnlyTab(keys: KeyNames, cs: Value, items: Value, nt: NTab)
    requires DistinctKeys(keys) && NormalizeTab(keys, cs, VDict([("items", items)])) == Ok(nt)
    ensures Iter(items).Ok? && MapFrom(ItemFn(keys, cs), Iter(items).value, 0).Ok?
    ensures nt == NTab(None, None, None, Some(MapFrom(ItemFn(keys, cs), Iter(items).value, 0).value))
  {
    TabMeaning(keys, cs, VDict([("items", items)]));
  }

  /** A value stored in a dict holding unique-key dicts holds only unique-key dicts itself. */
  lemma LookupDictsUnique(ps: seq<(string, Value)>, k: string)
    requires DictsUnique(VDict(ps)) && Lookup(ps, k).Some?
    ensures DictsUnique(Lookup(ps, k).value)
  {
    var i :| 0 <= i < |ps| && ps[i] == (k, Lookup(ps, k).value);
  }

  // ---------------------------------------------------------------------
  // `_add_tabs_key_if_needed`

  /**
   * A configuration without `tabs` gets `tabs = [{"items": items}]` and loses
   * its top-level `items`; one without either raises AssertionError with
   * `assertText`; one with `tabs` is left alone.
   */
  function AddTabsKey(es: seq<(string, Value)>, assertText: string): Result<seq<(string, Value)>> {
    if Lookup(es, "tabs").Some? then Ok(es)
    else
      match Lookup(es, "items")
      case None => Err(Exc(AssertionError, assertText))
      case Some(items) => Ok(DeleteKey(SetKey(es, "tabs", VList([VDict([("items", items)])])), "items"))
  }

  /** A new first entry keeps the keys unique when its key is not among the others. */
  lemma ConsUnique(x: (string, Value), ps: seq<(string, Value)>)
    requires UniqueKeys(ps) && Lookup(ps, x.0) == None
    ensures UniqueKeys([x] + ps)
  {
    assert forall j :: 0 <= j < |ps| ==> KeysOf(ps)[j] == ps[j].0;
  }

  lemma DeleteUnique(ps: seq<(string, Value)>, k: string)
    requires UniqueKeys(ps)
    ensures Lookup(DeleteKey(ps, k), k) == None
    ensures UniqueKeys(DeleteKey(ps, k))
    decreases |ps|
  {
    if |ps| > 0 && ps[0].0 != k {
      DeleteUnique(ps[1..], k);
      LookupPastOwnKey(ps, 0);
      assert ps[1..] == ps[0 + 1..];
      ConsUnique(ps[0], DeleteKey(ps[1..], k));
    } else if |ps| > 0 {
      LookupPastOwnKey(ps, 0);
      assert ps[1..] == ps[0 + 1..];
    }
  }

  lemma SetUnique(ps: seq<(string, Value)>, k: string, v: Value)
    requires UniqueKeys(ps)
    ensures UniqueKeys(SetKey(ps, k, v))
    decreases |ps|
  {
    if |ps| > 0 {
      LookupPastOwnKey(ps, 0);
      assert ps[1..] == ps[0 + 1..];
      if ps[0].0 != k {
        SetUnique(ps[1..], k, v);
        ConsUnique(ps[0], SetKey(ps[1..], k, v));
      } else {
        ConsUnique((k, v), ps[1..]);
      }
    }
  }

  /**
   * The single-tab layout is folded: afterwards `tabs` holds one tab whose
   * `items` are the old top-level items, `items` is gone, every other key is
   * unchanged, and doing it again changes nothing.
   */
  lemma AddTabsKeyFolds(es: seq<(string, Value)>, assertText: string)
    requires UniqueKeys(es) && Lookup(es, "tabs").None? && Lookup(es, "items").Some?
    ensures AddTabsKey(es, assertText).Ok?
    ensures var r := AddTabsKey(es, assertText).value;
      && Lookup(r, "tabs") == Some(VList([VDict([("items", Lookup(es, "items").value)])]))
      && Lookup(r, "items") == None
      && (forall k :: k != "tabs" && k != "items" ==> Lookup(r, k) == Lookup(es, k))
      && UniqueKeys(r)
      && AddTabsKey(r, assertText) == Ok(r)
  {
    var added := SetKey(es, "tabs", VList([VDict([("items", Lookup(es, "items").value)])]));
    SetUnique(es, "tabs", VList([VDict([("items", Lookup(es, "items").value)])]));
    DeleteUnique(added, "items");
  }

  /** The fold touches no key but `tabs` and `items`. */
  lemma AddTabsKeyKeepsOthers(es: seq<(string, Value)>, assertText: string, k: string)
    requires AddTabsKey(es, assertText).Ok? && k != "tabs" && k != "items"
    ensures Lookup(AddTabsKey(es, assertText).value, k) == Lookup(es, k)
  {
  }

  /** After the fold, `tabs` holds only unique-key dicts when the configuration did. */
  lemma AddTabsKeyDictsUnique(es: seq<(string, Value)>, assertText: string)
    requires DictsUnique(VDict(es)) && AddTabsKey(es, assertText).Ok?
    ensures var r := AddTabsKey(es, assertText).value;
      Lookup(r, "tabs").Some? && DictsUnique(Lookup(r, "tabs").value)
  {
    if Lookup(es, "tabs").Some? {
      LookupDictsUnique(es, "tabs");
    } else {
      AddTabsKeyFolds(es, assertText);
      LookupDictsUnique(es, "items");
      var tab := VDict([("items", Lookup(es, "items").value)]);
      assert DictsUnique(tab);
      assert DictsUnique(VList([tab]));
    }
  }

  /** A dict object passed to `_add_tabs_key_if_needed` is changed in place; the same object is returned. */
  method AddTabsKeyIfNeeded(config: Dict, assertText: string) returns (r: Result<Dict>)
    modifies config
    ensures AddTabsKey(old(config.entries), assertText).Ok? ==>
      r == Ok(config) && config.entries == AddTabsKey(old(config.entries), assertText).value
    ensures AddTabsKey(old(config.entries), assertText).Err? ==>
      r == Err(AddTabsKey(old(config.entries), assertText).error) && config.entries == old(config.entries)
  {
    if Lookup(config.entries, "tabs").None? {
      var items := Lookup(config.entries, "items");
      if items.None? {
        return Err(Exc(AssertionError, assertText));
      }
      config.entries := SetKey(config.entries, "tabs", VList([VDict([("items", items.value)])]));
      config.entries := DeleteKey(config.entries, "items");
    }
    return Ok(config);
  }

  // ---------------------------------------------------------------------
  // The loops

  /** `for old_entry in ...: new_entries.append(stringify_and_recase(old_entry, True))`. */
  method StringifyInputs(es: seq<Value>, cs: Value) returns (out: seq<string>)
    ensures out == InputStrings(es, cs)
  {
    out := [];
    var k := 0;
    while k < |es|
      invariant k <= |es| && |out| == k
      invariant forall i :: 0 <= i < k ==> out[i] == StrCase(es[i], true, cs)
    {
      out := out + [StrCase(es[k], true, cs)];
      k := k + 1;
    }
  }

  /** The loop over one item's keys. */
  method NormalizeItemLoop(keys: KeyNames, cs: Value, item: Value) returns (r: Result<NItem>)
    ensures r == NormalizeItem(keys, cs, item)
  {
    if !item.VDict? {
      return Err(NotADict(item));
    }
    ghost var whole := ItemFrom(keys, cs, item, NoItem, 0);
    var acc := NoItem;
    var j := 0;
    while j < |item.entries|
      invariant j <= |item.entries| && whole == ItemFrom(keys, cs, item, acc, j)
    {
      var (key, v) := item.entries[j];
      if key == keys.choice {
        acc := acc.(choice := Some(Str(v)));
      } else if key == keys.itemDesc {
        acc := acc.(desc := Some(Str(v)));
      } else if key == keys.returnValue {
        acc := acc.(returnValue := Some(Str(v)));
      } else {
        var es := ItemInputs(keys, item);
        if es.Err? {
          return Err(es.error);
        }
        var strings := StringifyInputs(es.value, cs);
        acc := acc.(inputs := Some(strings));
      }
      j := j + 1;
    }
    return Ok(acc);
  }

  /** `for old_item in old_tab["items"]`, appending each new item. */
  method NormalizeItemsLoop(keys: KeyNames, cs: Value, items: seq<Value>) returns (r: Result<seq<NItem>>)
    ensures r == MapFrom(ItemFn(keys, cs), items, 0)
  {
    var f := ItemFn(keys, cs);
    ghost var whole := MapFrom(f, items, 0);
    MapLoopStart(f, items);
    var out: seq<NItem> := [];
    var j := 0;
    while j < |items|
      invariant MapSoFar(f, items, j, out, whole)
    {
      var it := NormalizeItemLoop(keys, cs, items[j]);
      assert f(items[j]) == it;
      if it.Err? {
        MapLoopErr(f, items, j, out, whole, it.error);
        return Err(it.error);
      }
      MapLoopNext(f, items, j, out, whole, it.value);
      out := out + [it.value];
      j := j + 1;
    }
    MapLoopEnd(f, items, out, whole);
    return Ok(out);
  }

  /** The loop over one tab's keys; the item list is rebuilt on every pass, as written. */
  method NormalizeTabLoop(keys: KeyNames, cs: Value, tab: Value) returns (r: Result<NTab>)
    ensures r == NormalizeTab(keys, cs, tab)
  {
    if !tab.VDict? {
      return Err(NotADict(tab));
    }
    ghost var whole := TabFrom(keys, cs, tab, NoTab, 0);
    var acc := NoTab;
    var j := 0;
    while j < |tab.entries|
      invariant j <= |tab.entries| && whole == TabFrom(keys, cs, tab, acc, j)
    {
      var (key, v) := tab.entries[j];
      if key == keys.selector {
        acc := acc.(selector := Some(StrCase(v, true, cs)));
      } else if key == keys.desc {
        acc := acc.(desc := Some(StrOrNone(v)));
      } else if key == keys.longDesc {
        acc := acc.(longDesc := Some(StrOrNone(v)));
      }
      var itemsValue := GetKey(tab, "items");
      if itemsValue.Err? {
        return Err(itemsValue.error);
      }
      var items := Iter(itemsValue.value);
      if items.Err? {
        return Err(items.error);
      }
      var nitems := NormalizeItemsLoop(keys, cs, items.value);
      if nitems.Err? {
        return Err(nitems.error);
      }
      acc := acc.(items := Some(nitems.value));
      j := j + 1;
    }
    return Ok(acc);
  }

  /** `for old_tab in old_config["tabs"]`, appending each new tab. */
  method WalkTabsLoop(keys: KeyNames, cs: Value, config: Value) returns (r: Result<seq<NTab>>)
    ensures r == WalkTabs(keys, cs, config)
  {
    var tabsValue :- GetKey(config, "tabs");
    var tabs :- Iter(tabsValue);
    var f := TabFn(keys, cs);
    ghost var whole := MapFrom(f, tabs, 0);
    MapLoopStart(f, tabs);
    var out: seq<NTab> := [];
    var j := 0;
    while j < |tabs|
      invariant MapSoFar(f, tabs, j, out, whole)
    {
      var t := NormalizeTabLoop(keys, cs, tabs[j]);
      assert f(tabs[j]) == t;
      if t.Err? {
        MapLoopErr(f, tabs, j, out, whole, t.error);
        return Err(t.error);
      }
      MapLoopNext(f, tabs, j, out, whole, t.value);
      out := out + [t.value];
      j := j + 1;
    }
    MapLoopEnd(f, tabs, out, whole);
    return Ok(out);
  }
}
