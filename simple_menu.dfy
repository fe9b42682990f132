/**
 * The `Menu` class of src/pysimpletabshellmenu/menu.py: validation, the
 * reading of the configuration (`_parse_config`), the conversion of integer
 * choices to strings (`_convert_int_to_string`), and the run loop, a cursor
 * over the tabs driven by the lines the user types.
 *
 * Standard input is the field `stdin` (the lines still to be read); standard
 * output is the field `shown`, the list of things printed. The menu text is
 * the one `SimpleFormatting.FormatMenu` builds. The package's `Tab` class is
 * not part of this model: a tab object is known by the attributes the menu
 * reads and by the replies its `process_input` gives, and the menu is given
 * the function that builds one.
 */
module SimpleMenu {
  import opened PyValue
  import PO = PytabbyOverlap
  import LS = LegacySchema
  import LO = LegacyOverlap
  import SF = SimpleFormatting
  import TM = TabbedMenu
  import opened SchemaLib
  import PV = PytabbyValidators

  const HeaderKey := LS.HeaderKey

  // ---------------------------------------------------------------------
  // `_convert_int_to_string`

  /** `int_to_str`: an int (or a bool, which is an int in Python) becomes its `str`; anything else is kept. */
  function IntToStr(v: Value): (r: Value)
    ensures !IsInt(r)
    ensures !IsInt(v) ==> r == v
    ensures IsInt(v) ==> r.VStr? && Truthy(r)
  {
    if IsInt(v) then StrNonEmpty(v); VStr(Str(v)) else v
  }

  /** `int_to_str` on every element of a list. */
  function IntsToStrs(xs: seq<Value>): (r: seq<Value>)
    ensures |r| == |xs|
    ensures forall i :: 0 <= i < |xs| ==> r[i] == IntToStr(xs[i])
  {
    seq(|xs|, i requires 0 <= i < |xs| => IntToStr(xs[i]))
  }

  /**
   * The loop over `valid_entries`, assigning each converted entry back by
   * position: only a list takes the assignment; an empty container is left
   * alone since the loop never runs.
   */
  function ConvertEntries(entries: Value): (r: Result<Value>)
  {
    var xs :- Iter(entries);
    if |xs| == 0 then Ok(entries)
    else if entries.VList? then Ok(VList(IntsToStrs(xs)))
    else Err(Exc(TypeError, "'" + TypeName(entries) + "' object does not support item assignment"))
  }

  /** The conversion of one item: `choice_displayed`, then `returns`, then each of `valid_entries`. */
  function ConvertItem(item: Value): (r: Result<Value>)
  {
    var shown :- GetKey(item, "choice_displayed");
    var item1 := VDict(SetKey(item.entries, "choice_displayed", IntToStr(shown)));
    var ret :- GetKey(item1, "returns");
    var item2 := VDict(SetKey(item1.entries, "returns", IntToStr(ret)));
    var entries :- GetKey(item2, "valid_entries");
    var entries2 :- ConvertEntries(entries);
    Ok(VDict(SetKey(item2.entries, "valid_entries", entries2)))
  }

  /** A container with its elements replaced; a str or a dict is only ever rebuilt with no elements and stays as it is. */
  function Rebuild(container: Value, elems: seq<Value>): Value {
    match container
    case VList(_) => VList(elems)
    case VTuple(_) => VTuple(elems)
    case _ => container
  }

  /** The loop over a tab's `items`: each item's dict is converted in place, the container itself is not assigned. */
  function ConvertItems(items: Value): (r: Result<Value>)
  {
    var xs :- Iter(items);
    var ys :- MapFrom(ConvertItem, xs, 0);
    Ok(Rebuild(items, ys))
  }

  /**
   * The header of one tab: converted when present; a missing header
   * (KeyError) is allowed only when the configuration has exactly one tab,
   * otherwise the sanity assertion fails.
   */
  function ConvertHeader(count: nat, tab: Value): (r: Result<Value>)
  {
    match GetKey(tab, HeaderKey)
    case Ok(h) => Ok(VDict(SetKey(tab.entries, HeaderKey, IntToStr(h))))
    case Err(e) =>
      if e.cls != KeyError then Err(e)
      else if count == 1 then Ok(tab)
      else Err(Exc(AssertionError, ""))
  }

  /**
   * One pass of the outer loop of `_convert_int_to_string`, on a
   * configuration of `count` tabs. A converted tab keeps a missing header
   * missing, which only a lone tab may do, holds `int_to_str` of a present
   * one, and keeps every key but the header and `items` as it was.
   */
  function ConvertTab(count: nat, tab: Value): (r: Result<Value>)
    ensures r.Ok? ==> tab.VDict? && r.value.VDict?
    ensures r.Ok? && Lookup(tab.entries, HeaderKey).None? ==> count == 1 && Lookup(r.value.entries, HeaderKey).None?
    ensures r.Ok? && Lookup(tab.entries, HeaderKey).Some? ==>
      Lookup(r.value.entries, HeaderKey) == Some(IntToStr(Lookup(tab.entries, HeaderKey).value))
    ensures r.Ok? ==> forall k :: k != HeaderKey && k != "items" ==> Lookup(r.value.entries, k) == Lookup(tab.entries, k)
  {
    var tab1 :- ConvertHeader(count, tab);
    ConvertHeaderMeaning(count, tab);
    var items :- GetKey(tab1, "items");
    var items2 :- ConvertItems(items);
    Ok(VDict(SetKey(tab1.entries, "items", items2)))
  }

  function ConvertTabFn(count: nat): Value -> Result<Value> {
    tab => ConvertTab(count, tab)
  }

  /** `_convert_int_to_string` over the tabs of `config_tabs`: the first exception raised, or every tab converted. */
  function ConvertTabs(tabs: seq<Value>): (r: Result<seq<Value>>)
  {
    MapFrom(ConvertTabFn(|tabs|), tabs, 0)
  }

  // What the conversion leaves

  predicate NoInts(vs: seq<Value>) {
    forall i :: 0 <= i < |vs| ==> !IsInt(vs[i])
  }

  /** The dict has no int under `k`: the key is absent or holds something else. */
  predicate FieldNotInt(d: Value, k: string)
    requires d.VDict?
  {
    Lookup(d.entries, k).None? || !IsInt(Lookup(d.entries, k).value)
  }

  /** An item whose choice, return value and accepted entries are no longer ints. */
  predicate ItemStringified(item: Value) {
    && item.VDict?
    && Lookup(item.entries, "choice_displayed").Some? && !IsInt(Lookup(item.entries, "choice_displayed").value)
    && Lookup(item.entries, "returns").Some? && !IsInt(Lookup(item.entries, "returns").value)
    && Lookup(item.entries, "valid_entries").Some?
    && Iter(Lookup(item.entries, "valid_entries").value).Ok?
    && NoInts(Iter(Lookup(item.entries, "valid_entries").value).value)
  }

  /** A tab whose header (when it has one) and whose items carry no ints in the converted fields. */
  predicate TabStringified(tab: Value) {
    && tab.VDict?
    && FieldNotInt(tab, HeaderKey)
    && Lookup(tab.entries, "items").Some?
    && Iter(Lookup(tab.entries, "items").value).Ok?
    && forall i :: 0 <= i < |Iter(Lookup(tab.entries, "items").value).value| ==>
         ItemStringified(Iter(Lookup(tab.entries, "items").value).value[i])
  }

  /** The entries loop succeeds on a list or on an empty container; it leaves no int behind and converts element by element. */
  lemma ConvertEntriesMeaning(entries: Value)
    ensures ConvertEntries(entries).Ok? <==> Iter(entries).Ok? && (entries.VList? || |Iter(entries).value| == 0)
    ensures ConvertEntries(entries).Ok? ==> Iter(ConvertEntries(entries).value) == Ok(IntsToStrs(Iter(entries).value))
    ensures ConvertEntries(entries).Ok? ==> NoInts(Iter(ConvertEntries(entries).value).value)
  {
  }

  /** A converted item has strings where the source had ints, and keeps every other key. */
  lemma ConvertItemStringifies(item: Value)
    requires ConvertItem(item).Ok?
    ensures ItemStringified(ConvertItem(item).value)
    ensures forall k :: k != "choice_displayed" && k != "returns" && k != "valid_entries" ==>
      Lookup(ConvertItem(item).value.entries, k) == Lookup(item.entries, k)
  {
    var a := IntToStr(GetKey(item, "choice_displayed").value);
    var e1 := SetKey(item.entries, "choice_displayed", a);
    var b := IntToStr(GetKey(VDict(e1), "returns").value);
    var e2 := SetKey(e1, "returns", b);
    var entries := GetKey(VDict(e2), "valid_entries").value;
    ConvertEntriesMeaning(entries);
    var c := ConvertEntries(entries).value;
    var e3 := SetKey(e2, "valid_entries", c);
    assert ConvertItem(item) == Ok(VDict(e3));
    assert Lookup(e3, "choice_displayed") == Some(a);
    assert Lookup(e3, "returns") == Some(b);
  }

  /** The items loop converts every item and keeps their number; it fails on the first item that cannot be converted. */
  lemma ConvertItemsMeaning(items: Value)
    requires ConvertItems(items).Ok?
    ensures Iter(items).Ok?
    ensures var xs := Iter(items).value;
      var out := ConvertItems(items).value;
      && Iter(out).Ok? && |Iter(out).value| == |xs|
      && forall i :: 0 <= i < |xs| ==> ConvertItem(xs[i]) == Ok(Iter(out).value[i])
  {
    var xs := Iter(items).value;
    var ys := MapFrom(ConvertItem, xs, 0).value;
    assert ConvertItems(items) == Ok(Rebuild(items, ys));
    MapFromOk(ConvertItem, xs, 0);
    if IsListOrTuple(items) {
      assert Iter(Rebuild(items, ys)) == Ok(ys);
    } else if |xs| > 0 {
      assert false;
    }
  }

  /** A converted header is no longer an int; the header stays present or absent, and every other key is kept. */
  lemma ConvertHeaderMeaning(count: nat, tab: Value)
    requires ConvertHeader(count, tab).Ok?
    ensures var t := ConvertHeader(count, tab).value;
      && t.VDict? && tab.VDict? && FieldNotInt(t, HeaderKey)
      && (Lookup(t.entries, HeaderKey).Some? <==> Lookup(tab.entries, HeaderKey).Some?)
      && (Lookup(tab.entries, HeaderKey).None? ==> count == 1)
      && forall k :: k != HeaderKey ==> Lookup(t.entries, k) == Lookup(tab.entries, k)
  {
  }

  /**
   * A converted tab has no int left in the converted fields, has the same
   * items in the same number, and keeps every key other than the header and
   * `items`.
   */
  lemma ConvertTabStringifies(count: nat, tab: Value)
    requires ConvertTab(count, tab).Ok?
    ensures TabStringified(ConvertTab(count, tab).value)
    ensures forall k :: k != HeaderKey && k != "items" ==> Lookup(ConvertTab(count, tab).value.entries, k) == Lookup(tab.entries, k)
    ensures Lookup(ConvertTab(count, tab).value.entries, HeaderKey).Some? <==> Lookup(tab.entries, HeaderKey).Some?
  {
    var tab1 := ConvertHeader(count, tab).value;
    ConvertHeaderMeaning(count, tab);
    var items := GetKey(tab1, "items").value;
    ConvertItemsMeaning(items);
    var out := ConvertItems(items).value;
    var xs := Iter(out).value;
    forall i | 0 <= i < |xs|
      ensures ItemStringified(xs[i])
    {
      ConvertItemStringifies(Iter(items).value[i]);
    }
    assert ConvertTab(count, tab) == Ok(VDict(SetKey(tab1.entries, "items", out)));
  }

  // Converting twice

  /** Assigning a key the value it already holds changes nothing. */
  lemma {:induction false} SetKeySame(ps: seq<(string, Value)>, k: string, v: Value)
    requires Lookup(ps, k) == Some(v)
    ensures SetKey(ps, k, v) == ps
  {
    if ps[0].0 != k {
      SetKeySame(ps[1..], k, v);
    }
  }

  lemma ConvertEntriesIdempotent(entries: Value)
    requires ConvertEntries(entries).Ok?
    ensures ConvertEntries(ConvertEntries(entries).value) == ConvertEntries(entries)
  {
    var xs := Iter(entries).value;
    if |xs| > 0 {
      assert IntsToStrs(IntsToStrs(xs)) == IntsToStrs(xs);
    }
  }

  /** An item whose converted fields need no conversion is left as it is. */
  lemma ConvertItemFixed(es: seq<(string, Value)>)
    requires Lookup(es, "choice_displayed").Some? && !IsInt(Lookup(es, "choice_displayed").value)
    requires Lookup(es, "returns").Some? && !IsInt(Lookup(es, "returns").value)
    requires Lookup(es, "valid_entries").Some?
    requires ConvertEntries(Lookup(es, "valid_entries").value) == Ok(Lookup(es, "valid_entries").value)
    ensures ConvertItem(VDict(es)) == Ok(VDict(es))
  {
    SetKeySame(es, "choice_displayed", Lookup(es, "choice_displayed").value);
    SetKeySame(es, "returns", Lookup(es, "returns").value);
    SetKeySame(es, "valid_entries", Lookup(es, "valid_entries").value);
  }

  lemma ConvertItemIdempotent(item: Value)
    requires ConvertItem(item).Ok?
    ensures ConvertItem(ConvertItem(item).value) == ConvertItem(item)
  {
    var a := IntToStr(GetKey(item, "choice_displayed").value);
    var e1 := SetKey(item.entries, "choice_displayed", a);
    var b := IntToStr(GetKey(VDict(e1), "returns").value);
    var e2 := SetKey(e1, "returns", b);
    var entries := GetKey(VDict(e2), "valid_entries").value;
    var c := ConvertEntries(entries).value;
    var e3 := SetKey(e2, "valid_entries", c);
    assert ConvertItem(item) == Ok(VDict(e3));
    ConvertEntriesIdempotent(entries);
    assert Lookup(e3, "valid_entries") == Some(c);
    assert Lookup(e3, "returns") == Lookup(e2, "returns") == Some(b);
    assert Lookup(e3, "choice_displayed") == Lookup(e2, "choice_displayed") == Lookup(e1, "choice_displayed") == Some(a);
    ConvertItemFixed(e3);
  }

  lemma ConvertItemsIdempotent(items: Value)
    requires ConvertItems(items).Ok?
    ensures ConvertItems(ConvertItems(items).value) == ConvertItems(items)
  {
    var out := ConvertItems(items).value;
    ConvertItemsMeaning(items);
    var xs := Iter(items).value;
    var ys := Iter(out).value;
    forall i | 0 <= i < |ys|
      ensures ConvertItem(ys[i]) == Ok(ys[i])
    {
      ConvertItemIdempotent(xs[i]);
    }
    MapFromAll(ConvertItem, ys, ys);
    assert Rebuild(out, ys) == out;
  }

  lemma ConvertTabIdempotent(count: nat, tab: Value)
    requires ConvertTab(count, tab).Ok?
    ensures ConvertTab(count, ConvertTab(count, tab).value) == ConvertTab(count, tab)
  {
    var tab1 := ConvertHeader(count, tab).value;
    ConvertHeaderMeaning(count, tab);
    var items := GetKey(tab1, "items").value;
    var items2 := ConvertItems(items).value;
    var es := SetKey(tab1.entries, "items", items2);
    assert ConvertTab(count, tab) == Ok(VDict(es));
    ConvertItemsIdempotent(items);
    SetKeySame(es, "items", items2);
    match Lookup(es, HeaderKey)
    case Some(h) =>
      SetKeySame(es, HeaderKey, h);
      assert ConvertHeader(count, VDict(es)) == Ok(VDict(es));
    case None =>
      assert ConvertHeader(count, VDict(es)) == Ok(VDict(es));
  }

  /**
   * `_convert_int_to_string` changes nothing more when it runs again on its
   * own output, as it does when a second menu is built on the same dict.
   */
  lemma ConvertTabsIdempotent(tabs: seq<Value>)
    requires ConvertTabs(tabs).Ok?
    ensures ConvertTabs(ConvertTabs(tabs).value) == ConvertTabs(tabs)
  {
    var out := ConvertTabs(tabs).value;
    MapFromOk(ConvertTabFn(|tabs|), tabs, 0);
    forall i | 0 <= i < |out|
      ensures ConvertTabFn(|out|)(out[i]) == Ok(out[i])
    {
      ConvertTabIdempotent(|tabs|, tabs[i]);
    }
    MapFromAll(ConvertTabFn(|out|), out, out);
  }


  // ---------------------------------------------------------------------
  // `_parse_config`

  /** The tab selectors line up with the tabs when every tab has a truthy header. */
  predicate AllHeaded(tabs: seq<Value>) {
    forall k :: 0 <= k < |tabs| ==> tabs[k].VDict? && Lookup(tabs[k].entries, HeaderKey).Some? && Truthy(Lookup(tabs[k].entries, HeaderKey).value)
  }

  predicate NoneHeaded(tabs: seq<Value>) {
    forall k :: 0 <= k < |tabs| ==> tabs[k].VDict? && !Truthy(DictGet(tabs[k], HeaderKey, VNone).value)
  }

  /** With every tab headed, the selector list holds each tab's header at the tab's own position. */
  lemma {:induction false} SelectorsOfHeaded(tabs: seq<Value>)
    requires AllHeaded(tabs)
    ensures PO.TruthyGets(tabs, HeaderKey).Ok?
    ensures var sel := PO.TruthyGets(tabs, HeaderKey).value;
      |sel| == |tabs| && forall k :: 0 <= k < |tabs| ==> sel[k] == Lookup(tabs[k].entries, HeaderKey).value
    decreases |tabs|
  {
    if tabs != [] {
      assert AllHeaded(tabs[1..]) by {
        forall k | 0 <= k < |tabs[1..]|
          ensures tabs[1..][k] == tabs[k + 1]
        {
        }
      }
      SelectorsOfHeaded(tabs[1..]);
      var rest := PO.TruthyGets(tabs[1..], HeaderKey).value;
      assert PO.TruthyGets(tabs, HeaderKey) == Ok([Lookup(tabs[0].entries, HeaderKey).value] + rest);
    }
  }

  /** With no tab headed, the selector list is empty. */
  lemma {:induction false} SelectorsOfUnheaded(tabs: seq<Value>)
    requires NoneHeaded(tabs)
    ensures PO.TruthyGets(tabs, HeaderKey) == Ok([])
    decreases |tabs|
  {
    if tabs != [] {
      assert NoneHeaded(tabs[1..]) by {
        forall k | 0 <= k < |tabs[1..]|
          ensures tabs[1..][k] == tabs[k + 1]
        {
        }
      }
      SelectorsOfUnheaded(tabs[1..]);
    }
  }

  /** `config.get("screen_width", 80)` is an int. */
  predicate WidthIsInt(es: seq<(string, Value)>) {
    IsInt(DictGet(VDict(es), "screen_width", VInt(80)).value)
  }

  lemma ConformingWidth(keys: seq<KeySpec>, config: Value)
    requires |keys| >= 2 && keys[0].name != "screen_width" && keys[1] == KeySpec(Optional, "screen_width", IsInteger)
    requires Conforms(keys, config)
    ensures WidthIsInt(config.entries)
  {
    match Lookup(config.entries, "screen_width")
    case None =>
    case Some(x) =>
      var i :| 0 <= i < |config.entries| && config.entries[i] == ("screen_width", x);
      assert config.entries[i] in config.entries;
      assert FindSpec(keys, "screen_width") == Some(keys[1]);
  }

  /** Once `validate_all` has accepted a configuration, its `screen_width` (when given) is an int. */
  lemma ValidatedWidth(es: seq<(string, Value)>)
    requires LO.ValidateAllResult(LO.PySimpleTabShellMenu, es).Ok?
    ensures WidthIsInt(LO.ValidateAllState(LO.PySimpleTabShellMenu, es))
  {
    LO.ValidateAllMeaning(LO.PySimpleTabShellMenu, es);
    var layout := PV.DetermineLayout(VDict(es)).value;
    if layout == PV.SingleWithoutKey {
      ConformingWidth(LS.OuterWithoutTabs.keys, VDict(es));
    } else {
      ConformingWidth(LS.OuterWithTabs.keys, VDict(es));
    }
    assert Lookup(LS.TabsAdded(es), "screen_width") == Lookup(es, "screen_width");
  }

  /** `config_tabs`: a one-tab list around a truthy top-level `items`, otherwise `config["tabs"]`. */
  function ConfigTabsValue(config: Value): (r: Result<Value>)
  {
    var items :- DictGet(config, "items", VNone);
    if Truthy(items) then Ok(VList([VDict([("items", items)])]))
    else GetKey(config, "tabs")
  }

  // ---------------------------------------------------------------------
  // Tab objects

  /** What a tab's `process_input` answers to an accepted line. */
  datatype Reply = ChangeTab(newNumber: int) | Return(value: Value)

  /**
   * The parts of a package `Tab` object the menu reads: the three header
   * attributes, and the replies of `process_input` to the lines it accepts
   * (any other line is invalid).
   */
  datatype TabObject = TabObject(headChoice: Value, headDesc: Value, headDescLong: Value, replies: map<string, Reply>)

  /** `process_input(selection)`: the reply, or `None` for `{"type": "invalid"}`. */
  function ProcessInput(tab: TabObject, selection: string): Option<Reply> {
    if selection in tab.replies then Some(tab.replies[selection]) else None
  }

  /** `Tab(tab, tab_selectors, case_sensitive)`: builds one tab object, or raises. */
  type TabMaker = (Value, seq<Value>, Value) -> Result<TabObject>

  function MakeTabFn(makeTab: TabMaker, selectors: seq<Value>, caseSensitive: Value): Value -> Result<TabObject> {
    tab => makeTab(tab, selectors, caseSensitive)
  }

  /** The attributes `_parse_config` sets, in the source's terms. */
  datatype Parsed = Parsed(caseSensitive: Value, screenWidth: int, configTabs: seq<Value>, selectors: seq<Value>, tabs: seq<TabObject>)

  /**
   * `_parse_config` on the (already validated) dict `es`, with the start tab
   * `start`: the flags, `config_tabs`, the int-to-str conversion, the tab
   * selectors, the start-tab assertion and one tab object per tab. A parsed
   * menu has the start tab below the tab count, one tab object per tab, and
   * a single tab when the top-level `items` is truthy.
   */
  function Parse(es: seq<(string, Value)>, start: int, makeTab: TabMaker): (r: Result<Parsed>)
    requires WidthIsInt(es)
    ensures r.Ok? ==> start < |r.value.configTabs| && |r.value.tabs| == |r.value.configTabs|
    ensures r.Ok? && Truthy(DictGet(VDict(es), "items", VNone).value) ==> |r.value.configTabs| == 1
  {
    var config := VDict(es);
    var caseSensitive := DictGet(config, "case_sensitive", VBool(false)).value;
    var width := AsInt(DictGet(config, "screen_width", VInt(80)).value);
    var container :- ConfigTabsValue(config);
    var raw :- Iter(container);
    var converted :- ConvertTabs(raw);
    MapFromLength(ConvertTabFn(|raw|), raw);
    var selectors :- PO.TruthyGets(converted, HeaderKey);
    if !(start < |converted|) then Err(Exc(AssertionError, ""))
    else
      var objects :- MapFrom(MakeTabFn(makeTab, selectors, caseSensitive), converted, 0);
      MapFromLength(MakeTabFn(makeTab, selectors, caseSensitive), converted);
      Ok(Parsed(caseSensitive, width, converted, selectors, objects))
  }

  /**
   * A parsed menu has the start tab below the tab count, one tab object per
   * tab built with the full selector list, every tab converted from the
   * configuration's tab of the same position, and the selectors the truthy
   * converted headers; a truthy top-level `items` makes the only tab.
   */
  lemma ParseMeaning(es: seq<(string, Value)>, start: int, makeTab: TabMaker)
    requires WidthIsInt(es) && Parse(es, start, makeTab).Ok?
    ensures var p := Parse(es, start, makeTab).value;
      var raw := Iter(ConfigTabsValue(VDict(es)).value).value;
      && start < |p.configTabs| && |p.tabs| == |p.configTabs| && |raw| == |p.configTabs|
      && p.caseSensitive == DictGet(VDict(es), "case_sensitive", VBool(false)).value
      && p.screenWidth == AsInt(DictGet(VDict(es), "screen_width", VInt(80)).value)
      && PO.TruthyGets(p.configTabs, HeaderKey) == Ok(p.selectors)
      && (Truthy(DictGet(VDict(es), "items", VNone).value) ==> |p.configTabs| == 1)
      && (forall i :: 0 <= i < |p.configTabs| ==> ConvertTab(|raw|, raw[i]) == Ok(p.configTabs[i]) && TabStringified(p.configTabs[i]))
      && (forall i :: 0 <= i < |p.tabs| ==> makeTab(p.configTabs[i], p.selectors, p.caseSensitive) == Ok(p.tabs[i]))
  {
    var config := VDict(es);
    var caseSensitive := DictGet(config, "case_sensitive", VBool(false)).value;
    var width := AsInt(DictGet(config, "screen_width", VInt(80)).value);
    var raw := Iter(ConfigTabsValue(config).value).value;
    var converted := ConvertTabs(raw).value;
    var selectors := PO.TruthyGets(converted, HeaderKey).value;
    var objects := MapFrom(MakeTabFn(makeTab, selectors, caseSensitive), converted, 0).value;
    assert Parse(es, start, makeTab) == Ok(Parsed(caseSensitive, width, converted, selectors, objects));
    MapFromOk(ConvertTabFn(|raw|), raw, 0);
    MapFromOk(MakeTabFn(makeTab, selectors, caseSensitive), converted, 0);
    forall i | 0 <= i < |converted|
      ensures ConvertTab(|raw|, raw[i]) == Ok(converted[i]) && TabStringified(converted[i])
    {
      MapFromAt(ConvertTabFn(|raw|), raw, i);
      ConvertTabStringifies(|raw|, raw[i]);
    }
    forall i | 0 <= i < |objects|
      ensures makeTab(converted[i], selectors, caseSensitive) == Ok(objects[i])
    {
      MapFromAt(MakeTabFn(makeTab, selectors, caseSensitive), converted, i);
    }
  }

  // ---------------------------------------------------------------------
  // Construction

  /**
   * `Menu(config, start_tab_number)` up to the finished attributes: an
   * invalid configuration raises `validate_all`'s exception, and a valid one
   * is parsed in the state `validate_all` leaves it in. A configuration the
   * schema rejects raises InvalidInputError before anything is parsed.
   */
  function Build(es: seq<(string, Value)>, start: int, makeTab: TabMaker): (r: Result<Parsed>)
    ensures !LS.ConfigValid(VDict(es)) ==> r == Err(LO.Invalid)
    ensures r.Ok? ==> LS.ConfigValid(VDict(es))
  {
    LO.ValidateAllMeaning(LO.PySimpleTabShellMenu, es);
    var _ :- LO.ValidateAllResult(LO.PySimpleTabShellMenu, es);
    ValidatedWidth(es);
    Parse(LO.ValidateAllState(LO.PySimpleTabShellMenu, es), start, makeTab)
  }

  /**
   * A configuration that the validators reject raises InvalidInputError
   * before anything is parsed; a built menu comes from a configuration that
   * passes the schema and both overlap checks.
   */
  lemma BuildMeaning(es: seq<(string, Value)>, start: int, makeTab: TabMaker)
    ensures Build(es, start, makeTab).Ok? ==>
      && LO.InputOverlap(LO.PySimpleTabShellMenu, VDict(es)) == Ok(())
      && LO.ReturnOverlap(LO.PySimpleTabShellMenu, VDict(es)) == Ok(())
      && LO.ValidateAllState(LO.PySimpleTabShellMenu, es) == LS.TabsAdded(es)
  {
    LO.ValidateAllMeaning(LO.PySimpleTabShellMenu, es);
  }

  /** A key that no specification names is absent from a conforming dict. */
  lemma ConformsAbsent(keys: seq<KeySpec>, v: Value, k: string)
    requires Conforms(keys, v) && forall ks :: ks in keys ==> ks.name != k
    ensures Lookup(v.entries, k).None?
  {
    if Lookup(v.entries, k).Some? {
      var i :| 0 <= i < |v.entries| && v.entries[i] == (k, Lookup(v.entries, k).value);
      assert v.entries[i] in v.entries;
      FindSpecMeaning(keys, k);
      assert false;
    }
  }

  /** A validated configuration without `tabs` has a truthy top-level `items`. */
  lemma ValidItems(es: seq<(string, Value)>)
    requires LS.ConfigValid(VDict(es)) && PV.DetermineLayout(VDict(es)) == Ok(PV.SingleWithoutKey)
    ensures Lookup(es, "items").Some? && Truthy(Lookup(es, "items").value)
  {
    assert LS.OnlySpecNamed(LS.OuterWithoutTabs.keys, KeySpec(Required, "items", NonEmptyList));
    LS.ConformsField(LS.OuterWithoutTabs.keys, VDict(es), KeySpec(Required, "items", NonEmptyList));
  }

  /** A validated configuration with `tabs` has no top-level `items`. */
  lemma ValidTabsNoItems(es: seq<(string, Value)>)
    requires LS.ConfigValid(VDict(es)) && PV.DetermineLayout(VDict(es)) != Ok(PV.SingleWithoutKey)
    ensures Lookup(es, "items").None? && PV.Children(VDict(es), "tabs").Ok?
  {
    assert Conforms(LS.OuterWithTabs.keys, VDict(es));
    OuterWithTabsOmitsItems();
    ConformsAbsent(LS.OuterWithTabs.keys, VDict(es), "items");
  }

  /** The outer schema of a configuration with `tabs` does not name `items`. */
  lemma OuterWithTabsOmitsItems()
    ensures forall ks :: ks in LS.OuterWithTabs.keys ==> ks.name != "items"
  {
  }

  /** In a valid several-tab configuration every tab has an int or non-empty str header. */
  lemma ValidTabsHeaded(es: seq<(string, Value)>)
    requires LS.ConfigValid(VDict(es)) && PV.DetermineLayout(VDict(es)) == Ok(PV.Multiple)
    ensures PV.Children(VDict(es), "tabs").Ok?
    ensures var raw := PV.Children(VDict(es), "tabs").value;
      forall i :: 0 <= i < |raw| ==> raw[i].VDict? && Lookup(raw[i].entries, HeaderKey).Some? && Passes(IntOrStrToken, Lookup(raw[i].entries, HeaderKey).value)
  {
    var raw := PV.Children(VDict(es), "tabs").value;
    assert forall i :: 0 <= i < |raw| ==> LS.TabValid(LS.TabMultiple, raw[i]);
    forall i | 0 <= i < |raw|
      ensures raw[i].VDict? && Lookup(raw[i].entries, HeaderKey).Some? && Passes(IntOrStrToken, Lookup(raw[i].entries, HeaderKey).value)
    {
      ValidTabHeader(raw[i]);
    }
  }

  /** A tab valid for the several-tab layout has an int or non-empty str header. */
  lemma ValidTabHeader(tab: Value)
    requires LS.TabValid(LS.TabMultiple, tab)
    ensures tab.VDict? && Lookup(tab.entries, HeaderKey).Some? && Passes(IntOrStrToken, Lookup(tab.entries, HeaderKey).value)
  {
    var spec := KeySpec(Required, HeaderKey, IntOrStrToken);
    assert LS.OnlySpecNamed(LS.TabMultiple.keys, spec);
    LS.ConformsField(LS.TabMultiple.keys, tab, spec);
  }

  /** In a valid one-tab configuration under `tabs`, the one tab has no header. */
  lemma ValidTabsSingle(es: seq<(string, Value)>)
    requires LS.ConfigValid(VDict(es)) && PV.DetermineLayout(VDict(es)) == Ok(PV.SingleWithKey)
    ensures PV.Children(VDict(es), "tabs").Ok?
    ensures var raw := PV.Children(VDict(es), "tabs").value;
      |raw| == 1 && raw[0].VDict? && Lookup(raw[0].entries, HeaderKey).None?
  {
    var raw := PV.Children(VDict(es), "tabs").value;
    ConformsAbsent(LS.TabSingle.keys, raw[0], HeaderKey);
  }

  /** The tabs `_parse_config` keeps are the conversions of the tabs `config_tabs` holds, position by position. */
  lemma ParseConverts(es: seq<(string, Value)>, start: int, makeTab: TabMaker, raw: seq<Value>)
    requires WidthIsInt(es) && Parse(es, start, makeTab).Ok?
    requires ConfigTabsValue(VDict(es)).Ok? && Iter(ConfigTabsValue(VDict(es)).value) == Ok(raw)
    ensures var converted := Parse(es, start, makeTab).value.configTabs;
      |converted| == |raw| && forall i :: 0 <= i < |raw| ==> ConvertTab(|raw|, raw[i]) == Ok(converted[i])
  {
    ParseMeaning(es, start, makeTab);
  }

  /** An int or non-empty str header is truthy after `int_to_str`. */
  lemma TokenTruthy(h: Value)
    requires Passes(IntOrStrToken, h)
    ensures Truthy(IntToStr(h))
  {
    if !IsInt(h) {
      assert h.VStr? && Str(h) == h.s;
    }
  }

  /** Tabs whose headers are ints or non-empty strs are all headed after conversion. */
  lemma ConvertedHeaded(raw: seq<Value>, converted: seq<Value>)
    requires |converted| == |raw| && forall i :: 0 <= i < |raw| ==> ConvertTab(|raw|, raw[i]) == Ok(converted[i])
    requires forall i :: 0 <= i < |raw| ==>
      raw[i].VDict? && Lookup(raw[i].entries, HeaderKey).Some? && Passes(IntOrStrToken, Lookup(raw[i].entries, HeaderKey).value)
    ensures AllHeaded(converted)
  {
    forall i | 0 <= i < |raw|
      ensures converted[i].VDict? && Lookup(converted[i].entries, HeaderKey).Some? && Truthy(Lookup(converted[i].entries, HeaderKey).value)
    {
      TokenTruthy(Lookup(raw[i].entries, HeaderKey).value);
    }
  }

  /** A lone tab without a header stays unheaded after conversion. */
  lemma ConvertedUnheaded(converted: seq<Value>)
    requires |converted| == 1 && converted[0].VDict? && Lookup(converted[0].entries, HeaderKey).None?
    ensures NoneHeaded(converted)
  {
    assert DictGet(converted[0], HeaderKey, VNone) == Ok(VNone);
  }

  /** A built menu is the parse of the configuration as `validate_all` leaves it. */
  lemma BuiltParses(es: seq<(string, Value)>, start: int, makeTab: TabMaker)
    requires Build(es, start, makeTab).Ok?
    ensures LS.ConfigValid(VDict(es)) && WidthIsInt(LS.TabsAdded(es))
    ensures Build(es, start, makeTab) == Parse(LS.TabsAdded(es), start, makeTab)
  {
    BuildMeaning(es, start, makeTab);
    ValidatedWidth(es);
  }

  /** Several tabs with int or non-empty str headers parse into tabs that are all headed. */
  lemma ParsedHeaded(es: seq<(string, Value)>, start: int, makeTab: TabMaker)
    requires WidthIsInt(es) && Parse(es, start, makeTab).Ok?
    requires Lookup(es, "items").None? && PV.Children(VDict(es), "tabs").Ok?
    requires var raw := PV.Children(VDict(es), "tabs").value;
      forall i :: 0 <= i < |raw| ==> raw[i].VDict? && Lookup(raw[i].entries, HeaderKey).Some? && Passes(IntOrStrToken, Lookup(raw[i].entries, HeaderKey).value)
    ensures AllHeaded(Parse(es, start, makeTab).value.configTabs)
  {
    var raw := PV.Children(VDict(es), "tabs").value;
    assert ConfigTabsValue(VDict(es)) == GetKey(VDict(es), "tabs");
    ParseConverts(es, start, makeTab, raw);
    ConvertedHeaded(raw, Parse(es, start, makeTab).value.configTabs);
  }

  /** One tab without a header parses into one unheaded tab. */
  lemma ParsedOneTab(es: seq<(string, Value)>, start: int, makeTab: TabMaker, raw: seq<Value>)
    requires WidthIsInt(es) && Parse(es, start, makeTab).Ok?
    requires ConfigTabsValue(VDict(es)).Ok? && Iter(ConfigTabsValue(VDict(es)).value) == Ok(raw)
    requires |raw| == 1 && raw[0].VDict? && Lookup(raw[0].entries, HeaderKey).None?
    ensures |Parse(es, start, makeTab).value.configTabs| == 1 && NoneHeaded(Parse(es, start, makeTab).value.configTabs)
  {
    var converted := Parse(es, start, makeTab).value.configTabs;
    ParseConverts(es, start, makeTab, raw);
    ConvertedUnheaded(converted);
  }

  /**
   * For a configuration the validators accept, the menu's tab selectors line
   * up with its tabs: a several-tab configuration has every converted tab
   * headed, and a single-tab one (with or without the `tabs` key) has one tab
   * and no header.
   */
  lemma BuiltSelectors(es: seq<(string, Value)>, start: int, makeTab: TabMaker)
    requires Build(es, start, makeTab).Ok?
    ensures var p := Build(es, start, makeTab).value;
      && (PV.DetermineLayout(VDict(es)) == Ok(PV.Multiple) ==> AllHeaded(p.configTabs))
      && (PV.DetermineLayout(VDict(es)) != Ok(PV.Multiple) ==> |p.configTabs| == 1 && NoneHeaded(p.configTabs))
  {
    BuiltParses(es, start, makeTab);
    var layout := PV.DetermineLayout(VDict(es));
    if layout == Ok(PV.SingleWithoutKey) {
      BuiltFromItems(es, start, makeTab);
    } else if layout == Ok(PV.Multiple) {
      BuiltFromTabs(es, start, makeTab);
    } else {
      BuiltFromOneTab(es, start, makeTab);
    }
  }

  /** A validated configuration without `tabs` parses into one unheaded tab. */
  lemma BuiltFromItems(es: seq<(string, Value)>, start: int, makeTab: TabMaker)
    requires LS.ConfigValid(VDict(es)) && PV.DetermineLayout(VDict(es)) == Ok(PV.SingleWithoutKey)
    requires WidthIsInt(LS.TabsAdded(es)) && Parse(LS.TabsAdded(es), start, makeTab).Ok?
    ensures var p := Parse(LS.TabsAdded(es), start, makeTab).value;
      |p.configTabs| == 1 && NoneHeaded(p.configTabs)
  {
    var es2 := LS.TabsAdded(es);
    ValidItems(es);
    LS.TabsAddedKeepsItems(es);
    var raw := [VDict([("items", Lookup(es, "items").value)])];
    assert ConfigTabsValue(VDict(es2)) == Ok(VList(raw));
    ParsedOneTab(es2, start, makeTab, raw);
  }

  /** A validated several-tab configuration parses into tabs that are all headed. */
  lemma BuiltFromTabs(es: seq<(string, Value)>, start: int, makeTab: TabMaker)
    requires LS.ConfigValid(VDict(es)) && PV.DetermineLayout(VDict(es)) == Ok(PV.Multiple)
    requires WidthIsInt(LS.TabsAdded(es)) && Parse(LS.TabsAdded(es), start, makeTab).Ok?
    ensures AllHeaded(Parse(LS.TabsAdded(es), start, makeTab).value.configTabs)
  {
    ValidTabsNoItems(es);
    ValidTabsHeaded(es);
    assert LS.TabsAdded(es) == es;
    ParsedHeaded(es, start, makeTab);
  }

  /** A validated one-tab configuration under `tabs` parses into one unheaded tab. */
  lemma BuiltFromOneTab(es: seq<(string, Value)>, start: int, makeTab: TabMaker)
    requires LS.ConfigValid(VDict(es)) && PV.DetermineLayout(VDict(es)) == Ok(PV.SingleWithKey)
    requires WidthIsInt(LS.TabsAdded(es)) && Parse(LS.TabsAdded(es), start, makeTab).Ok?
    ensures var p := Parse(LS.TabsAdded(es), start, makeTab).value;
      |p.configTabs| == 1 && NoneHeaded(p.configTabs)
  {
    ValidTabsNoItems(es);
    ValidTabsSingle(es);
    assert LS.TabsAdded(es) == es;
    assert ConfigTabsValue(VDict(es)) == GetKey(VDict(es), "tabs");
    ParsedOneTab(es, start, makeTab, PV.Children(VDict(es), "tabs").value);
  }

  // ---------------------------------------------------------------------
  // `_change_tab`, `_collect_input`

  /** What a menu prints: a line of text (the menu, a tab change) or an input prompt. */
  datatype Event = Printed(text: string) | Prompted(text: string)

  /** The text after `lead` when the attribute is truthy, else nothing. */
  function Part(lead: string, v: Value): string {
    if Truthy(v) then lead + Str(v) else ""
  }

  /** `_change_tab`'s message, printed only when the new tab has a truthy `head_choice`. */
  function Announcement(tab: TabObject): seq<Event> {
    if Truthy(tab.headChoice) then
      [Printed("Change tab to " + Str(tab.headChoice) + Part(": ", tab.headDesc) + Part("\n", tab.headDescLong))]
    else []
  }

  /** The message names the new tab's choice, and has the description parts exactly when they are truthy. */
  lemma AnnouncementMeaning(tab: TabObject)
    ensures |Announcement(tab)| == 1 <==> Truthy(tab.headChoice)
    ensures |Announcement(tab)| == 0 <==> !Truthy(tab.headChoice)
    ensures Truthy(tab.headChoice) && !Truthy(tab.headDesc) && !Truthy(tab.headDescLong) ==>
      Announcement(tab) == [Printed("Change tab to " + Str(tab.headChoice))]
    ensures Truthy(tab.headChoice) && Truthy(tab.headDesc) && !Truthy(tab.headDescLong) ==>
      Announcement(tab) == [Printed("Change tab to " + Str(tab.headChoice) + ": " + Str(tab.headDesc))]
    ensures Truthy(tab.headChoice) && !Truthy(tab.headDesc) && Truthy(tab.headDescLong) ==>
      Announcement(tab) == [Printed("Change tab to " + Str(tab.headChoice) + "\n" + Str(tab.headDescLong))]
  {
    if Truthy(tab.headChoice) {
      var head := "Change tab to " + Str(tab.headChoice);
      var desc := Part(": ", tab.headDesc);
      var long := Part("\n", tab.headDescLong);
      assert Announcement(tab) == [Printed(head + desc + long)];
      if !Truthy(tab.headDesc) {
        assert head + desc == head;
      } else {
        assert head + desc == head + ": " + Str(tab.headDesc);
      }
      if !Truthy(tab.headDescLong) {
        assert head + desc + long == head + desc;
      } else {
        assert head + desc + long == head + desc + "\n" + Str(tab.headDescLong);
      }
    }
  }


  /** The state `_collect_input` leaves: everything printed, the unread lines, and the reply or the exception. */
  datatype Collected = Collected(printed: seq<Event>, rest: seq<string>, result: Result<Reply>)

  /**
   * `_collect_input` with the given prompt, on the tab at `cursor`, after
   * `printed` has been printed: prompt, read a line, look it up; an invalid
   * line re-prompts.
   */
  function CollectFrom(tabs: seq<TabObject>, cursor: int, caseSensitive: bool, prompt: string, lines: seq<string>, printed: seq<Event>): (r: Collected)
    ensures |r.rest| <= |lines|
    ensures r.result.Ok? ==> |r.rest| < |lines| && IndexOk(|tabs|, cursor)
    decreases |lines|
  {
    var shown := printed + [Prompted(prompt + ": ")];
    if lines == [] then Collected(shown, [], Err(TM.EofError))
    else
      match PyIndex(tabs, cursor)
      case Err(e) => Collected(shown, lines[1..], Err(e))
      case Ok(tab) =>
        match ProcessInput(tab, TM.Key(caseSensitive, lines[0]))
        case None => CollectFrom(tabs, cursor, caseSensitive, "Invalid, try again", lines[1..], shown)
        case Some(reply) => Collected(shown, lines[1..], Ok(reply))
  }

  /** Whether the tab accepts a typed line. */
  predicate Accepts(tab: TabObject, caseSensitive: bool, line: string) {
    ProcessInput(tab, TM.Key(caseSensitive, line)).Some?
  }

  /** The position of the first line the tab accepts. */
  function FirstAccepted(tab: TabObject, caseSensitive: bool, lines: seq<string>): (k: Option<nat>)
    ensures k.Some? ==> k.value < |lines| && Accepts(tab, caseSensitive, lines[k.value])
    ensures k.Some? ==> forall m :: 0 <= m < k.value ==> !Accepts(tab, caseSensitive, lines[m])
    ensures k.None? ==> forall m :: 0 <= m < |lines| ==> !Accepts(tab, caseSensitive, lines[m])
    decreases |lines|
  {
    if lines == [] then None
    else if Accepts(tab, caseSensitive, lines[0]) then Some(0)
    else match FirstAccepted(tab, caseSensitive, lines[1..])
      case None => None
      case Some(k) => Some(k + 1)
  }

  /** The first prompt and then one "Invalid, try again" per rejected line. */
  function Prompts(prompt: string, rejected: nat): (r: seq<Event>)
    ensures |r| == rejected + 1 && r[0] == Prompted(prompt + ": ")
    ensures forall m :: 1 <= m <= rejected ==> r[m] == Prompted("Invalid, try again: ")
  {
    if rejected == 0 then [Prompted(prompt + ": ")]
    else Prompts(prompt, rejected - 1) + [Prompted("Invalid, try again: ")]
  }

  lemma PromptsStep(printed: seq<Event>, prompt: string, rejected: nat)
    ensures printed + [Prompted(prompt + ": ")] + Prompts("Invalid, try again", rejected) == printed + Prompts(prompt, rejected + 1)
  {
    var a := [Prompted(prompt + ": ")] + Prompts("Invalid, try again", rejected);
    var b := Prompts(prompt, rejected + 1);
    assert |a| == |b|;
    forall m | 0 <= m < |a|
      ensures a[m] == b[m]
    {
      if m > 0 {
        assert a[m] == Prompts("Invalid, try again", rejected)[m - 1];
      }
    }
    assert printed + [Prompted(prompt + ": ")] + Prompts("Invalid, try again", rejected) == printed + a;
  }

  /**
   * On a valid cursor, `_collect_input` returns the reply to the first line
   * the current tab accepts, having read exactly the lines up to it and
   * printed one prompt per line read; with no accepted line it reads them all
   * and raises EOFError after one prompt more.
   */
  lemma {:induction false} CollectMeaning(tabs: seq<TabObject>, cursor: int, caseSensitive: bool, prompt: string, lines: seq<string>, printed: seq<Event>)
    requires IndexOk(|tabs|, cursor)
    ensures var c := CollectFrom(tabs, cursor, caseSensitive, prompt, lines, printed);
      var tab := tabs[Wrap(|tabs|, cursor)];
      match FirstAccepted(tab, caseSensitive, lines)
      case Some(k) =>
        c == Collected(printed + Prompts(prompt, k), lines[k + 1..], Ok(ProcessInput(tab, TM.Key(caseSensitive, lines[k])).value))
      case None =>
        c == Collected(printed + Prompts(prompt, |lines|), [], Err(TM.EofError))
    decreases |lines|
  {
    var tab := tabs[Wrap(|tabs|, cursor)];
    assert PyIndex(tabs, cursor) == Ok(tab);
    if lines == [] {
    } else if Accepts(tab, caseSensitive, lines[0]) {
      assert FirstAccepted(tab, caseSensitive, lines) == Some(0);
    } else {
      var shown := printed + [Prompted(prompt + ": ")];
      assert CollectFrom(tabs, cursor, caseSensitive, prompt, lines, printed) ==
        CollectFrom(tabs, cursor, caseSensitive, "Invalid, try again", lines[1..], shown);
      CollectMeaning(tabs, cursor, caseSensitive, "Invalid, try again", lines[1..], shown);
      match FirstAccepted(tab, caseSensitive, lines[1..])
      case Some(k) =>
        PromptsStep(printed, prompt, k);
        assert lines[1..][k + 1..] == lines[k + 2..];
      case None =>
        PromptsStep(printed, prompt, |lines| - 1);
    }
  }

  // ---------------------------------------------------------------------
  // `run`

  /** What `run` returns: the tab number, the tab's selector (or None) and the return value. */
  datatype Answer = Answer(tabNumber: int, tabId: Value, value: Value)

  /** The state `run` leaves: the cursor, everything printed, the unread lines, and the answer or the exception. */
  datatype Ran = Ran(cursor: int, printed: seq<Event>, rest: seq<string>, result: Result<Answer>)

  /**
   * `run` after `printed` has been printed: print the menu, collect a reply;
   * a tab change moves the cursor (announcing the new tab) and goes round
   * again; a return value ends the run with the current tab's selector.
   * An answer names the tab the cursor ends on, a tab that exists and whose
   * menu could be formatted.
   */
  function RunFrom(p: Parsed, cursor: int, lines: seq<string>, printed: seq<Event>): (r: Ran)
    ensures r.result.Ok? ==>
      && r.result.value.tabNumber == r.cursor
      && IndexOk(|p.tabs|, r.cursor)
      && SF.MenuText(p.configTabs, r.cursor, p.screenWidth).Ok?
    decreases |lines|
  {
    match SF.MenuText(p.configTabs, cursor, p.screenWidth)
    case Err(e) => Ran(cursor, printed, lines, Err(e))
    case Ok(text) =>
      var c := CollectFrom(p.tabs, cursor, Truthy(p.caseSensitive), "?", lines, printed + [Printed(text)]);
      if c.result.Err? then Ran(cursor, c.printed, c.rest, Err(c.result.error))
      else match c.result.value
        case ChangeTab(n) =>
          (match PyIndex(p.tabs, n)
           case Err(e) => Ran(cursor, c.printed, c.rest, Err(e))
           case Ok(next) => RunFrom(p, n, c.rest, c.printed + Announcement(next)))
        case Return(v) =>
          if |p.selectors| == 0 then Ran(cursor, c.printed, c.rest, Ok(Answer(cursor, VNone, v)))
          else match PyIndex(p.selectors, cursor)
            case Err(e) => Ran(cursor, c.printed, c.rest, Err(e))
            case Ok(id) => Ran(cursor, c.printed, c.rest, Ok(Answer(cursor, id, v)))
  }

  /**
   * The cursor ends on the start tab or on a tab some reply changed to. An
   * answer names the tab the cursor ends on, whose menu was printed; its
   * selector is None when there are no selectors and otherwise the selector
   * at the cursor's position.
   */
  lemma {:induction false} RunMeaning(p: Parsed, cursor: int, lines: seq<string>, printed: seq<Event>)
    ensures var r := RunFrom(p, cursor, lines, printed);
      && (r.cursor == cursor || IndexOk(|p.tabs|, r.cursor))
      && (r.result.Ok? ==>
        && (|p.selectors| == 0 ==> r.result.value.tabId == VNone)
        && (|p.selectors| > 0 ==> IndexOk(|p.selectors|, r.cursor) && r.result.value.tabId == p.selectors[Wrap(|p.selectors|, r.cursor)]))
    decreases |lines|
  {
    if SF.MenuText(p.configTabs, cursor, p.screenWidth).Ok? {
      var text := SF.MenuText(p.configTabs, cursor, p.screenWidth).value;
      var c := CollectFrom(p.tabs, cursor, Truthy(p.caseSensitive), "?", lines, printed + [Printed(text)]);
      if c.result.Ok? && c.result.value.ChangeTab? && PyIndex(p.tabs, c.result.value.newNumber).Ok? {
        var next := PyIndex(p.tabs, c.result.value.newNumber).value;
        RunMeaning(p, c.result.value.newNumber, c.rest, c.printed + Announcement(next));
      }
    }
  }

  /**
   * When every converted tab has a truthy header (as a validated
   * several-tab configuration has), the selector in the answer is the
   * header of the tab the run ends on.
   */
  lemma TabIdIsHeader(p: Parsed, cursor: int, lines: seq<string>, printed: seq<Event>)
    requires AllHeaded(p.configTabs) && |p.tabs| == |p.configTabs|
    requires PO.TruthyGets(p.configTabs, HeaderKey) == Ok(p.selectors)
    ensures var r := RunFrom(p, cursor, lines, printed);
      r.result.Ok? ==>
        && IndexOk(|p.configTabs|, r.cursor)
        && r.result.value.tabId == Lookup(p.configTabs[Wrap(|p.configTabs|, r.cursor)].entries, HeaderKey).value
  {
    RunMeaning(p, cursor, lines, printed);
    SelectorsOfHeaded(p.configTabs);
  }

  /** With no tab headed (a single-tab configuration), the answer carries None. */
  lemma TabIdNone(p: Parsed, cursor: int, lines: seq<string>, printed: seq<Event>)
    requires NoneHeaded(p.configTabs)
    requires PO.TruthyGets(p.configTabs, HeaderKey) == Ok(p.selectors)
    ensures var r := RunFrom(p, cursor, lines, printed);
      r.result.Ok? ==> r.result.value.tabId == VNone
  {
    RunMeaning(p, cursor, lines, printed);
    SelectorsOfUnheaded(p.configTabs);
  }

  // ---------------------------------------------------------------------
  // The loops of `_convert_int_to_string` and `_parse_config`

  /** The innermost loop: each entry of a list is replaced, by position, with its conversion. */
  method StringifyEntries(entries: Value) returns (r: Result<Value>)
    ensures r == ConvertEntries(entries)
  {
    var it := Iter(entries);
    if it.Err? {
      return Err(it.error);
    }
    var xs := it.value;
    if |xs| == 0 {
      return Ok(entries);
    }
    if !entries.VList? {
      return Err(Exc(TypeError, "'" + TypeName(entries) + "' object does not support item assignment"));
    }
    var ys := xs;
    var k := 0;
    while k < |ys|
      invariant |ys| == |xs| && k <= |xs|
      invariant forall i :: 0 <= i < k ==> ys[i] == IntToStr(xs[i])
      invariant forall i :: k <= i < |xs| ==> ys[i] == xs[i]
    {
      ys := ys[k := IntToStr(ys[k])];
      k := k + 1;
    }
    assert ys == IntsToStrs(xs);
    return Ok(VList(ys));
  }

  /** The body of the items loop for one item. */
  method StringifyItem(item: Value) returns (r: Result<Value>)
    ensures r == ConvertItem(item)
  {
    var shown := GetKey(item, "choice_displayed");
    if shown.Err? {
      return Err(shown.error);
    }
    var es := SetKey(item.entries, "choice_displayed", IntToStr(shown.value));
    var ret := GetKey(VDict(es), "returns");
    if ret.Err? {
      return Err(ret.error);
    }
    es := SetKey(es, "returns", IntToStr(ret.value));
    var entries := GetKey(VDict(es), "valid_entries");
    if entries.Err? {
      return Err(entries.error);
    }
    var converted := StringifyEntries(entries.value);
    if converted.Err? {
      return Err(converted.error);
    }
    return Ok(VDict(SetKey(es, "valid_entries", converted.value)));
  }

  /** The items loop of one tab: the items in order, each converted. */
  method StringifyItemList(xs: seq<Value>) returns (r: Result<seq<Value>>)
    ensures r == MapFrom(ConvertItem, xs, 0)
  {
    ghost var whole := MapFrom(ConvertItem, xs, 0);
    MapLoopStart(ConvertItem, xs);
    var out: seq<Value> := [];
    var j := 0;
    while j < |xs|
      invariant MapSoFar(ConvertItem, xs, j, out, whole)
    {
      var y := StringifyItem(xs[j]);
      if y.Err? {
        MapLoopErr(ConvertItem, xs, j, out, whole, y.error);
        return Err(y.error);
      }
      MapLoopNext(ConvertItem, xs, j, out, whole, y.value);
      out := out + [y.value];
      j := j + 1;
    }
    MapLoopEnd(ConvertItem, xs, out, whole);
    return Ok(out);
  }

  /** One pass of the outer loop: the header, then the items. */
  method StringifyTab(count: nat, tab: Value) returns (r: Result<Value>)
    ensures r == ConvertTab(count, tab)
  {
    var tab1 := tab;
    var header := GetKey(tab, HeaderKey);
    if header.Ok? {
      tab1 := VDict(SetKey(tab.entries, HeaderKey, IntToStr(header.value)));
    } else if header.error.cls != KeyError {
      return Err(header.error);
    } else if count != 1 {
      return Err(Exc(AssertionError, ""));
    }
    assert ConvertHeader(count, tab) == Ok(tab1);
    var items := GetKey(tab1, "items");
    if items.Err? {
      return Err(items.error);
    }
    var xs := Iter(items.value);
    if xs.Err? {
      return Err(xs.error);
    }
    var ys := StringifyItemList(xs.value);
    if ys.Err? {
      return Err(ys.error);
    }
    return Ok(VDict(SetKey(tab1.entries, "items", Rebuild(items.value, ys.value))));
  }

  /** `_convert_int_to_string`: the outer loop over the tabs. */
  method ConvertIntToString(tabs: seq<Value>) returns (r: Result<seq<Value>>)
    ensures r == ConvertTabs(tabs)
  {
    ghost var f := ConvertTabFn(|tabs|);
    ghost var whole := MapFrom(f, tabs, 0);
    MapLoopStart(f, tabs);
    var out: seq<Value> := [];
    var j := 0;
    while j < |tabs|
      invariant MapSoFar(f, tabs, j, out, whole)
    {
      var y := StringifyTab(|tabs|, tabs[j]);
      if y.Err? {
        MapLoopErr(f, tabs, j, out, whole, y.error);
        return Err(y.error);
      }
      MapLoopNext(f, tabs, j, out, whole, y.value);
      out := out + [y.value];
      j := j + 1;
    }
    MapLoopEnd(f, tabs, out, whole);
    return Ok(out);
  }

  /** The last loop of `_parse_config`: one tab object per tab, each given the full selector list. */
  method MakeTabs(makeTab: TabMaker, configTabs: seq<Value>, selectors: seq<Value>, caseSensitive: Value) returns (r: Result<seq<TabObject>>)
    ensures r == MapFrom(MakeTabFn(makeTab, selectors, caseSensitive), configTabs, 0)
  {
    ghost var f := MakeTabFn(makeTab, selectors, caseSensitive);
    ghost var whole := MapFrom(f, configTabs, 0);
    MapLoopStart(f, configTabs);
    var out: seq<TabObject> := [];
    var j := 0;
    while j < |configTabs|
      invariant MapSoFar(f, configTabs, j, out, whole)
    {
      var y := makeTab(configTabs[j], selectors, caseSensitive);
      if y.Err? {
        MapLoopErr(f, configTabs, j, out, whole, y.error);
        return Err(y.error);
      }
      MapLoopNext(f, configTabs, j, out, whole, y.value);
      out := out + [y.value];
      j := j + 1;
    }
    MapLoopEnd(f, configTabs, out, whole);
    return Ok(out);
  }

  /** `_parse_config` on a validated dict. */
  method ParseConfig(config: Dict, start: int, makeTab: TabMaker) returns (r: Result<Parsed>)
    requires WidthIsInt(config.entries)
    ensures r == Parse(config.entries, start, makeTab)
  {
    var caseSensitive := DictGet(VDict(config.entries), "case_sensitive", VBool(false)).value;
    var width := AsInt(DictGet(VDict(config.entries), "screen_width", VInt(80)).value);
    var container: Value;
    var items := DictGet(VDict(config.entries), "items", VNone).value;
    if Truthy(items) {
      container := VList([VDict([("items", items)])]);
    } else {
      var tabs := GetKey(VDict(config.entries), "tabs");
      if tabs.Err? {
        return Err(tabs.error);
      }
      container := tabs.value;
    }
    var raw := Iter(container);
    if raw.Err? {
      return Err(raw.error);
    }
    var converted := ConvertIntToString(raw.value);
    if converted.Err? {
      return Err(converted.error);
    }
    var selectors := PO.CollectTruthyGets(converted.value, HeaderKey);
    if selectors.Err? {
      return Err(selectors.error);
    }
    if !(start < |converted.value|) {
      return Err(Exc(AssertionError, ""));
    }
    var objects := MakeTabs(makeTab, converted.value, selectors.value, caseSensitive);
    if objects.Err? {
      return Err(objects.error);
    }
    return Ok(Parsed(caseSensitive, width, converted.value, selectors.value, objects.value));
  }

  // ---------------------------------------------------------------------
  // The menu object

  class Menu {
    /** The caller's dict, as `validate_all` left it. */
    var config: Dict
    var caseSensitive: Value
    var screenWidth: int
    var configTabs: seq<Value>
    var tabSelectors: seq<Value>
    var currentTabNumber: int
    var tabs: seq<TabObject>
    /** The lines standard input has yet to deliver. */
    var stdin: seq<string>
    /** Everything printed so far. */
    var shown: seq<Event>

    /** The attributes `_parse_config` set, which the run loop only reads. */
    function Setup(): Parsed
      reads this
    {
      Parsed(caseSensitive, screenWidth, configTabs, tabSelectors, tabs)
    }

    constructor (d: Dict, p: Parsed, start: int, lines: seq<string>)
      ensures config == d && Setup() == p && currentTabNumber == start
      ensures stdin == lines && shown == []
    {
      config := d;
      caseSensitive := p.caseSensitive;
      screenWidth := p.screenWidth;
      configTabs := p.configTabs;
      tabSelectors := p.selectors;
      tabs := p.tabs;
      currentTabNumber := start;
      stdin := lines;
      shown := [];
    }

    /** `_change_tab(new_number)`: an index outside the tabs raises IndexError and changes nothing. */
    method ChangeTab(newNumber: int) returns (r: Result<()>)
      modifies this
      ensures config == old(config) && Setup() == old(Setup()) && stdin == old(stdin)
      ensures !IndexOk(|tabs|, newNumber) ==>
        r == Err(Exc(IndexError, "list index out of range"))
        && currentTabNumber == old(currentTabNumber) && shown == old(shown)
      ensures IndexOk(|tabs|, newNumber) ==>
        r == Ok(()) && currentTabNumber == newNumber
        && shown == old(shown) + Announcement(tabs[Wrap(|tabs|, newNumber)])
    {
      var newTab := PyIndex(tabs, newNumber);
      if newTab.Err? {
        return Err(newTab.error);
      }
      var t := newTab.value;
      if Truthy(t.headChoice) {
        var msg := "Change tab to " + Str(t.headChoice);
        if Truthy(t.headDesc) {
          msg := msg + ": " + Str(t.headDesc);
        }
        if Truthy(t.headDescLong) {
          msg := msg + "\n" + Str(t.headDescLong);
        }
        assert msg == "Change tab to " + Str(t.headChoice) + Part(": ", t.headDesc) + Part("\n", t.headDescLong);
        shown := shown + [Printed(msg)];
      }
      currentTabNumber := newNumber;
      return Ok(());
    }

    /** `_print_menu`: prints the formatted menu of the current tab, or raises what formatting raises. */
    method PrintMenu() returns (r: Result<()>)
      modifies this
      ensures config == old(config) && Setup() == old(Setup()) && stdin == old(stdin)
      ensures currentTabNumber == old(currentTabNumber)
      ensures var text := SF.MenuText(configTabs, currentTabNumber, screenWidth);
        && (text.Err? ==> r == Err(text.error) && shown == old(shown))
        && (text.Ok? ==> r == Ok(()) && shown == old(shown) + [Printed(text.value)])
    {
      var formatted := SF.FormatMenu(configTabs, currentTabNumber, screenWidth);
      if formatted.Err? {
        return Err(formatted.error);
      }
      shown := shown + [Printed(formatted.value)];
      return Ok(());
    }

    /** `_collect_input`: reads lines until the current tab accepts one. */
    method CollectInput() returns (r: Result<Reply>)
      modifies this
      ensures config == old(config) && Setup() == old(Setup()) && currentTabNumber == old(currentTabNumber)
      ensures CollectFrom(tabs, currentTabNumber, Truthy(caseSensitive), "?", old(stdin), old(shown)) == Collected(shown, stdin, r)
    {
      ghost var whole := CollectFrom(tabs, currentTabNumber, Truthy(caseSensitive), "?", stdin, shown);
      var lines := stdin;
      var printed := shown;
      var prompt := "?";
      while true
        modifies {}
        invariant whole == CollectFrom(tabs, currentTabNumber, Truthy(caseSensitive), prompt, lines, printed)
        decreases |lines|
      {
        printed := printed + [Prompted(prompt + ": ")];
        if lines == [] {
          r := Err(TM.EofError);
          break;
        }
        var selection := lines[0];
        lines := lines[1..];
        if !Truthy(caseSensitive) {
          selection := Lower(selection);
        }
        var current := PyIndex(tabs, currentTabNumber);
        if current.Err? {
          r := Err(current.error);
          break;
        }
        var reply := ProcessInput(current.value, selection);
        if reply.Some? {
          r := Ok(reply.value);
          break;
        }
        prompt := "Invalid, try again";
      }
      stdin := lines;
      shown := printed;
    }

    /** `run`: loops until a return value; the cursor is not reset, so a later run starts where this one ended. */
    method Run() returns (r: Result<Answer>)
      modifies this
      ensures config == old(config) && Setup() == old(Setup())
      ensures RunFrom(old(Setup()), old(currentTabNumber), old(stdin), old(shown)) == Ran(currentTabNumber, shown, stdin, r)
    {
      ghost var p := Setup();
      ghost var whole := RunFrom(p, currentTabNumber, stdin, shown);
      while true
        invariant config == old(config) && Setup() == p
        invariant whole == RunFrom(p, currentTabNumber, stdin, shown)
        decreases |stdin|
      {
        var printed := PrintMenu();
        if printed.Err? {
          return Err(printed.error);
        }
        var reply := CollectInput();
        if reply.Err? {
          return Err(reply.error);
        }
        if reply.value.ChangeTab? {
          var changed := ChangeTab(reply.value.newNumber);
          if changed.Err? {
            return Err(changed.error);
          }
        } else {
          var tabId := VNone;
          if |tabSelectors| > 0 {
            var id := PyIndex(tabSelectors, currentTabNumber);
            if id.Err? {
              return Err(id.error);
            }
            tabId := id.value;
          }
          return Ok(Answer(currentTabNumber, tabId, reply.value.value));
        }
      }
    }
  }

  /**
   * `Menu(config, start_tab_number)` on the caller's dict, with the lines
   * standard input will deliver: `validate_all` (which may add `tabs` to the
   * dict), then `_parse_config`.
   */
  method NewMenu(config: Dict, start: int, makeTab: TabMaker, lines: seq<string>) returns (r: Result<Menu>)
    modifies config
    ensures config.entries == LO.ValidateAllState(LO.PySimpleTabShellMenu, old(config.entries))
    ensures var built := Build(old(config.entries), start, makeTab);
      && (r.Ok? <==> built.Ok?)
      && (r.Err? ==> r.error == built.error)
      && (r.Ok? ==>
        && fresh(r.value)
        && r.value.config == config && r.value.Setup() == built.value
        && r.value.currentTabNumber == start && r.value.stdin == lines && r.value.shown == [])
  {
    ghost var es := config.entries;
    var valid := LO.ValidateAll(LO.PySimpleTabShellMenu, config);
    if valid.Err? {
      return Err(valid.error);
    }
    ValidatedWidth(es);
    var parsed := ParseConfig(config, start, makeTab);
    if parsed.Err? {
      return Err(parsed.error);
    }
    var m := new Menu(config, parsed.value, start, lines);
    return Ok(m);
  }
}
