/**
 * `normalize` of src/pytabby/normalizer.py: the single-tab layout is folded
 * into `tabs`, `case_sensitive` and `screen_width` get their defaults, and
 * the tree is rebuilt by the shared walk under pytabby's key names.
 */
module PytabbyNormalizer {
  import opened PyValue
  import opened NormalizerCore

  const Keys := KeyNames(
    "tab_header_input", "tab_header_description", "tab_header_long_description",
    "item_choice_displayed", "item_description", "item_returns", "item_inputs")

  const FoldAssertText := "There is something wrong with the test suite if this error is called"

  lemma KeysDistinct()
    ensures DistinctKeys(Keys)
  {
  }

  /** `old_config[k]` when `old_config.get(k, None)` is truthy, else the default. */
  function Setting(es: seq<(string, Value)>, k: string, default: Value): Value {
    match Lookup(es, k)
    case Some(v) => if Truthy(v) then v else default
    case None => default
  }

  function NotAMapping(v: Value): Exc {
    Exc(AttributeError, "'" + TypeName(v) + "' object has no attribute 'keys'")
  }

  /**
   * `normalize(config)`: `_add_tabs_key_if_needed`, then `_walk_stringize_and_case`.
   * It succeeds only on a dict holding `tabs` or `items`; `case_sensitive`
   * is the old value when truthy and False otherwise, `screen_width` the
   * old value when truthy and 80 otherwise; the fold touches neither.
   */
  function Normalize(config: Value): (r: Result<NConfig>)
    ensures r.Ok? ==> config.VDict? && (Lookup(config.entries, "tabs").Some? || Lookup(config.entries, "items").Some?)
    ensures r.Ok? ==> r.value.caseSensitive == Setting(config.entries, "case_sensitive", VBool(false))
    ensures r.Ok? ==> r.value.screenWidth == Setting(config.entries, "screen_width", VInt(80))
  {
    if !config.VDict? then Err(NotAMapping(config))
    else
      var es :- AddTabsKey(config.entries, FoldAssertText);
      AddTabsKeyKeepsOthers(config.entries, FoldAssertText, "case_sensitive");
      AddTabsKeyKeepsOthers(config.entries, FoldAssertText, "screen_width");
      var cs := Setting(es, "case_sensitive", VBool(false));
      var sw := Setting(es, "screen_width", VInt(80));
      var tabs :- WalkTabs(Keys, cs, VDict(es));
      Ok(NConfig(cs, sw, tabs))
  }

  /** The two ways `normalize` raises before the walk: no dict, and neither `tabs` nor `items`. */
  lemma NormalizeRejects(config: Value)
    ensures !config.VDict? ==> Normalize(config) == Err(NotAMapping(config))
    ensures config.VDict? && Lookup(config.entries, "tabs").None? && Lookup(config.entries, "items").None? ==>
      Normalize(config) == Err(Exc(AssertionError, FoldAssertText))
  {
  }

  /** The successful run, stage by stage. */
  lemma NormalizeStages(config: Value)
    requires Normalize(config).Ok?
    ensures config.VDict? && AddTabsKey(config.entries, FoldAssertText).Ok?
    ensures var n := Normalize(config).value;
      WalkTabs(Keys, n.caseSensitive, VDict(AddTabsKey(config.entries, FoldAssertText).value)) == Ok(n.tabs)
  {
  }

  /** With `tabs` present, one normalized tab per old tab, in order, each the walk's tab of the old one. */
  lemma NormalizeKeepsTabs(config: Value)
    requires Normalize(config).Ok? && Lookup(config.entries, "tabs").Some?
    ensures var n := Normalize(config).value;
      var olds := Iter(Lookup(config.entries, "tabs").value).value;
      && |n.tabs| == |olds|
      && forall i :: 0 <= i < |olds| ==> NormalizeTab(Keys, n.caseSensitive, olds[i]) == Ok(n.tabs[i])
  {
    NormalizeStages(config);
    var n := Normalize(config).value;
    MapFromOk(TabFn(Keys, n.caseSensitive), Iter(Lookup(config.entries, "tabs").value).value, 0);
  }

  /** Without `tabs`, exactly one tab with no header fields, holding the old top-level items normalized in order. */
  lemma NormalizeFoldsItems(config: Value)
    requires Normalize(config).Ok? && Lookup(config.entries, "tabs").None?
    ensures var n := Normalize(config).value;
      var items := Iter(Lookup(config.entries, "items").value);
      && items.Ok?
      && MapFrom(ItemFn(Keys, n.caseSensitive), items.value, 0).Ok?
      && n.tabs == [NTab(None, None, None, Some(MapFrom(ItemFn(Keys, n.caseSensitive), items.value, 0).value))]
  {
    NormalizeStages(config);
    var n := Normalize(config).value;
    KeysDistinct();
    FoldedWalk(Keys, FoldAssertText, config.entries, n.caseSensitive, n.tabs);
  }

  /** What every successful `normalize` produces: defaulted settings and tabs of the walk's shape. */
  predicate NormalConfig(n: NConfig) {
    && (Truthy(n.caseSensitive) || n.caseSensitive == VBool(false))
    && (Truthy(n.screenWidth) || n.screenWidth == VInt(80))
    && NormalTabs(n.caseSensitive, n.tabs)
  }

  lemma NormalizeIsNormal(config: Value)
    requires DictsUnique(config) && Normalize(config).Ok?
    ensures NormalConfig(Normalize(config).value)
  {
    NormalizeStages(config);
    var n := Normalize(config).value;
    var es := AddTabsKey(config.entries, FoldAssertText).value;
    AddTabsKeyDictsUnique(config.entries, FoldAssertText);
    KeysDistinct();
    WalkIsNormal(Keys, n.caseSensitive, VDict(es));
  }

  /** A normalized configuration written back as a dict normalizes to itself. */
  lemma NormalizeRoundTrip(n: NConfig)
    requires NormalConfig(n)
    ensures Normalize(EncodeConfig(Keys, n)) == Ok(n)
  {
    KeysDistinct();
    var es := EncodeConfig(Keys, n).entries;
    EncodedConfigKeys(Keys, n);
    assert AddTabsKey(es, FoldAssertText) == Ok(es);
    assert Setting(es, "case_sensitive", VBool(false)) == n.caseSensitive;
    assert Setting(es, "screen_width", VInt(80)) == n.screenWidth;
    WalkRoundTrip(Keys, n);
  }

  /** Normalizing an already-normalized configuration changes nothing. */
  lemma NormalizeIdempotent(config: Value)
    requires DictsUnique(config) && Normalize(config).Ok?
    ensures Normalize(EncodeConfig(Keys, Normalize(config).value)) == Normalize(config)
  {
    NormalizeIsNormal(config);
    NormalizeRoundTrip(Normalize(config).value);
  }

  /** `normalize` on a dict object: the fold changes the caller's dict in place; the walk builds a new configuration. */
  method NormalizeConfig(config: Dict) returns (r: Result<NConfig>)
    modifies config
    ensures r == Normalize(VDict(old(config.entries)))
    ensures config.entries == match AddTabsKey(old(config.entries), FoldAssertText)
                              case Ok(es) => es
                              case Err(_) => old(config.entries)
  {
    var folded := AddTabsKeyIfNeeded(config, FoldAssertText);
    if folded.Err? {
      return Err(folded.error);
    }
    var es := config.entries;
    var cs := Setting(es, "case_sensitive", VBool(false));
    var sw := Setting(es, "screen_width", VInt(80));
    var tabs := WalkTabsLoop(Keys, cs, VDict(es));
    if tabs.Err? {
      return Err(tabs.error);
    }
    return Ok(NConfig(cs, sw, tabs.value));
  }
}
