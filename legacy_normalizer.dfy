/**
 * `normalize` of src/tabbedshellmenus/normalizer.py: the same fold and walk
 * as pytabby's, under the older key names, with no defaults:
 * `case_sensitive` and `screen_width` are copied as they are and raise
 * KeyError when missing.
 */
module LegacyNormalizer {
  import opened PyValue
  import opened NormalizerCore

  const Keys := KeyNames(
    "header_entry", "header_description", "long_description",
    "choice_displayed", "choice_description", "returns", "valid_entries")

  lemma KeysDistinct()
    ensures DistinctKeys(Keys)
  {
  }

  function NotAMapping(v: Value): Exc {
    Exc(AttributeError, "'" + TypeName(v) + "' object has no attribute 'keys'")
  }

  /**
   * `normalize(config)`; the fold's bare `raise AssertionError` has an empty
   * text. It succeeds only on a dict holding `tabs` or `items`, and copies
   * both settings verbatim, falsy or not.
   */
  function Normalize(config: Value): (r: Result<NConfig>)
    ensures r.Ok? ==> config.VDict? && (Lookup(config.entries, "tabs").Some? || Lookup(config.entries, "items").Some?)
    ensures r.Ok? ==> Lookup(config.entries, "case_sensitive") == Some(r.value.caseSensitive)
    ensures r.Ok? ==> Lookup(config.entries, "screen_width") == Some(r.value.screenWidth)
  {
    if !config.VDict? then Err(NotAMapping(config))
    else
      var es :- AddTabsKey(config.entries, "");
      AddTabsKeyKeepsOthers(config.entries, "", "case_sensitive");
      AddTabsKeyKeepsOthers(config.entries, "", "screen_width");
      var cs :- GetKey(VDict(es), "case_sensitive");
      var sw :- GetKey(VDict(es), "screen_width");
      var tabs :- WalkTabs(Keys, cs, VDict(es));
      Ok(NConfig(cs, sw, tabs))
  }

  /** Neither `tabs` nor `items` raises the fold's AssertionError. */
  lemma NormalizeNeedsTabsOrItems(config: Value)
    requires config.VDict? && Lookup(config.entries, "tabs").None? && Lookup(config.entries, "items").None?
    ensures Normalize(config) == Err(Exc(AssertionError, ""))
  {
  }

  /** A missing `case_sensitive` raises KeyError, before `screen_width` is read. */
  lemma NormalizeNeedsCaseSensitive(config: Value)
    requires config.VDict? && AddTabsKey(config.entries, "").Ok? && Lookup(config.entries, "case_sensitive").None?
    ensures Normalize(config) == Err(MissingKey("case_sensitive"))
  {
    AddTabsKeyKeepsOthers(config.entries, "", "case_sensitive");
  }

  lemma NormalizeNeedsScreenWidth(config: Value)
    requires config.VDict? && AddTabsKey(config.entries, "").Ok?
    requires Lookup(config.entries, "case_sensitive").Some? && Lookup(config.entries, "screen_width").None?
    ensures Normalize(config) == Err(MissingKey("screen_width"))
  {
    var es := AddTabsKey(config.entries, "").value;
    AddTabsKeyKeepsOthers(config.entries, "", "case_sensitive");
    AddTabsKeyKeepsOthers(config.entries, "", "screen_width");
    assert GetKey(VDict(es), "case_sensitive").Ok?;
    assert GetKey(VDict(es), "screen_width") == Err(MissingKey("screen_width"));
  }

  /** The successful run, stage by stage. */
  lemma NormalizeStages(config: Value)
    requires Normalize(config).Ok?
    ensures config.VDict? && AddTabsKey(config.entries, "").Ok?
    ensures var n := Normalize(config).value;
      WalkTabs(Keys, n.caseSensitive, VDict(AddTabsKey(config.entries, "").value)) == Ok(n.tabs)
  {
  }

  /** With `tabs` present, one normalized tab per old tab, in order, each the walk's tab of the old one. */
  lemma NormalizeKeepsTabs(config: Value)
    requires Normalize(config).Ok? && Lookup(config.entries, "tabs").Some?
    ensures var n := Normalize(config).value;
      var olds := Iter(Lookup(config.entries, "tabs").value).value;
      && |n.tabs| == |olds|
      && forall i :: 0 <= i < |olds| ==> NormalizeTab(Keys, n.caseSensitive, olds[i]) == Ok(n.tabs[i])
  {
    NormalizeStages(config);
    var n := Normalize(config).value;
    MapFromOk(TabFn(Keys, n.caseSensitive), Iter(Lookup(config.entries, "tabs").value).value, 0);
  }

  /** Without `tabs`, exactly one tab with no header fields, holding the old top-level items normalized in order. */
  lemma NormalizeFoldsItems(config: Value)
    requires Normalize(config).Ok? && Lookup(config.entries, "tabs").None?
    ensures var n := Normalize(config).value;
      var items := Iter(Lookup(config.entries, "items").value);
      && items.Ok?
      && MapFrom(ItemFn(Keys, n.caseSensitive), items.value, 0).Ok?
      && n.tabs == [NTab(None, None, None, Some(MapFrom(ItemFn(Keys, n.caseSensitive), items.value, 0).value))]
  {
    NormalizeStages(config);
    var n := Normalize(config).value;
    KeysDistinct();
    FoldedWalk(Keys, "", config.entries, n.caseSensitive, n.tabs);
  }

  lemma NormalizeIsNormal(config: Value)
    requires DictsUnique(config) && Normalize(config).Ok?
    ensures NormalTabs(Normalize(config).value.caseSensitive, Normalize(config).value.tabs)
  {
    NormalizeStages(config);
    var n := Normalize(config).value;
    var es := AddTabsKey(config.entries, "").value;
    AddTabsKeyDictsUnique(config.entries, "");
    KeysDistinct();
    WalkIsNormal(Keys, n.caseSensitive, VDict(es));
  }

  /** With no defaults to fill, any configuration whose tabs are of the walk's shape normalizes to itself once written back. */
  lemma NormalizeRoundTrip(n: NConfig)
    requires NormalTabs(n.caseSensitive, n.tabs)
    ensures Normalize(EncodeConfig(Keys, n)) == Ok(n)
  {
    KeysDistinct();
    EncodedConfigKeys(Keys, n);
    WalkRoundTrip(Keys, n);
  }

  lemma NormalizeIdempotent(config: Value)
    requires DictsUnique(config) && Normalize(config).Ok?
    ensures Normalize(EncodeConfig(Keys, Normalize(config).value)) == Normalize(config)
  {
    NormalizeIsNormal(config);
    NormalizeRoundTrip(Normalize(config).value);
  }

  /** `normalize` on a dict object: the fold changes the caller's dict in place. */
  method NormalizeConfig(config: Dict) returns (r: Result<NConfig>)
    modifies config
    ensures r == Normalize(VDict(old(config.entries)))
    ensures config.entries == match AddTabsKey(old(config.entries), "")
                              case Ok(es) => es
                              case Err(_) => old(config.entries)
  {
    var folded := AddTabsKeyIfNeeded(config, "");
    if folded.Err? {
      return Err(folded.error);
    }
    var c := VDict(config.entries);
    var cs := GetKey(c, "case_sensitive");
    if cs.Err? {
      return Err(cs.error);
    }
    var sw := GetKey(c, "screen_width");
    if sw.Err? {
      return Err(sw.error);
    }
    var tabs := WalkTabsLoop(Keys, cs.value, c);
    if tabs.Err? {
      return Err(tabs.error);
    }
    return Ok(NConfig(cs.value, sw.value, tabs.value));
  }
}
