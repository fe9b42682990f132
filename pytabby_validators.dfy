/**
 * The configuration validator of `pytabby` (src/pytabby/validators.py).
 *
 * A configuration is classified into one of three layouts; its nodes are
 * walked (outer dict, tabs, items, input entries) and checked against the
 * layout's schemas, collecting one message per failing node and stopping
 * the walk at the first structural exception; then every tab is checked for
 * repeated input tokens and for repeated return values; a non-empty message
 * list becomes one numbered `InvalidInputError`.
 *
 * The message list is threaded through the walk as a value: each walking
 * method receives the messages so far and returns them extended.
 */
module PytabbyValidators {
  import opened PyValue
  import opened SchemaLib
  import opened Counter

  /** The three shapes a configuration can have. */
  datatype Layout = Multiple | SingleWithKey | SingleWithoutKey

  // ---------------------------------------------------------------------
  // The schemas of `_ValidSchemas`

  const OuterWithTabs: Schema := DictSchema([
    KeySpec(Optional, "case_sensitive", IsBool),
    KeySpec(Optional, "screen_width", PositiveInt),
    KeySpec(Required, "tabs", NonEmptyListOrTuple)])

  const OuterWithoutTabs: Schema := DictSchema([
    KeySpec(Optional, "case_sensitive", IsBool),
    KeySpec(Optional, "screen_width", PositiveInt),
    KeySpec(Required, "items", NonEmptyListOrTuple)])

  const TabMultiple: Schema := DictSchema([
    KeySpec(Required, "tab_header_input", Token),
    KeySpec(Optional, "tab_header_description", OptionalText),
    KeySpec(Optional, "tab_header_long_description", OptionalText),
    KeySpec(Required, "items", NonEmptyListOrTuple)])

  const TabSingleWithKey: Schema := DictSchema([
    KeySpec(Forbidden, "tab_header_input", Anything),
    KeySpec(Forbidden, "tab_header_description", Anything),
    KeySpec(Forbidden, "tab_header_long_description", Anything),
    KeySpec(Required, "items", NonEmptyListOrTuple)])

  const ItemSchema: Schema := DictSchema([
    KeySpec(Required, "item_choice_displayed", Token),
    KeySpec(Optional, "item_description", OptionalText),
    KeySpec(Required, "item_inputs", NonEmptyListOrTuple),
    KeySpec(Required, "item_returns", Token)])

  const EntrySchema: Schema := ValueSchema(Token)

  /** What the schemas demand of each field, stated directly on values. */
  lemma FieldPredicates(v: Value)
    ensures Passes(Token, v) <==> v != VNone && |Str(v)| > 0
    ensures Passes(OptionalText, v) <==> v == VNone || |Str(v)| > 0
    ensures Passes(PositiveInt, v) <==> (v.VInt? && v.i > 0) || v == VBool(true)
    ensures Passes(NonEmptyListOrTuple, v) <==> (v.VList? || v.VTuple?) && |v.elems| > 0
    ensures Passes(IsBool, v) <==> v.VBool?
  {}

  /** A tab of the single-with-key layout conforms only without any of the three header keys. */
  lemma SingleTabForbidsHeaders(tab: Value)
    requires tab.VDict?
    requires exists e :: e in tab.entries && e.0 in {"tab_header_input", "tab_header_description", "tab_header_long_description"}
    ensures Validate(TabSingleWithKey, tab).Some?
  {
    var e :| e in tab.entries && e.0 in {"tab_header_input", "tab_header_description", "tab_header_long_description"};
    assert !EntryOk(TabSingleWithKey.keys, e);
  }

  // ---------------------------------------------------------------------
  // Layout

  /** `_determine_config_layout`: `config.keys()` needs a dict and `len(config["tabs"])` a sized value. */
  function DetermineLayout(config: Value): (r: Result<Layout>)
    ensures !config.VDict? ==> r.Err? && r.error.cls == AttributeError
    ensures config.VDict? && Lookup(config.entries, "tabs").None? ==> r == Ok(SingleWithoutKey)
    ensures config.VDict? && Lookup(config.entries, "tabs").Some? ==>
      var n := Len(Lookup(config.entries, "tabs").value);
      && (n.Err? ==> r.Err? && r.error.cls == TypeError)
      && (n.Ok? && n.value > 1 ==> r == Ok(Multiple))
      && (n.Ok? && n.value <= 1 ==> r == Ok(SingleWithKey))
  {
    var _ :- HasKey(config, "tabs");
    match Lookup(config.entries, "tabs")
    case None => Ok(SingleWithoutKey)
    case Some(tabs) =>
      var n :- Len(tabs);
      if n > 1 then Ok(Multiple) else Ok(SingleWithKey)
  }

  // ---------------------------------------------------------------------
  // Messages for one node

  lemma {:induction false} ReplaceAllRemovesChar(s: string, c: char, d: char)
    requires c != d
    ensures c !in ReplaceAll(s, [c], [d])
    ensures |ReplaceAll(s, [c], [d])| == |s|
    decreases |s|
  {
    if |s| >= 1 {
      ReplaceAllRemovesChar(s[1..], c, d);
    }
  }

  /**
   * The text of a caught exception: the qualified class name that
   * `_extract_class` cuts out of `str(e.__class__)`, then `str(e)` with its
   * line breaks turned into spaces, so that the text keeps every character
   * of the exception's and stays on one line.
   */
  function ErrorLine(e: Exc): (r: string)
    ensures |r| == |ClassName(e.cls)| + 2 + |e.text|
    ensures r[..|ClassName(e.cls)| + 2] == ClassName(e.cls) + ": "
    ensures '\n' !in r[|ClassName(e.cls)| + 2..]
  {
    ReplaceAllRemovesChar(e.text, '\n', ' ');
    var line := ClassName(e.cls) + ": " + ReplaceAll(e.text, "\n", " ");
    assert line[..|ClassName(e.cls)| + 2] == ClassName(e.cls) + ": ";
    assert line[|ClassName(e.cls)| + 2..] == ReplaceAll(e.text, "\n", " ");
    line
  }

  /** The one-line message for a node that fails its schema. */
  function NodeMessage(s: Schema, v: Value): (r: Option<string>)
    ensures r.None? <==> Validate(s, v).None?
    ensures r.Some? ==>
      var name := ClassName(Validate(s, v).value.cls);
      && |r.value| == |name| + 2 + |Validate(s, v).value.text|
      && r.value[..|name| + 2] == name + ": "
      && '\n' !in r.value[|name| + 2..]
  {
    var failure := Validate(s, v);
    if failure.None? then None else Some(ErrorLine(failure.value))
  }

  /** `_validate_schema_part`: at most one message, and one exactly when the node fails its schema. */
  function SchemaPart(s: Schema, v: Value, prefix: string): (r: seq<string>)
    ensures |r| <= 1
  {
    match NodeMessage(s, v)
    case None => []
    case Some(line) => [prefix + line]
  }

  /**
   * `_validate_schema_part` appends nothing exactly when the value conforms,
   * and otherwise one line: the prefix, then the node's message.
   */
  lemma SchemaPartMeaning(s: Schema, v: Value, prefix: string)
    ensures SchemaPart(s, v, prefix) == [] <==> Validate(s, v).None?
    ensures SchemaPart(s, v, prefix) != [] ==>
      var line := SchemaPart(s, v, prefix)[0];
      |line| >= |prefix| && line[..|prefix|] == prefix && line[|prefix|..] == NodeMessage(s, v).value
  {
  }

  /** `_catch_iteration_error`. */
  function IterationMessage(level: string, e: Exc): string {
    "WHILE ITERATING OVER " + level + ": " + ErrorLine(e) + ". No further introspection possible."
  }

  // ---------------------------------------------------------------------
  // The walk, as a specification

  /**
   * A node's position: [] for the whole configuration, [i] for tab i,
   * [i, j] for item j of tab i, [i, j, k] for entry k of that item. The
   * single-tab layouts use tab index 0.
   */
  datatype Report = Report(path: seq<nat>, line: string)

  /** What a walk produced: one report per failing node, then the iteration message if it stopped. */
  datatype Walk = Walk(reports: seq<Report>, stop: Option<string>)

  /** Sequencing: once a walk has stopped, nothing after it runs. */
  function Then(a: Walk, b: Walk): Walk {
    if a.stop.Some? then a else Walk(a.reports + b.reports, b.stop)
  }

  lemma ThenAssoc(a: Walk, b: Walk, c: Walk)
    ensures Then(Then(a, b), c) == Then(a, Then(b, c))
  {}

  /** The message prefix of each position, as each layout's walk formats it. */
  function Prefix(layout: Layout, path: seq<nat>): string {
    if |path| == 0 then ""
    else
      match layout
      case Multiple =>
        if |path| == 1 then "tab#" + IntToString(path[0]) + ": "
        else if |path| == 2 then "tab#" + IntToString(path[0]) + ",item#" + IntToString(path[1]) + ": "
        else "tab#" + IntToString(path[0]) + ",item#" + IntToString(path[1])
             + ",valid_entry#" + IntToString(path[2]) + ": "
      case SingleWithKey =>
        if |path| == 1 then "sole tab: "
        else if |path| == 2 then "sole tab,item#" + IntToString(path[1]) + ": "
        else "sole tab,item#" + IntToString(path[1]) + ",valid_entry#" + IntToString(path[2]) + ": "
      case SingleWithoutKey =>
        if |path| == 1 then ""
        else if |path| == 2 then "item#" + IntToString(path[1]) + ": "
        else "item#" + IntToString(path[1]) + ",valid_entry#" + IntToString(path[2]) + ": "
  }

  function RenderReports(layout: Layout, rs: seq<Report>): (r: seq<string>)
    ensures |r| == |rs|
  {
    if rs == [] then [] else [Prefix(layout, rs[0].path) + rs[0].line] + RenderReports(layout, rs[1..])
  }

  /** The messages a walk appends: its reports with their prefixes, then the iteration message. */
  function Render(layout: Layout, w: Walk): seq<string> {
    RenderReports(layout, w.reports) + (if w.stop.Some? then [w.stop.value] else [])
  }

  lemma {:induction false} RenderConcat(layout: Layout, a: seq<Report>, b: seq<Report>)
    ensures RenderReports(layout, a + b) == RenderReports(layout, a) + RenderReports(layout, b)
    decreases |a|
  {
    if a == [] {
      assert a + b == b;
    } else {
      assert (a + b)[0] == a[0];
      assert (a + b)[1..] == a[1..] + b;
      RenderConcat(layout, a[1..], b);
      var h := [Prefix(layout, a[0].path) + a[0].line];
      assert RenderReports(layout, a + b) == h + RenderReports(layout, a[1..] + b);
      assert h + (RenderReports(layout, a[1..]) + RenderReports(layout, b))
          == (h + RenderReports(layout, a[1..])) + RenderReports(layout, b);
    }
  }

  /** Appending the rendering of more reports to messages that already hold the earlier ones. */
  lemma Extend(layout: Layout, msgs: seq<string>, done: seq<Report>, more: seq<Report>)
    ensures msgs + RenderReports(layout, done) + RenderReports(layout, more)
            == msgs + RenderReports(layout, done + more)
  {
    RenderConcat(layout, done, more);
  }

  /** The reports for one node: one when it fails its schema. */
  function NodeReports(path: seq<nat>, s: Schema, v: Value): seq<Report> {
    match NodeMessage(s, v)
    case None => []
    case Some(line) => [Report(path, line)]
  }

  lemma NodeRender(layout: Layout, path: seq<nat>, s: Schema, v: Value)
    ensures RenderReports(layout, NodeReports(path, s, v)) == SchemaPart(s, v, Prefix(layout, path))
  {}

  /** `for x in v[key]`: the subscript, then the iteration. */
  function Children(v: Value, key: string): Result<seq<Value>> {
    var x :- GetKey(v, key);
    Iter(x)
  }

  function EntriesWalk(ti: nat, j: nat, es: seq<Value>, k: nat): seq<Report>
    decreases |es| - k
  {
    if k >= |es| then []
    else NodeReports([ti, j, k], EntrySchema, es[k]) + EntriesWalk(ti, j, es, k + 1)
  }

  function ItemsWalk(ti: nat, items: seq<Value>, j: nat): Walk
    decreases |items| - j
  {
    if j >= |items| then Walk([], None)
    else
      var head := NodeReports([ti, j], ItemSchema, items[j]);
      match Children(items[j], "item_inputs")
      case Err(e) => Walk(head, Some(IterationMessage("item_inputs", e)))
      case Ok(es) => Then(Walk(head + EntriesWalk(ti, j, es, 0), None), ItemsWalk(ti, items, j + 1))
  }

  function TabsWalk(tabs: seq<Value>, i: nat): Walk
    decreases |tabs| - i
  {
    if i >= |tabs| then Walk([], None)
    else
      var head := NodeReports([i], TabMultiple, tabs[i]);
      match Children(tabs[i], "items")
      case Err(e) => Walk(head, Some(IterationMessage("items", e)))
      case Ok(items) => Then(Walk(head, None), Then(ItemsWalk(i, items, 0), TabsWalk(tabs, i + 1)))
  }

  /** `config["tabs"][0]`. */
  function SoleTab(config: Value): Result<Value> {
    var tabs :- GetKey(config, "tabs");
    GetIndex(tabs, 0)
  }

  /** The walk of `_validate_schema_multiple`: the outer node, then every tab. */
  function MultipleWalk(config: Value): Walk {
    Then(Walk(NodeReports([], OuterWithTabs, config), None),
         match Children(config, "tabs")
         case Err(e) => Walk([], Some(IterationMessage("tabs", e)))
         case Ok(tabs) => TabsWalk(tabs, 0))
  }

  /** The walk of `_validate_schema_single_with_key`: the outer node, the sole tab, then its items. */
  function SingleWithKeyWalk(config: Value): Walk {
    Then(Walk(NodeReports([], OuterWithTabs, config), None),
         match SoleTab(config)
         case Err(e) => Walk([], Some(IterationMessage("tabs", e)))
         case Ok(tab) =>
           Then(Walk(NodeReports([0], TabSingleWithKey, tab), None),
                match Children(tab, "items")
                case Err(e) => Walk([], Some(IterationMessage("items", e)))
                case Ok(items) => ItemsWalk(0, items, 0)))
  }

  /** The walk of `_validate_schema_single_without_key`: the outer node, then the items. */
  function SingleWithoutKeyWalk(config: Value): Walk {
    Then(Walk(NodeReports([], OuterWithoutTabs, config), None),
         match Children(config, "items")
         case Err(e) => Walk([], Some(IterationMessage("items", e)))
         case Ok(items) => ItemsWalk(0, items, 0))
  }

  /**
   * The whole walk of `_validate_schema_*` for a layout. Every layout checks
   * the outer dict first, against the outer schema with `tabs` or, for the
   * single tab without the key, the one with `items`.
   */
  function SchemaWalk(layout: Layout, config: Value): (r: Walk)
    ensures NodeReports([], if layout == SingleWithoutKey then OuterWithoutTabs else OuterWithTabs, config) <= r.reports
  {
    match layout
    case Multiple => MultipleWalk(config)
    case SingleWithKey => SingleWithKeyWalk(config)
    case SingleWithoutKey => SingleWithoutKeyWalk(config)
  }

  /** The messages `_validate_schema` appends; the layout decision may raise. */
  function SchemaMessages(config: Value): Result<seq<string>> {
    var layout :- DetermineLayout(config);
    Ok(Render(layout, SchemaWalk(layout, config)))
  }

  // ---------------------------------------------------------------------
  // One step of each walk

  lemma Assoc4<T>(a: seq<T>, b: seq<T>, c: seq<T>, d: seq<T>)
    ensures a + ((b + c) + d) == ((a + b) + c) + d
  {}

  lemma Assoc3<T>(a: seq<T>, b: seq<T>, c: seq<T>)
    ensures a + (b + c) == (a + b) + c
  {}

  /** Appending one node's message to messages that already render the earlier reports. */
  lemma NodeStep(layout: Layout, msgs: seq<string>, out: seq<string>, done: seq<Report>,
                 path: seq<nat>, s: Schema, v: Value)
    requires out == msgs + RenderReports(layout, done)
    ensures out + SchemaPart(s, v, Prefix(layout, path))
            == msgs + RenderReports(layout, done + NodeReports(path, s, v))
  {
    NodeRender(layout, path, s, v);
    Extend(layout, msgs, done, NodeReports(path, s, v));
  }

  lemma EntriesStepWalk(ti: nat, j: nat, es: seq<Value>, k: nat, done: seq<Report>)
    requires k < |es|
    requires EntriesWalk(ti, j, es, 0) == done + EntriesWalk(ti, j, es, k)
    ensures EntriesWalk(ti, j, es, 0) == (done + NodeReports([ti, j, k], EntrySchema, es[k])) + EntriesWalk(ti, j, es, k + 1)
  {
    var head := NodeReports([ti, j, k], EntrySchema, es[k]);
    assert EntriesWalk(ti, j, es, k) == head + EntriesWalk(ti, j, es, k + 1);
    Assoc3(done, head, EntriesWalk(ti, j, es, k + 1));
  }

  /** The invariant of the loop over items: the messages so far render the reports of the items before `j`. */
  ghost predicate ItemsSoFar(layout: Layout, msgs: seq<string>, ti: nat, items: seq<Value>, j: nat,
                             done: seq<Report>, out: seq<string>)
  {
    && j <= |items|
    && ItemsWalk(ti, items, 0) == Then(Walk(done, None), ItemsWalk(ti, items, j))
    && out == msgs + RenderReports(layout, done)
  }

  lemma ItemsLoopStart(layout: Layout, msgs: seq<string>, ti: nat, items: seq<Value>)
    ensures ItemsSoFar(layout, msgs, ti, items, 0, [], msgs)
  {
    assert [] + ItemsWalk(ti, items, 0).reports == ItemsWalk(ti, items, 0).reports;
    assert msgs + [] == msgs;
  }

  lemma ItemsLoopOk(layout: Layout, msgs: seq<string>, ti: nat, items: seq<Value>, j: nat,
                    done: seq<Report>, out: seq<string>, es: seq<Value>, out2: seq<string>)
    requires j < |items| && ItemsSoFar(layout, msgs, ti, items, j, done, out)
    requires Children(items[j], "item_inputs") == Ok(es)
    requires out2 == out + SchemaPart(ItemSchema, items[j], Prefix(layout, [ti, j]))
                         + RenderReports(layout, EntriesWalk(ti, j, es, 0))
    ensures ItemsSoFar(layout, msgs, ti, items, j + 1,
                       done + NodeReports([ti, j], ItemSchema, items[j]) + EntriesWalk(ti, j, es, 0), out2)
  {
    var node := NodeReports([ti, j], ItemSchema, items[j]);
    var ent := EntriesWalk(ti, j, es, 0);
    var rest := ItemsWalk(ti, items, j + 1);
    assert ItemsWalk(ti, items, j) == Then(Walk(node + ent, None), rest);
    Assoc4(done, node, ent, rest.reports);
    NodeStep(layout, msgs, out, done, [ti, j], ItemSchema, items[j]);
    Extend(layout, msgs, done + node, ent);
  }

  lemma ItemsLoopErr(layout: Layout, msgs: seq<string>, ti: nat, items: seq<Value>, j: nat,
                     done: seq<Report>, out: seq<string>, e: Exc)
    requires j < |items| && ItemsSoFar(layout, msgs, ti, items, j, done, out)
    requires Children(items[j], "item_inputs") == Err(e)
    ensures ItemsWalk(ti, items, 0).stop.Some?
    ensures out + SchemaPart(ItemSchema, items[j], Prefix(layout, [ti, j])) + [IterationMessage("item_inputs", e)]
            == msgs + Render(layout, ItemsWalk(ti, items, 0))
  {
    var node := NodeReports([ti, j], ItemSchema, items[j]);
    assert ItemsWalk(ti, items, j) == Walk(node, Some(IterationMessage("item_inputs", e)));
    NodeStep(layout, msgs, out, done, [ti, j], ItemSchema, items[j]);
    RenderStopped(layout, msgs, done + node, IterationMessage("item_inputs", e));
  }

  lemma ItemsLoopEnd(layout: Layout, msgs: seq<string>, ti: nat, items: seq<Value>,
                     done: seq<Report>, out: seq<string>)
    requires ItemsSoFar(layout, msgs, ti, items, |items|, done, out)
    ensures ItemsWalk(ti, items, 0).stop.None?
    ensures out == msgs + Render(layout, ItemsWalk(ti, items, 0))
  {
    assert done + [] == done;
    RenderDone(layout, msgs, done);
  }

  /** The invariant of the loop over tabs in `_validate_schema_multiple`. */
  ghost predicate TabsSoFar(msgs: seq<string>, config: Value, tabs: seq<Value>, i: nat,
                            done: seq<Report>, out: seq<string>)
  {
    && i <= |tabs|
    && MultipleWalk(config) == Then(Walk(done, None), TabsWalk(tabs, i))
    && out == msgs + RenderReports(Multiple, done)
  }

  lemma TabsLoopStart(msgs: seq<string>, config: Value, tabs: seq<Value>)
    requires Children(config, "tabs") == Ok(tabs)
    ensures TabsSoFar(msgs, config, tabs, 0, NodeReports([], OuterWithTabs, config),
                      msgs + SchemaPart(OuterWithTabs, config, ""))
  {
    assert msgs + [] == msgs;
    NodeStep(Multiple, msgs, msgs, [], [], OuterWithTabs, config);
    assert [] + NodeReports([], OuterWithTabs, config) == NodeReports([], OuterWithTabs, config);
  }

  lemma TabsLoopOuterErr(msgs: seq<string>, config: Value, e: Exc)
    requires Children(config, "tabs") == Err(e)
    ensures msgs + SchemaPart(OuterWithTabs, config, "") + [IterationMessage("tabs", e)]
            == msgs + Render(Multiple, MultipleWalk(config))
  {
    var node := NodeReports([], OuterWithTabs, config);
    assert MultipleWalk(config) == Walk(node + [], Some(IterationMessage("tabs", e)));
    assert node + [] == node;
    assert msgs + [] == msgs;
    NodeStep(Multiple, msgs, msgs, [], [], OuterWithTabs, config);
    assert [] + node == node;
    RenderStopped(Multiple, msgs, node, IterationMessage("tabs", e));
  }

  lemma TabsLoopErr(msgs: seq<string>, config: Value, tabs: seq<Value>, i: nat,
                    done: seq<Report>, out: seq<string>, e: Exc)
    requires i < |tabs| && TabsSoFar(msgs, config, tabs, i, done, out)
    requires Children(tabs[i], "items") == Err(e)
    ensures out + SchemaPart(TabMultiple, tabs[i], Prefix(Multiple, [i])) + [IterationMessage("items", e)]
            == msgs + Render(Multiple, MultipleWalk(config))
  {
    var node := NodeReports([i], TabMultiple, tabs[i]);
    assert TabsWalk(tabs, i) == Walk(node, Some(IterationMessage("items", e)));
    NodeStep(Multiple, msgs, out, done, [i], TabMultiple, tabs[i]);
    RenderStopped(Multiple, msgs, done + node, IterationMessage("items", e));
  }

  lemma TabsLoopItems(msgs: seq<string>, config: Value, tabs: seq<Value>, i: nat,
                      done: seq<Report>, out: seq<string>, items: seq<Value>, out2: seq<string>)
    requires i < |tabs| && TabsSoFar(msgs, config, tabs, i, done, out)
    requires Children(tabs[i], "items") == Ok(items)
    requires out2 == out + SchemaPart(TabMultiple, tabs[i], Prefix(Multiple, [i]))
                         + Render(Multiple, ItemsWalk(i, items, 0))
    ensures ItemsWalk(i, items, 0).stop.Some? ==> out2 == msgs + Render(Multiple, MultipleWalk(config))
    ensures ItemsWalk(i, items, 0).stop.None? ==>
      TabsSoFar(msgs, config, tabs, i + 1,
                done + NodeReports([i], TabMultiple, tabs[i]) + ItemsWalk(i, items, 0).reports, out2)
  {
    var node := NodeReports([i], TabMultiple, tabs[i]);
    var w := ItemsWalk(i, items, 0);
    var rest := TabsWalk(tabs, i + 1);
    assert TabsWalk(tabs, i) == Then(Walk(node, None), Then(w, rest));
    NodeStep(Multiple, msgs, out, done, [i], TabMultiple, tabs[i]);
    ThenAssoc(Walk(done, None), Walk(node, None), Then(w, rest));
    assert Then(Walk(done, None), Walk(node, None)) == Walk(done + node, None);
    ThenAssoc(Walk(done + node, None), w, rest);
    RenderThen(Multiple, done + node, w);
    Assoc3(msgs, RenderReports(Multiple, done + node), Render(Multiple, w));
    if w.stop.None? {
      assert Then(Walk(done + node, None), w) == Walk(done + node + w.reports, None);
      RenderDone(Multiple, msgs, done + node + w.reports);
    }
  }

  lemma TabsLoopEnd(msgs: seq<string>, config: Value, tabs: seq<Value>, done: seq<Report>, out: seq<string>)
    requires TabsSoFar(msgs, config, tabs, |tabs|, done, out)
    ensures out == msgs + Render(Multiple, MultipleWalk(config))
  {
    assert done + [] == done;
    RenderDone(Multiple, msgs, done);
  }

  lemma RenderStopped(layout: Layout, msgs: seq<string>, done: seq<Report>, m: string)
    ensures msgs + Render(layout, Walk(done, Some(m))) == msgs + RenderReports(layout, done) + [m]
  {}

  lemma RenderDone(layout: Layout, msgs: seq<string>, done: seq<Report>)
    ensures msgs + Render(layout, Walk(done, None)) == msgs + RenderReports(layout, done)
  {
    assert RenderReports(layout, done) + [] == RenderReports(layout, done);
  }

  /** Rendering a walk that follows finished reports. */
  lemma RenderThen(layout: Layout, done: seq<Report>, w: Walk)
    ensures Render(layout, Then(Walk(done, None), w)) == RenderReports(layout, done) + Render(layout, w)
  {
    RenderConcat(layout, done, w.reports);
    Assoc3(RenderReports(layout, done), RenderReports(layout, w.reports),
           if w.stop.Some? then [w.stop.value] else []);
  }

  /** The walk of a single-tab layout: the outer node, the tab node (if any), then the items. */
  lemma SingleItems(layout: Layout, msgs: seq<string>, done: seq<Report>, items: seq<Value>, out2: seq<string>)
    requires out2 == msgs + RenderReports(layout, done) + Render(layout, ItemsWalk(0, items, 0))
    ensures out2 == msgs + Render(layout, Then(Walk(done, None), ItemsWalk(0, items, 0)))
  {
    var w := ItemsWalk(0, items, 0);
    RenderThen(layout, done, w);
    Assoc3(msgs, RenderReports(layout, done), Render(layout, w));
  }

  /** The outer node renders with an empty prefix. */
  lemma OuterStep(layout: Layout, msgs: seq<string>, s: Schema, config: Value)
    ensures msgs + SchemaPart(s, config, "") == msgs + RenderReports(layout, NodeReports([], s, config))
  {
    assert msgs + [] == msgs;
    NodeStep(layout, msgs, msgs, [], [], s, config);
    assert [] + NodeReports([], s, config) == NodeReports([], s, config);
  }

  lemma SingleWithKeyNoTab(msgs: seq<string>, config: Value, e: Exc)
    requires SoleTab(config) == Err(e)
    ensures msgs + SchemaPart(OuterWithTabs, config, "") + [IterationMessage("tabs", e)]
            == msgs + Render(SingleWithKey, SingleWithKeyWalk(config))
  {
    var outer := NodeReports([], OuterWithTabs, config);
    OuterStep(SingleWithKey, msgs, OuterWithTabs, config);
    assert SingleWithKeyWalk(config) == Walk(outer + [], Some(IterationMessage("tabs", e)));
    assert outer + [] == outer;
    RenderStopped(SingleWithKey, msgs, outer, IterationMessage("tabs", e));
  }

  lemma SingleWithKeyTab(msgs: seq<string>, config: Value, tab: Value)
    requires SoleTab(config) == Ok(tab)
    ensures msgs + SchemaPart(OuterWithTabs, config, "") + SchemaPart(TabSingleWithKey, tab, "sole tab: ")
            == msgs + RenderReports(SingleWithKey, NodeReports([], OuterWithTabs, config) + NodeReports([0], TabSingleWithKey, tab))
  {
    OuterStep(SingleWithKey, msgs, OuterWithTabs, config);
    assert Prefix(SingleWithKey, [0]) == "sole tab: ";
    NodeStep(SingleWithKey, msgs, msgs + SchemaPart(OuterWithTabs, config, ""),
             NodeReports([], OuterWithTabs, config), [0], TabSingleWithKey, tab);
  }

  lemma SingleWithKeyNoItems(msgs: seq<string>, config: Value, tab: Value, e: Exc)
    requires SoleTab(config) == Ok(tab) && Children(tab, "items") == Err(e)
    ensures msgs + SchemaPart(OuterWithTabs, config, "") + SchemaPart(TabSingleWithKey, tab, "sole tab: ")
                 + [IterationMessage("items", e)]
            == msgs + Render(SingleWithKey, SingleWithKeyWalk(config))
  {
    var outer := NodeReports([], OuterWithTabs, config);
    var node := NodeReports([0], TabSingleWithKey, tab);
    SingleWithKeyTab(msgs, config, tab);
    assert SingleWithKeyWalk(config)
        == Then(Walk(outer, None), Then(Walk(node, None), Walk([], Some(IterationMessage("items", e)))));
    assert node + [] == node;
    assert SingleWithKeyWalk(config) == Walk(outer + node, Some(IterationMessage("items", e)));
    RenderStopped(SingleWithKey, msgs, outer + node, IterationMessage("items", e));
  }

  lemma SingleWithKeyItems(msgs: seq<string>, config: Value, tab: Value, items: seq<Value>)
    requires SoleTab(config) == Ok(tab) && Children(tab, "items") == Ok(items)
    ensures msgs + SchemaPart(OuterWithTabs, config, "") + SchemaPart(TabSingleWithKey, tab, "sole tab: ")
                 + Render(SingleWithKey, ItemsWalk(0, items, 0))
            == msgs + Render(SingleWithKey, SingleWithKeyWalk(config))
  {
    var outer := NodeReports([], OuterWithTabs, config);
    var node := NodeReports([0], TabSingleWithKey, tab);
    var w := ItemsWalk(0, items, 0);
    SingleWithKeyTab(msgs, config, tab);
    assert SingleWithKeyWalk(config) == Then(Walk(outer, None), Then(Walk(node, None), w));
    ThenAssoc(Walk(outer, None), Walk(node, None), w);
    assert Then(Walk(outer, None), Walk(node, None)) == Walk(outer + node, None);
    SingleItems(SingleWithKey, msgs, outer + node, items,
                msgs + RenderReports(SingleWithKey, outer + node) + Render(SingleWithKey, w));
  }

  lemma SingleWithoutKeyNoItems(msgs: seq<string>, config: Value, e: Exc)
    requires Children(config, "items") == Err(e)
    ensures msgs + SchemaPart(OuterWithoutTabs, config, "") + [IterationMessage("items", e)]
            == msgs + Render(SingleWithoutKey, SingleWithoutKeyWalk(config))
  {
    var outer := NodeReports([], OuterWithoutTabs, config);
    OuterStep(SingleWithoutKey, msgs, OuterWithoutTabs, config);
    assert SingleWithoutKeyWalk(config) == Walk(outer + [], Some(IterationMessage("items", e)));
    assert outer + [] == outer;
    RenderStopped(SingleWithoutKey, msgs, outer, IterationMessage("items", e));
  }

  lemma SingleWithoutKeyItems(msgs: seq<string>, config: Value, items: seq<Value>)
    requires Children(config, "items") == Ok(items)
    ensures msgs + SchemaPart(OuterWithoutTabs, config, "") + Render(SingleWithoutKey, ItemsWalk(0, items, 0))
            == msgs + Render(SingleWithoutKey, SingleWithoutKeyWalk(config))
  {
    var outer := NodeReports([], OuterWithoutTabs, config);
    OuterStep(SingleWithoutKey, msgs, OuterWithoutTabs, config);
    assert SingleWithoutKeyWalk(config) == Then(Walk(outer, None), ItemsWalk(0, items, 0));
    SingleItems(SingleWithoutKey, msgs, outer, items,
                msgs + RenderReports(SingleWithoutKey, outer) + Render(SingleWithoutKey, ItemsWalk(0, items, 0)));
  }

  // ---------------------------------------------------------------------
  // The walk, as the source runs it

  /** The innermost loop: every entry of one item's `item_inputs`. */
  method CheckEntries(layout: Layout, msgs: seq<string>, ti: nat, j: nat, es: seq<Value>)
    returns (out: seq<string>)
    ensures out == msgs + RenderReports(layout, EntriesWalk(ti, j, es, 0))
  {
    out := msgs;
    ghost var done: seq<Report> := [];
    var k: nat := 0;
    assert msgs + [] == msgs;
    while k < |es|
      invariant 0 <= k <= |es|
      invariant EntriesWalk(ti, j, es, 0) == done + EntriesWalk(ti, j, es, k)
      invariant out == msgs + RenderReports(layout, done)
    {
      EntriesStepWalk(ti, j, es, k, done);
      NodeStep(layout, msgs, out, done, [ti, j, k], EntrySchema, es[k]);
      out := out + SchemaPart(EntrySchema, es[k], Prefix(layout, [ti, j, k]));
      done := done + NodeReports([ti, j, k], EntrySchema, es[k]);
      k := k + 1;
    }
    assert done + [] == done;
  }

  /** The loop over the items of one tab, each followed by its entries; stops at the first exception. */
  method CheckItems(layout: Layout, msgs: seq<string>, ti: nat, items: seq<Value>)
    returns (out: seq<string>, stopped: bool)
    ensures out == msgs + Render(layout, ItemsWalk(ti, items, 0))
    ensures stopped <==> ItemsWalk(ti, items, 0).stop.Some?
  {
    out := msgs;
    ghost var done: seq<Report> := [];
    ItemsLoopStart(layout, msgs, ti, items);
    var j: nat := 0;
    while j < |items|
      invariant ItemsSoFar(layout, msgs, ti, items, j, done, out)
      decreases |items| - j
    {
      var part := SchemaPart(ItemSchema, items[j], Prefix(layout, [ti, j]));
      var inputs := Children(items[j], "item_inputs");
      if inputs.Err? {
        ItemsLoopErr(layout, msgs, ti, items, j, done, out, inputs.error);
        out := out + part + [IterationMessage("item_inputs", inputs.error)];
        return out, true;
      }
      var out2 := CheckEntries(layout, out + part, ti, j, inputs.value);
      ItemsLoopOk(layout, msgs, ti, items, j, done, out, inputs.value, out2);
      done := done + NodeReports([ti, j], ItemSchema, items[j]) + EntriesWalk(ti, j, inputs.value, 0);
      out := out2;
      j := j + 1;
    }
    ItemsLoopEnd(layout, msgs, ti, items, done, out);
    return out, false;
  }

  /** `_validate_schema_multiple`. */
  method ValidateSchemaMultiple(msgs: seq<string>, config: Value) returns (out: seq<string>)
    ensures out == msgs + Render(Multiple, MultipleWalk(config))
  {
    out := msgs + SchemaPart(OuterWithTabs, config, "");
    var tabs := Children(config, "tabs");
    if tabs.Err? {
      TabsLoopOuterErr(msgs, config, tabs.error);
      out := out + [IterationMessage("tabs", tabs.error)];
      return;
    }
    ghost var done := NodeReports([], OuterWithTabs, config);
    TabsLoopStart(msgs, config, tabs.value);
    var i := 0;
    while i < |tabs.value|
      invariant TabsSoFar(msgs, config, tabs.value, i, done, out)
      decreases |tabs.value| - i
    {
      var tab := tabs.value[i];
      var part := SchemaPart(TabMultiple, tab, Prefix(Multiple, [i]));
      var items := Children(tab, "items");
      if items.Err? {
        TabsLoopErr(msgs, config, tabs.value, i, done, out, items.error);
        out := out + part + [IterationMessage("items", items.error)];
        return;
      }
      var out2, stopped := CheckItems(Multiple, out + part, i, items.value);
      TabsLoopItems(msgs, config, tabs.value, i, done, out, items.value, out2);
      if stopped {
        return out2;
      }
      done := done + NodeReports([i], TabMultiple, tab) + ItemsWalk(i, items.value, 0).reports;
      out := out2;
      i := i + 1;
    }
    TabsLoopEnd(msgs, config, tabs.value, done, out);
  }

  /** `_validate_schema_single_with_key`. */
  method ValidateSchemaSingleWithKey(msgs: seq<string>, config: Value) returns (out: seq<string>)
    ensures out == msgs + Render(SingleWithKey, SingleWithKeyWalk(config))
  {
    out := msgs + SchemaPart(OuterWithTabs, config, "");
    var tab := SoleTab(config);
    if tab.Err? {
      SingleWithKeyNoTab(msgs, config, tab.error);
      out := out + [IterationMessage("tabs", tab.error)];
      return;
    }
    out := out + SchemaPart(TabSingleWithKey, tab.value, "sole tab: ");
    var items := Children(tab.value, "items");
    if items.Err? {
      SingleWithKeyNoItems(msgs, config, tab.value, items.error);
      out := out + [IterationMessage("items", items.error)];
      return;
    }
    SingleWithKeyItems(msgs, config, tab.value, items.value);
    var stopped;
    out, stopped := CheckItems(SingleWithKey, out, 0, items.value);
  }

  /** `_validate_schema_single_without_key`. */
  method ValidateSchemaSingleWithoutKey(msgs: seq<string>, config: Value) returns (out: seq<string>)
    ensures out == msgs + Render(SingleWithoutKey, SingleWithoutKeyWalk(config))
  {
    out := msgs + SchemaPart(OuterWithoutTabs, config, "");
    var items := Children(config, "items");
    if items.Err? {
      SingleWithoutKeyNoItems(msgs, config, items.error);
      out := out + [IterationMessage("items", items.error)];
      return;
    }
    SingleWithoutKeyItems(msgs, config, items.value);
    var stopped;
    out, stopped := CheckItems(SingleWithoutKey, out, 0, items.value);
  }

  /** `_validate_schema`: classify, then walk with that layout's schemas. */
  method ValidateSchema(msgs: seq<string>, config: Value) returns (r: Result<seq<string>>)
    ensures r == Prepend(msgs, SchemaMessages(config))
  {
    var layout :- DetermineLayout(config);
    var out;
    match layout {
      case Multiple => out := ValidateSchemaMultiple(msgs, config);
      case SingleWithKey => out := ValidateSchemaSingleWithKey(msgs, config);
      case SingleWithoutKey => out := ValidateSchemaSingleWithoutKey(msgs, config);
    }
    r := Ok(out);
  }
}
