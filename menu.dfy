/**
 * The `Menu` class of src/tabbedshellmenus/menu.py: validation, normalization
 * and the tab objects at construction, then the run loop, a cursor over the
 * tabs driven by the lines the user types.
 *
 * Standard input is the field `stdin` (the lines still to be read); standard
 * output is the field `shown`, the list of things printed. The menu text
 * itself comes from a formatting module that is not part of this model, so a
 * printed menu is the event `MenuShown(cursor)`.
 */
module TabbedMenu {
  import opened PyValue
  import opened NormalizerCore
  import opened TabTable
  import PytabbyValidateAll
  import PytabbyNormalizer

  /** What a menu prints. */
  datatype Event = MenuShown(tabNumber: int) | Announced(text: string) | Prompted(text: string)

  /** What `run` returns: `(tab_id, value)` for several tabs, the bare value for one. */
  datatype Answer = Pair(tabId: Option<string>, value: string) | Bare(value: string)

  /** The parts of a `Tab` object the menu reads. */
  datatype TabView = TabView(headChoice: Option<string>, headDesc: Option<string>, headDescLong: Option<string>, table: Table)

  /** Truthiness of an optional string attribute. */
  predicate Present(s: Option<string>) {
    s.Some? && s.value != ""
  }

  /** An optional part of the announcement: the text after its lead when the attribute is present, else nothing. */
  function Part(lead: string, s: Option<string>): string {
    if Present(s) then lead + s.value else ""
  }

  /** `_change_tab`'s message: printed only when the new tab has a `head_choice`. */
  function Announcement(v: TabView): (r: seq<Event>)
  {
    if Present(v.headChoice) then
      [Announced("Change tab to " + v.headChoice.value + Part(": ", v.headDesc) + Part("\n", v.headDescLong))]
    else []
  }

  /** The announcement's parts appear exactly when the matching attributes are present. */
  lemma AnnouncementMeaning(v: TabView)
    ensures |Announcement(v)| == 1 <==> Present(v.headChoice)
    ensures Announcement(v) == [] <==> !Present(v.headChoice)
    ensures Present(v.headChoice) && !Present(v.headDesc) && !Present(v.headDescLong) ==>
      Announcement(v) == [Announced("Change tab to " + v.headChoice.value)]
    ensures Present(v.headChoice) && Present(v.headDesc) && !Present(v.headDescLong) ==>
      Announcement(v) == [Announced("Change tab to " + v.headChoice.value + ": " + v.headDesc.value)]
    ensures Present(v.headChoice) && !Present(v.headDesc) && Present(v.headDescLong) ==>
      Announcement(v) == [Announced("Change tab to " + v.headChoice.value + "\n" + v.headDescLong.value)]
  {
    if Present(v.headChoice) {
      var head := "Change tab to " + v.headChoice.value;
      var desc := Part(": ", v.headDesc);
      var long := Part("\n", v.headDescLong);
      assert Announcement(v) == [Announced(head + desc + long)];
      if !Present(v.headDesc) {
        assert head + desc == head;
      } else {
        assert head + desc == head + ": " + v.headDesc.value;
      }
      if !Present(v.headDescLong) {
        assert head + desc + long == head + desc;
      } else {
        assert head + desc + long == head + desc + "\n" + v.headDescLong.value;
      }
    }
  }

  /** The string looked up: the typed line, lower-cased unless the menu is case-sensitive. */
  function Key(caseSensitive: bool, line: string): string {
    if caseSensitive then line else Lower(line)
  }

  const EofError := Exc(EOFError, "EOF when reading a line")

  // ---------------------------------------------------------------------
  // `_collect_input`

  /** The state `_collect_input` leaves: everything printed, the unread lines, and the outcome or the exception. */
  datatype Collected = Collected(printed: seq<Event>, rest: seq<string>, result: Result<Outcome>)

  /**
   * `_collect_input` with the given prompt, on the current tab `views[cursor]`,
   * after `printed` has been printed: prompt, read a line, look it up; an
   * invalid line re-prompts.
   */
  function CollectFrom(views: seq<TabView>, cursor: int, caseSensitive: bool, prompt: string, lines: seq<string>, printed: seq<Event>): (r: Collected)
    ensures |r.rest| <= |lines|
    ensures r.result.Ok? ==> r.result.value != Invalid && |r.rest| < |lines| && IndexOk(|views|, cursor)
    decreases |lines|
  {
    var shown := printed + [Prompted(prompt + ": ")];
    if lines == [] then Collected(shown, [], Err(EofError))
    else
      match PyIndex(views, cursor)
      case Err(e) => Collected(shown, lines[1..], Err(e))
      case Ok(tab) =>
        var outcome := Process(tab.table, Key(caseSensitive, lines[0]));
        if outcome.Invalid? then CollectFrom(views, cursor, caseSensitive, "Invalid, try again", lines[1..], shown)
        else Collected(shown, lines[1..], Ok(outcome))
  }

  /** The outcome of a typed line on a tab's table. */
  function OutcomeOf(table: Table, caseSensitive: bool, line: string): Outcome {
    Process(table, Key(caseSensitive, line))
  }

  /** The position of the first line the table does not call invalid. */
  function FirstValid(table: Table, caseSensitive: bool, lines: seq<string>): (k: Option<nat>)
    ensures k.Some? ==> k.value < |lines| && !OutcomeOf(table, caseSensitive, lines[k.value]).Invalid?
    ensures k.Some? ==> forall m :: 0 <= m < k.value ==> OutcomeOf(table, caseSensitive, lines[m]).Invalid?
    ensures k.None? ==> forall m :: 0 <= m < |lines| ==> OutcomeOf(table, caseSensitive, lines[m]).Invalid?
    decreases |lines|
  {
    if lines == [] then None
    else if !OutcomeOf(table, caseSensitive, lines[0]).Invalid? then Some(0)
    else match FirstValid(table, caseSensitive, lines[1..])
      case None => None
      case Some(k) => Some(k + 1)
  }

  /** The first prompt and then one "Invalid, try again" per rejected line. */
  function Prompts(prompt: string, rejected: nat): (r: seq<Event>)
    ensures |r| == rejected + 1 && r[0] == Prompted(prompt + ": ")
    ensures forall m :: 1 <= m <= rejected ==> r[m] == Prompted("Invalid, try again: ")
  {
    if rejected == 0 then [Prompted(prompt + ": ")]
    else Prompts(prompt, rejected - 1) + [Prompted("Invalid, try again: ")]
  }

  lemma PromptsStep(printed: seq<Event>, prompt: string, rejected: nat)
    ensures printed + [Prompted(prompt + ": ")] + Prompts("Invalid, try again", rejected) == printed + Prompts(prompt, rejected + 1)
  {
    var a := [Prompted(prompt + ": ")] + Prompts("Invalid, try again", rejected);
    var b := Prompts(prompt, rejected + 1);
    assert |a| == |b|;
    forall m | 0 <= m < |a|
      ensures a[m] == b[m]
    {
      if m > 0 {
        assert a[m] == Prompts("Invalid, try again", rejected)[m - 1];
      }
    }
    assert printed + [Prompted(prompt + ": ")] + Prompts("Invalid, try again", rejected) == printed + a;
  }

  /**
   * On a valid cursor, `_collect_input` returns the outcome of the first line
   * the current tab accepts, having read exactly the lines up to it and
   * printed one prompt per line read; with no accepted line it reads all of
   * them and raises EOFError after one prompt more.
   */
  lemma {:induction false} CollectMeaning(views: seq<TabView>, cursor: int, caseSensitive: bool, prompt: string, lines: seq<string>, printed: seq<Event>)
    requires IndexOk(|views|, cursor)
    ensures var c := CollectFrom(views, cursor, caseSensitive, prompt, lines, printed);
      var table := views[Wrap(|views|, cursor)].table;
      match FirstValid(table, caseSensitive, lines)
      case Some(k) =>
        c == Collected(printed + Prompts(prompt, k), lines[k + 1..], Ok(OutcomeOf(table, caseSensitive, lines[k])))
      case None =>
        c == Collected(printed + Prompts(prompt, |lines|), [], Err(EofError))
    decreases |lines|
  {
    var table := views[Wrap(|views|, cursor)].table;
    if lines != [] && OutcomeOf(table, caseSensitive, lines[0]).Invalid? {
      var shown := printed + [Prompted(prompt + ": ")];
      CollectInvalidStep(views, cursor, caseSensitive, prompt, lines, printed);
      CollectMeaning(views, cursor, caseSensitive, "Invalid, try again", lines[1..], shown);
      match FirstValid(table, caseSensitive, lines[1..])
      case Some(k) =>
        PromptsStep(printed, prompt, k);
        assert lines[1..][k + 1..] == lines[k + 2..] && lines[1..][k] == lines[k + 1];
        assert FirstValid(table, caseSensitive, lines) == Some(k + 1);
      case None =>
        PromptsStep(printed, prompt, |lines| - 1);
        assert FirstValid(table, caseSensitive, lines) == None;
    } else {
      CollectFirst(views, cursor, caseSensitive, prompt, lines, printed);
    }
  }

  /** An invalid first line: the same search on the remaining lines, after one prompt. */
  lemma CollectInvalidStep(views: seq<TabView>, cursor: int, caseSensitive: bool, prompt: string, lines: seq<string>, printed: seq<Event>)
    requires IndexOk(|views|, cursor) && lines != []
    requires OutcomeOf(views[Wrap(|views|, cursor)].table, caseSensitive, lines[0]).Invalid?
    ensures CollectFrom(views, cursor, caseSensitive, prompt, lines, printed)
      == CollectFrom(views, cursor, caseSensitive, "Invalid, try again", lines[1..], printed + [Prompted(prompt + ": ")])
    ensures var table := views[Wrap(|views|, cursor)].table;
      FirstValid(table, caseSensitive, lines)
        == if FirstValid(table, caseSensitive, lines[1..]).Some?
           then Some(FirstValid(table, caseSensitive, lines[1..]).value + 1) else None
  {
  }

  /** No line, or a first line the tab accepts: the search ends at once. */
  lemma CollectFirst(views: seq<TabView>, cursor: int, caseSensitive: bool, prompt: string, lines: seq<string>, printed: seq<Event>)
    requires IndexOk(|views|, cursor)
    requires lines == [] || !OutcomeOf(views[Wrap(|views|, cursor)].table, caseSensitive, lines[0]).Invalid?
    ensures var c := CollectFrom(views, cursor, caseSensitive, prompt, lines, printed);
      var table := views[Wrap(|views|, cursor)].table;
      match FirstValid(table, caseSensitive, lines)
      case Some(k) =>
        c == Collected(printed + Prompts(prompt, k), lines[k + 1..], Ok(OutcomeOf(table, caseSensitive, lines[k])))
      case None =>
        c == Collected(printed + Prompts(prompt, |lines|), [], Err(EofError))
  {
  }

  /** A cursor outside the tabs raises IndexError once a line has been read, and EOFError before. */
  lemma CollectBadCursor(views: seq<TabView>, cursor: int, caseSensitive: bool, prompt: string, lines: seq<string>, printed: seq<Event>)
    requires !IndexOk(|views|, cursor)
    ensures lines != [] ==> CollectFrom(views, cursor, caseSensitive, prompt, lines, printed).result == Err(Exc(IndexError, "list index out of range"))
    ensures lines == [] ==> CollectFrom(views, cursor, caseSensitive, prompt, lines, printed).result == Err(EofError)
  {
  }

  // ---------------------------------------------------------------------
  // `run`

  /** The state `run` leaves: the cursor, everything printed, the unread lines, and the answer or the exception. */
  datatype Ran = Ran(cursor: int, printed: seq<Event>, rest: seq<string>, result: Result<Answer>)

  /**
   * `run` after `printed` has been printed: print the menu, collect an
   * outcome; a tab change moves the cursor (announcing the new tab) and goes
   * round again; a return value ends the run. The run only adds to what was
   * printed, starting with the menu of the start tab.
   */
  function RunFrom(views: seq<TabView>, multiple: bool, caseSensitive: bool, cursor: int, lines: seq<string>, printed: seq<Event>): (r: Ran)
    ensures printed + [MenuShown(cursor)] <= r.printed
    decreases |lines|
  {
    var start := printed + [MenuShown(cursor)];
    var c := CollectFrom(views, cursor, caseSensitive, "?", lines, start);
    CollectExtends(views, cursor, caseSensitive, "?", lines, start);
    if c.result.Err? then Ran(cursor, c.printed, c.rest, Err(c.result.error))
    else match c.result.value
      case ChangeTab(n) =>
        (match PyIndex(views, n)
         case Err(e) => Ran(cursor, c.printed, c.rest, Err(e))
         case Ok(next) =>
           assert start <= c.printed + Announcement(next);
           RunFrom(views, multiple, caseSensitive, n, c.rest, c.printed + Announcement(next)))
      case Return(v) =>
        var tabId := PyIndex(views, cursor).value.headChoice;
        Ran(cursor, c.printed, c.rest, Ok(if multiple then Pair(tabId, v) else Bare(v)))
  }

  /**
   * A run that returns a value answers with the pair exactly when the menu
   * has several tabs, and the pair's tab is the one the cursor ends on; the
   * cursor ends on the start tab or on a tab a selector changed to.
   */
  lemma {:induction false} RunMeaning(views: seq<TabView>, multiple: bool, caseSensitive: bool, cursor: int, lines: seq<string>, printed: seq<Event>)
    ensures var r := RunFrom(views, multiple, caseSensitive, cursor, lines, printed);
      && (r.cursor == cursor || 0 <= r.cursor < |views|)
      && (r.result.Ok? ==> IndexOk(|views|, r.cursor))
      && (r.result.Ok? ==> (r.result.value.Pair? <==> multiple))
      && (r.result.Ok? && multiple ==> r.result.value.tabId == views[Wrap(|views|, r.cursor)].headChoice)
    decreases |lines|
  {
    var c := CollectFrom(views, cursor, caseSensitive, "?", lines, printed + [MenuShown(cursor)]);
    if c.result.Ok? && c.result.value.ChangeTab? && PyIndex(views, c.result.value.newNumber).Ok? {
      var next := PyIndex(views, c.result.value.newNumber).value;
      RunMeaning(views, multiple, caseSensitive, c.result.value.newNumber, c.rest, c.printed + Announcement(next));
    }
  }

  lemma {:induction false} CollectExtends(views: seq<TabView>, cursor: int, caseSensitive: bool, prompt: string, lines: seq<string>, printed: seq<Event>)
    ensures printed <= CollectFrom(views, cursor, caseSensitive, prompt, lines, printed).printed
    decreases |lines|
  {
    var shown := printed + [Prompted(prompt + ": ")];
    if lines != [] && PyIndex(views, cursor).Ok? && Process(PyIndex(views, cursor).value.table, Key(caseSensitive, lines[0])).Invalid? {
      CollectExtends(views, cursor, caseSensitive, "Invalid, try again", lines[1..], shown);
    }
  }

  /** With every line invalid on the start tab, the run prints the menu and one prompt per line, then raises EOFError. */
  lemma RunAllInvalid(views: seq<TabView>, multiple: bool, caseSensitive: bool, cursor: int, lines: seq<string>, printed: seq<Event>)
    requires IndexOk(|views|, cursor)
    requires forall m :: 0 <= m < |lines| ==> OutcomeOf(views[Wrap(|views|, cursor)].table, caseSensitive, lines[m]).Invalid?
    ensures RunFrom(views, multiple, caseSensitive, cursor, lines, printed) ==
      Ran(cursor, printed + [MenuShown(cursor)] + Prompts("?", |lines|), [], Err(EofError))
  {
    CollectMeaning(views, cursor, caseSensitive, "?", lines, printed + [MenuShown(cursor)]);
  }

  // ---------------------------------------------------------------------
  // Construction

  /** What `Menu.__init__` computes before building the object, or the exception it raises. */
  datatype Built = Built(config: NConfig, tables: seq<Table>)

  /**
   * `Menu.__init__` up to the tab objects, given what `validate_all` and
   * `normalize` do to the configuration: validation, then normalization, then
   * the start-tab assertion, then `create_tab_objects`.
   */
  function Construct(valid: Result<()>, normalized: Result<NConfig>, start: int): (r: Result<Built>)
    ensures valid.Err? ==> r == Err(valid.error)
    ensures r.Ok? ==>
      && valid.Ok? && normalized == Ok(r.value.config)
      && start < |r.value.config.tabs|
      && |r.value.tables| == |r.value.config.tabs|
      && forall i :: 0 <= i < |r.value.tables| ==>
           TabTableOf(r.value.config.tabs[i], Selectors(r.value.config.tabs)) == Ok(r.value.tables[i])
  {
    if valid.Err? then Err(valid.error)
    else if normalized.Err? then Err(normalized.error)
    else if !(start < |normalized.value.tabs|) then Err(Exc(AssertionError, ""))
    else
      var tables :- TabTables(normalized.value.tabs);
      MapFromEach(TableFn(Selectors(normalized.value.tabs)), normalized.value.tabs);
      Ok(Built(normalized.value, tables))
  }

  /** Past the validation, the normalization and the start-tab assertion, what `create_tab_objects` gives. */
  lemma ConstructSteps(valid: Result<()>, normalized: Result<NConfig>, start: int)
    requires valid.Ok? && normalized.Ok? && start < |normalized.value.tabs|
    ensures TabTables(normalized.value.tabs).Err? ==>
      Construct(valid, normalized, start) == Err(TabTables(normalized.value.tabs).error)
    ensures TabTables(normalized.value.tabs).Ok? ==>
      Construct(valid, normalized, start) == Ok(Built(normalized.value, TabTables(normalized.value.tabs).value))
  {
  }

  /**
   * The flag `_collect_input` reads is `config.get("case_sensitive", False)` of
   * the caller's dict, not the normalized value; it is truthy exactly when the
   * normalized one is, so typed lines are lower-cased exactly when the
   * normalizer lower-cased the inputs.
   */
  lemma CaseFlagAgrees(config: Value)
    requires PytabbyNormalizer.Normalize(config).Ok?
    ensures config.VDict?
    ensures Truthy(DictGet(config, "case_sensitive", VBool(false)).value) <==>
      Truthy(PytabbyNormalizer.Normalize(config).value.caseSensitive)
  {
  }

  /** The parts of the tab objects a menu reads. */
  function ViewsOf(tabs: seq<Tab>): (r: seq<TabView>)
    reads tabs
    ensures |r| == |tabs|
    ensures forall i :: 0 <= i < |tabs| ==>
      r[i] == TabView(tabs[i].headChoice, tabs[i].headDesc, tabs[i].headDescLong, tabs[i].input2result)
  {
    seq(|tabs|, i reads tabs requires 0 <= i < |tabs| =>
      TabView(tabs[i].headChoice, tabs[i].headDesc, tabs[i].headDescLong, tabs[i].input2result))
  }

  class Menu {
    var tabs: seq<Tab>
    var config: NConfig
    var currentTabNumber: int
    var screenWidth: Value
    var hasMultipleTabs: bool
    var caseSensitive: bool
    /** The lines standard input has yet to deliver. */
    var stdin: seq<string>
    /** Everything printed so far. */
    var shown: seq<Event>

    constructor (tabObjects: seq<Tab>, n: NConfig, start: int, caseFlag: bool, lines: seq<string>)
      ensures tabs == tabObjects && config == n && currentTabNumber == start
      ensures screenWidth == n.screenWidth && hasMultipleTabs == (|n.tabs| > 1)
      ensures caseSensitive == caseFlag && stdin == lines && shown == []
    {
      tabs := tabObjects;
      config := n;
      currentTabNumber := start;
      screenWidth := n.screenWidth;
      hasMultipleTabs := |n.tabs| > 1;
      caseSensitive := caseFlag;
      stdin := lines;
      shown := [];
    }

    /** `_change_tab(new_number)`: an index outside the tabs raises IndexError and changes nothing. */
    method ChangeTabTo(newNumber: int) returns (r: Result<()>)
      modifies this
      ensures tabs == old(tabs) && config == old(config) && caseSensitive == old(caseSensitive)
      ensures screenWidth == old(screenWidth) && hasMultipleTabs == old(hasMultipleTabs) && stdin == old(stdin)
      ensures !IndexOk(|tabs|, newNumber) ==>
        r == Err(Exc(IndexError, "list index out of range"))
        && currentTabNumber == old(currentTabNumber) && shown == old(shown)
      ensures IndexOk(|tabs|, newNumber) ==>
        r == Ok(()) && currentTabNumber == newNumber
        && shown == old(shown) + Announcement(ViewsOf(tabs)[Wrap(|tabs|, newNumber)])
    {
      var newTab := PyIndex(tabs, newNumber);
      if newTab.Err? {
        return Err(newTab.error);
      }
      var t := newTab.value;
      assert ViewsOf(tabs)[Wrap(|tabs|, newNumber)] == TabView(t.headChoice, t.headDesc, t.headDescLong, t.input2result);
      if t.headChoice.Some? && t.headChoice.value != "" {
        var desc := "";
        if t.headDesc.Some? && t.headDesc.value != "" {
          desc := ": " + t.headDesc.value;
        }
        var long := "";
        if t.headDescLong.Some? && t.headDescLong.value != "" {
          long := "\n" + t.headDescLong.value;
        }
        shown := shown + [Announced("Change tab to " + t.headChoice.value + desc + long)];
      }
      currentTabNumber := newNumber;
      return Ok(());
    }

    /** `_collect_input`: reads lines until the current tab accepts one. */
    method CollectInput() returns (r: Result<Outcome>)
      modifies this
      ensures tabs == old(tabs) && config == old(config) && caseSensitive == old(caseSensitive) && currentTabNumber == old(currentTabNumber)
      ensures screenWidth == old(screenWidth) && hasMultipleTabs == old(hasMultipleTabs)
      ensures CollectFrom(old(ViewsOf(tabs)), currentTabNumber, caseSensitive, "?", old(stdin), old(shown)) == Collected(shown, stdin, r)
    {
      ghost var views := ViewsOf(tabs);
      ghost var whole := CollectFrom(views, currentTabNumber, caseSensitive, "?", stdin, shown);
      var lines := stdin;
      var printed := shown;
      var prompt := "?";
      while true
        modifies {}
        invariant whole == CollectFrom(views, currentTabNumber, caseSensitive, prompt, lines, printed)
        decreases |lines|
      {
        printed := printed + [Prompted(prompt + ": ")];
        if lines == [] {
          r := Err(EofError);
          break;
        }
        var selection := lines[0];
        lines := lines[1..];
        if !caseSensitive {
          selection := Lower(selection);
        }
        var current := PyIndex(tabs, currentTabNumber);
        if current.Err? {
          r := Err(current.error);
          break;
        }
        assert current.value.input2result == views[Wrap(|tabs|, currentTabNumber)].table;
        var outcome := current.value.ProcessInput(selection);
        if !outcome.Invalid? {
          r := Ok(outcome);
          break;
        }
        prompt := "Invalid, try again";
      }
      stdin := lines;
      shown := printed;
    }

    /** `run`: loops until a return value; the cursor is not reset, so a later run starts where this one ended. */
    method Run() returns (r: Result<Answer>)
      modifies this
      ensures tabs == old(tabs) && config == old(config) && caseSensitive == old(caseSensitive)
      ensures screenWidth == old(screenWidth) && hasMultipleTabs == old(hasMultipleTabs)
      ensures RunFrom(old(ViewsOf(tabs)), hasMultipleTabs, caseSensitive, old(currentTabNumber), old(stdin), old(shown))
        == Ran(currentTabNumber, shown, stdin, r)
    {
      ghost var views := ViewsOf(tabs);
      ghost var whole := RunFrom(views, hasMultipleTabs, caseSensitive, currentTabNumber, stdin, shown);
      while true
        invariant tabs == old(tabs) && config == old(config) && caseSensitive == old(caseSensitive)
        invariant screenWidth == old(screenWidth) && hasMultipleTabs == old(hasMultipleTabs)
        invariant ViewsOf(tabs) == views
        invariant whole == RunFrom(views, hasMultipleTabs, caseSensitive, currentTabNumber, stdin, shown)
        decreases |stdin|
      {
        ghost var cursor, lines, printed := currentTabNumber, stdin, shown;
        shown := shown + [MenuShown(currentTabNumber)];
        var outcome := CollectInput();
        assert CollectFrom(views, cursor, caseSensitive, "?", lines, printed + [MenuShown(cursor)]) == Collected(shown, stdin, outcome);
        if outcome.Err? {
          return Err(outcome.error);
        }
        if outcome.value.ChangeTab? {
          var changed := ChangeTabTo(outcome.value.newNumber);
          if changed.Err? {
            return Err(changed.error);
          }
        } else {
          var current := PyIndex(tabs, currentTabNumber);
          if hasMultipleTabs {
            return Ok(Pair(current.value.headChoice, outcome.value.value));
          } else {
            return Ok(Bare(outcome.value.value));
          }
        }
      }
    }
  }

  /**
   * `Menu(config, start_tab_number)` on the caller's dict, with the lines
   * standard input will deliver; the normalizer's fold changes the caller's
   * dict.
   */
  method NewMenu(config: Dict, start: int, lines: seq<string>) returns (r: Result<Menu>)
    modifies config
    ensures var built := Construct(PytabbyValidateAll.ValidateAllOutcome(VDict(old(config.entries))),
                                   PytabbyNormalizer.Normalize(VDict(old(config.entries))), start);
      && (r.Ok? <==> built.Ok?)
      && (r.Err? ==> r.error == built.error)
      && (r.Ok? ==>
        && fresh(r.value)
        && r.value.config == built.value.config
        && r.value.currentTabNumber == start
        && r.value.hasMultipleTabs == (|built.value.config.tabs| > 1)
        && r.value.screenWidth == built.value.config.screenWidth
        && r.value.caseSensitive == Truthy(DictGet(VDict(config.entries), "case_sensitive", VBool(false)).value)
        && |r.value.tabs| == |built.value.tables|
        && (forall i :: 0 <= i < |r.value.tabs| ==> r.value.tabs[i].input2result == built.value.tables[i])
        && r.value.stdin == lines && r.value.shown == [])
  {
    var valid := PytabbyValidateAll.ValidateAll(VDict(config.entries));
    if valid.Err? {
      return Err(valid.error);
    }
    var n := PytabbyNormalizer.NormalizeConfig(config);
    if n.Err? {
      return Err(n.error);
    }
    if !(start < |n.value.tabs|) {
      return Err(Exc(AssertionError, ""));
    }
    var caseFlag := DictGet(VDict(config.entries), "case_sensitive", VBool(false));
    ConstructSteps(valid, n, start);
    r := Assemble(n.value, start, Truthy(caseFlag.value), lines);
  }

  /** The rest of `__init__` once the configuration is normalized: the tab objects, then the menu's fields. */
  method Assemble(n: NConfig, start: int, caseFlag: bool, lines: seq<string>) returns (r: Result<Menu>)
    ensures r.Ok? <==> TabTables(n.tabs).Ok?
    ensures r.Err? ==> r.error == TabTables(n.tabs).error
    ensures r.Ok? ==>
      && fresh(r.value)
      && r.value.config == n && r.value.currentTabNumber == start
      && r.value.hasMultipleTabs == (|n.tabs| > 1) && r.value.screenWidth == n.screenWidth
      && r.value.caseSensitive == caseFlag
      && |r.value.tabs| == |TabTables(n.tabs).value|
      && (forall i :: 0 <= i < |r.value.tabs| ==> r.value.tabs[i].input2result == TabTables(n.tabs).value[i])
      && r.value.stdin == lines && r.value.shown == []
  {
    var tabObjects := CreateTabObjects(n.tabs);
    if tabObjects.Err? {
      return Err(tabObjects.error);
    }
    var m := new Menu(tabObjects.value, n, start, caseFlag, lines);
    return Ok(m);
  }
}
