/**
 * `format_menu` and `_format_headers` of src/pysimpletabshellmenu/formatting.py:
 * the older text layout, read straight from the configuration's tab dicts
 * (after the menu has turned int tokens into strings).
 *
 * The header bar here has one row: each tab is one `[...]` entry, and the
 * same greedy wrapping rule as pytabby's bar puts a newline before an entry
 * that would take the line past `line_length - 1`. The entries are laid out
 * with pytabby's `Layout` over pieces whose two rows are the same text, and
 * only the top row is ever shown.
 */
module SimpleFormatting {
  import opened PyValue
  import opened PytabbyFormatting

  const HeaderKey := "header_choice_displayed_and_accepted"

  // ---------------------------------------------------------------------
  // The header bar

  /** `spacer`: `#` marks the current tab; other tabs get a space only before a truthy description. */
  function Spacer(current: bool, desc: Value): string {
    if current then "#" else if Truthy(desc) then " " else ""
  }

  /** `f"[{abbrev}{spacer}{desc}]"`, a None description having become "". */
  function Entry(abbrev: Value, desc: Value, current: bool): (r: string)
    ensures |r| >= 2 + |Str(abbrev)| && r[0] == '[' && r[|r| - 1] == ']'
  {
    "[" + Str(abbrev) + Spacer(current, desc) + (if desc == VNone then "" else Str(desc)) + "]"
  }

  /** The abbreviation inside brackets, then `#` for the current tab. */
  lemma EntryFrame(abbrev: Value, desc: Value, current: bool)
    ensures var e := Entry(abbrev, desc, current);
      var a := Str(abbrev);
      && |e| >= 2 + |a|
      && e[0] == '[' && e[|e| - 1] == ']' && e[1..1 + |a|] == a
      && (current ==> |e| >= 3 + |a| && e[1 + |a|] == '#')
  {
    Bracketed(Str(abbrev), Spacer(current, desc), if desc == VNone then "" else Str(desc));
  }

  /** Four parts in brackets: the first part follows the opening bracket, the second the first. */
  lemma Bracketed(a: string, sp: string, d: string)
    ensures var e := "[" + a + sp + d + "]";
      && |e| >= 2 + |a|
      && e[0] == '[' && e[|e| - 1] == ']' && e[1..1 + |a|] == a
      && (|sp| > 0 ==> |e| >= 3 + |a| && e[1 + |a|] == sp[0])
  {
    var e := "[" + a + sp + d + "]";
    assert e == "[" + a + (sp + d + "]");
    assert e[1..1 + |a|] == a;
  }

  /**
   * Another tab's entry has a space before a truthy description and nothing
   * before a falsy one; a None description shows as nothing, any other one
   * as its `str()`, even a falsy one such as 0.
   */
  lemma EntryDescription(abbrev: Value, desc: Value, current: bool)
    ensures var e := Entry(abbrev, desc, current);
      var a := Str(abbrev);
      && (desc == VNone ==> e == "[" + a + (if current then "#" else "") + "]")
      && (!current && Truthy(desc) ==> e == "[" + a + " " + Str(desc) + "]")
      && (!current && !Truthy(desc) && desc != VNone ==> e == "[" + a + Str(desc) + "]")
  {
  }

  /** The entry of one tab: a missing header raises KeyError, a tab that is no dict fails on the subscript. */
  function HeaderEntry(tab: Value, current: bool): Result<string> {
    var abbrev :- GetKey(tab, HeaderKey);
    var desc :- DictGet(tab, "header_description", VNone);
    Ok(Entry(abbrev, desc, current))
  }

  /** A tab dict has an entry exactly when it holds the header key; the description defaults to None. */
  lemma HeaderEntryReads(tab: Value, current: bool)
    ensures HeaderEntry(tab, current).Ok? <==> tab.VDict? && Lookup(tab.entries, HeaderKey).Some?
    ensures tab.VDict? && Lookup(tab.entries, HeaderKey).None? ==> HeaderEntry(tab, current) == Err(MissingKey(HeaderKey))
    ensures HeaderEntry(tab, current).Ok? ==>
      var desc := Lookup(tab.entries, "header_description");
      HeaderEntry(tab, current).value == Entry(Lookup(tab.entries, HeaderKey).value, if desc.Some? then desc.value else VNone, current)
  {
  }

  /** Tab `k`'s entry as a one-row piece. */
  function PieceAt(current: int): (nat, Value) -> Result<Tok> {
    (k: nat, tab: Value) =>
      match HeaderEntry(tab, k == current)
      case Ok(e) => Ok(Piece(e, e))
      case Err(x) => Err(x)
  }

  /** Tab `k`'s piece holds its entry, or the entry's error. */
  lemma PieceAtMeaning(current: int, k: nat, tab: Value)
    ensures PieceAt(current)(k, tab).Ok? <==> HeaderEntry(tab, k == current).Ok?
    ensures HeaderEntry(tab, k == current).Ok? ==>
      PieceAt(current)(k, tab).value == Piece(HeaderEntry(tab, k == current).value, HeaderEntry(tab, k == current).value)
    ensures HeaderEntry(tab, k == current).Err? ==> PieceAt(current)(k, tab).error == HeaderEntry(tab, k == current).error
  {
  }

  /** The entries of all tabs, in order; the first tab without one stops the loop. */
  function Entries(tabs: seq<Value>, current: int): Result<seq<Tok>> {
    EnumerateFrom(PieceAt(current), tabs, 0)
  }

  /** No tab's entry holds a newline. */
  predicate PlainEntries(tabs: seq<Value>, current: int) {
    forall k :: 0 <= k < |tabs| && HeaderEntry(tabs[k], k == current).Ok? ==> '\n' !in HeaderEntry(tabs[k], k == current).value
  }

  /**
   * The entry loop fails exactly when some tab has no entry, with the first
   * such tab's error; otherwise its pieces are the tabs' entries in tab order.
   */
  lemma EntriesMeaning(tabs: seq<Value>, current: int)
    ensures Entries(tabs, current).Ok? <==> forall k :: 0 <= k < |tabs| ==> HeaderEntry(tabs[k], k == current).Ok?
    ensures Entries(tabs, current).Err? ==> exists k ::
      && 0 <= k < |tabs| && HeaderEntry(tabs[k], k == current) == Err(Entries(tabs, current).error)
      && forall m :: 0 <= m < k ==> HeaderEntry(tabs[m], m == current).Ok?
    ensures Entries(tabs, current).Ok? ==>
      var ps := Entries(tabs, current).value;
      && |ps| == |tabs|
      && forall k :: 0 <= k < |tabs| ==>
           ps[k] == Piece(HeaderEntry(tabs[k], k == current).value, HeaderEntry(tabs[k], k == current).value)
  {
    var f := PieceAt(current);
    EnumerateMeaning(f, tabs, 0);
    forall k | 0 <= k < |tabs|
      ensures f(k, tabs[k]).Ok? <==> HeaderEntry(tabs[k], k == current).Ok?
    {
      PieceAtMeaning(current, k, tabs[k]);
    }
    if Entries(tabs, current).Err? {
      EntriesErr(tabs, current);
    } else {
      EntriesOk(tabs, current);
    }
  }

  /** A failing entry loop raises the error of the first tab without an entry. */
  lemma EntriesErr(tabs: seq<Value>, current: int)
    requires Entries(tabs, current).Err?
    ensures exists k ::
      && 0 <= k < |tabs| && HeaderEntry(tabs[k], k == current) == Err(Entries(tabs, current).error)
      && forall m :: 0 <= m < k ==> HeaderEntry(tabs[m], m == current).Ok?
  {
    var f := PieceAt(current);
    var entries := Entries(tabs, current);
    EnumerateMeaning(f, tabs, 0);
    var k :|
      && 0 <= k < |tabs| && f(k, tabs[k]) == Err(entries.error)
      && forall m :: 0 <= m < k ==> f(m, tabs[m]).Ok?;
    forall m | 0 <= m < k
      ensures HeaderEntry(tabs[m], m == current).Ok?
    {
      PieceAtMeaning(current, m, tabs[m]);
    }
    PieceAtMeaning(current, k, tabs[k]);
  }

  /** A passing entry loop holds every tab's entry, in tab order. */
  lemma EntriesOk(tabs: seq<Value>, current: int)
    requires Entries(tabs, current).Ok?
    ensures var ps := Entries(tabs, current).value;
      && |ps| == |tabs|
      && forall k :: 0 <= k < |tabs| ==>
           && HeaderEntry(tabs[k], k == current).Ok?
           && ps[k] == Piece(HeaderEntry(tabs[k], k == current).value, HeaderEntry(tabs[k], k == current).value)
  {
    var ps := Entries(tabs, current).value;
    EnumerateAt(PieceAt(current), tabs, 0);
    forall k | 0 <= k < |tabs|
      ensures HeaderEntry(tabs[k], k == current).Ok?
      ensures ps[k] == Piece(HeaderEntry(tabs[k], k == current).value, HeaderEntry(tabs[k], k == current).value)
    {
      EnumerateAt(PieceAt(current), tabs, k);
      PieceAtOk(current, k, tabs[k], ps[k]);
    }
  }

  /** A piece that was produced holds the tab's entry twice. */
  lemma PieceAtOk(current: int, k: nat, tab: Value, p: Tok)
    requires PieceAt(current)(k, tab) == Ok(p)
    ensures HeaderEntry(tab, k == current).Ok?
    ensures p == Piece(HeaderEntry(tab, k == current).value, HeaderEntry(tab, k == current).value)
  {
    PieceAtMeaning(current, k, tab);
  }

  /**
   * `_format_headers(tabs, current_number, line_length)`: the entries
   * joined, with the layout's breaks. It fails exactly when some tab has no
   * entry, raising the first such tab's error.
   */
  function HeaderBar(tabs: seq<Value>, current: int, lineLength: int): (r: Result<string>)
    ensures r.Ok? <==> forall k :: 0 <= k < |tabs| ==> HeaderEntry(tabs[k], k == current).Ok?
    ensures r.Err? ==> exists k ::
      && 0 <= k < |tabs| && HeaderEntry(tabs[k], k == current) == Err(r.error)
      && forall m :: 0 <= m < k ==> HeaderEntry(tabs[m], m == current).Ok?
  {
    EntriesMeaning(tabs, current);
    var pieces :- Entries(tabs, current);
    Ok(Text(Layout(pieces, lineLength, 0, 0), false))
  }

  /**
   * The bar's lines are its rows: with no newline inside an entry, splitting
   * the bar gives the rows of the layout; dropping the breaks gives every
   * entry in tab order; the first line, and every line of two entries or
   * more, is at most `line_length - 1` wide.
   */
  lemma HeaderBarRows(tabs: seq<Value>, current: int, lineLength: int)
    requires HeaderBar(tabs, current, lineLength).Ok? && PlainEntries(tabs, current)
    ensures var pieces := Entries(tabs, current).value;
      var toks := Layout(pieces, lineLength, 0, 0);
      var rows := Rows(toks);
      && Split(HeaderBar(tabs, current, lineLength).value) == RowTexts(rows, false)
      && Pieces(toks) == pieces
      && (rows[0] != [] ==> Width(rows[0]) <= lineLength - 1)
      && (forall k :: 1 <= k < |rows| && |rows[k]| >= 2 ==> Width(rows[k]) <= lineLength - 1)
  {
    var pieces := Entries(tabs, current).value;
    EntriesMeaning(tabs, current);
    assert AllPieces(pieces) && Balanced(pieces) && NoNewlines(pieces) by {
      forall k | 0 <= k < |pieces|
        ensures pieces[k].Piece? && |pieces[k].top| == |pieces[k].bottom|
        ensures '\n' !in pieces[k].top && '\n' !in pieces[k].bottom
      {
        assert HeaderEntry(tabs[k], k == current).Ok?;
      }
    }
    LayoutClean(pieces, lineLength, 0, 0);
    SplitText(Layout(pieces, lineLength, 0, 0), false);
    LayoutPieces(pieces, lineLength, 0, 0);
    assert pieces[0..] == pieces;
    LayoutWidths(pieces, lineLength, 0, 0);
  }

  // ---------------------------------------------------------------------
  // The item lines

  /** `len(item["choice_displayed"])`. */
  function ChoiceLen(item: Value): Result<nat> {
    var choice :- GetKey(item, "choice_displayed");
    PyValue.Len(choice)
  }

  /** `max_choice_len` after the first loop, from item `j` on, starting at `acc`. */
  function MaxChoiceFrom(items: seq<Value>, j: nat, acc: nat): Result<nat>
    decreases |items| - j
  {
    if j >= |items| then Ok(acc)
    else
      var n :- ChoiceLen(items[j]);
      MaxChoiceFrom(items, j + 1, if n > acc then n else acc)
  }

  /** The maximum is the largest choice length (or the start value); the loop fails exactly when some `len` does. */
  lemma {:induction false} MaxChoiceMeaning(items: seq<Value>, j: nat, acc: nat)
    requires j <= |items|
    ensures MaxChoiceFrom(items, j, acc).Ok? <==> forall k :: j <= k < |items| ==> ChoiceLen(items[k]).Ok?
    ensures MaxChoiceFrom(items, j, acc).Ok? ==>
      var w := MaxChoiceFrom(items, j, acc).value;
      && acc <= w
      && (forall k :: j <= k < |items| ==> ChoiceLen(items[k]).value <= w)
      && (w == acc || exists k :: j <= k < |items| && ChoiceLen(items[k]).value == w)
    decreases |items| - j
  {
    if j < |items| {
      var c := ChoiceLen(items[j]);
      if c.Err? {
        assert MaxChoiceFrom(items, j, acc) == Err(c.error);
      } else {
        var next := if c.value > acc then c.value else acc;
        MaxChoiceMeaning(items, j + 1, next);
        var rest := MaxChoiceFrom(items, j + 1, next);
        assert MaxChoiceFrom(items, j, acc) == rest;
        if rest.Ok? {
          var w := rest.value;
          forall k | j <= k < |items|
            ensures ChoiceLen(items[k]).Ok? && ChoiceLen(items[k]).value <= w
          {
            if k > j {
              assert j + 1 <= k < |items|;
            }
          }
          if w != acc && w == next {
            assert j <= j < |items| && ChoiceLen(items[j]).value == w;
          }
        }
      }
    }
  }

  /** `f"({choice}{spacer}) {desc}"` with `pad` spaces as the spacer. */
  function ItemText(choice: Value, desc: Value, pad: int): string {
    "(" + Str(choice) + Times(' ', pad) + ") " + Str(desc)
  }

  /**
   * For a string choice no longer than `width`, padding by the difference
   * puts the choice in parentheses with `)` at column `width + 1`, then the
   * description's `str()`.
   */
  lemma ItemTextAligned(choice: string, desc: Value, width: int)
    requires |choice| <= width
    ensures var l := ItemText(VStr(choice), desc, width - |choice|);
      && |l| == width + 3 + |Str(desc)|
      && l[0] == '(' && l[1..1 + |choice|] == choice
      && (forall k :: 1 + |choice| <= k < 1 + width ==> l[k] == ' ')
      && l[width + 1] == ')' && l[width + 3..] == Str(desc)
  {
    var l := ItemText(VStr(choice), desc, width - |choice|);
    var pad := Times(' ', width - |choice|);
    assert l == "(" + choice + pad + ") " + Str(desc);
    assert ("(" + choice + pad)[1..1 + |choice|] == choice;
    assert l[width + 3..] == Str(desc);
  }

  /** One item's line: `choice_displayed` and `choice_description` must be there and the choice must have a length. */
  function ItemLine(item: Value, width: int): Result<string> {
    var choice :- GetKey(item, "choice_displayed");
    var desc :- GetKey(item, "choice_description");
    var n :- PyValue.Len(choice);
    Ok(ItemText(choice, desc, width - n))
  }

  function LineFn(width: int): Value -> Result<string> {
    item => ItemLine(item, width)
  }

  /** What `format_menu` appends for the tab bar: the bar whenever there is a tab, even a lone one. */
  function HeaderBlock(tabs: seq<Value>, current: int, lineLength: int): Result<seq<string>> {
    if |tabs| > 0 then
      var bar :- HeaderBar(tabs, current, lineLength);
      Ok([bar])
    else Ok([])
  }

  /** `tabs[current_number]["items"]`, iterated. */
  function CurrentItems(tabs: seq<Value>, current: int): Result<seq<Value>> {
    var tab :- PyIndex(tabs, current);
    var itemsValue :- GetKey(tab, "items");
    Iter(itemsValue)
  }

  /**
   * The lines `format_menu` joins: a blank line, the header bar, one line
   * per item. They need a tab at `current_number` (negative positions
   * counting from the end) holding `items`, and an entry for every tab, a
   * lone tab included.
   */
  function MenuLines(tabs: seq<Value>, current: int, lineLength: int): (r: Result<seq<string>>)
    ensures r.Ok? ==> |tabs| > 0 && IndexOk(|tabs|, current) && GetKey(tabs[Wrap(|tabs|, current)], "items").Ok?
    ensures r.Ok? ==> forall k :: 0 <= k < |tabs| ==> HeaderEntry(tabs[k], k == current).Ok?
  {
    var headers :- HeaderBlock(tabs, current, lineLength);
    var items :- CurrentItems(tabs, current);
    var width :- MaxChoiceFrom(items, 0, 0);
    var lines :- MapFrom(LineFn(width), items, 0);
    Ok([""] + headers + lines)
  }

  /** `format_menu(tabs, current_number, line_length)`: the lines joined with newlines. */
  function MenuText(tabs: seq<Value>, current: int, lineLength: int): Result<string> {
    var ls :- MenuLines(tabs, current, lineLength);
    Ok(Join("\n", ls))
  }

  // ---------------------------------------------------------------------
  // What a formatted menu holds

  /** The parts a successful `format_menu` joins, each stage having succeeded. */
  lemma MenuLinesParts(tabs: seq<Value>, current: int, lineLength: int)
    requires MenuLines(tabs, current, lineLength).Ok?
    ensures |tabs| > 0 && HeaderBar(tabs, current, lineLength).Ok? && CurrentItems(tabs, current).Ok?
    ensures var items := CurrentItems(tabs, current).value;
      && MaxChoiceFrom(items, 0, 0).Ok?
      && MapFrom(LineFn(MaxChoiceFrom(items, 0, 0).value), items, 0).Ok?
      && MenuLines(tabs, current, lineLength).value
         == [""] + [HeaderBar(tabs, current, lineLength).value] + MapFrom(LineFn(MaxChoiceFrom(items, 0, 0).value), items, 0).value
  {
  }

  /**
   * A formatted menu needs a tab at `current_number` (Python's negative
   * indexes included) holding an iterable `items`; it opens with an empty
   * line and the header bar, then has one line per item.
   */
  lemma MenuLinesShape(tabs: seq<Value>, current: int, lineLength: int)
    requires MenuLines(tabs, current, lineLength).Ok?
    ensures |tabs| > 0 && IndexOk(|tabs|, current)
    ensures CurrentItems(tabs, current).Ok?
    ensures GetKey(tabs[Wrap(|tabs|, current)], "items").Ok?
    ensures var ls := MenuLines(tabs, current, lineLength).value;
      && |ls| == 2 + |CurrentItems(tabs, current).value|
      && ls[0] == ""
      && ls[1] == HeaderBar(tabs, current, lineLength).value
  {
    MenuLinesParts(tabs, current, lineLength);
    var items := CurrentItems(tabs, current).value;
    MapFromLength(LineFn(MaxChoiceFrom(items, 0, 0).value), items);
  }

  /** After the bar come the items' lines, in item order, all padded to the longest choice. */
  lemma MenuLinesItems(tabs: seq<Value>, current: int, lineLength: int)
    requires MenuLines(tabs, current, lineLength).Ok?
    ensures CurrentItems(tabs, current).Ok? && MaxChoiceFrom(CurrentItems(tabs, current).value, 0, 0).Ok?
    ensures var ls := MenuLines(tabs, current, lineLength).value;
      var items := CurrentItems(tabs, current).value;
      && 2 + |items| == |ls|
      && forall k :: 0 <= k < |items| ==> ItemLine(items[k], MaxChoiceFrom(items, 0, 0).value) == Ok(ls[2 + k])
  {
    MenuLinesParts(tabs, current, lineLength);
    var items := CurrentItems(tabs, current).value;
    var w := MaxChoiceFrom(items, 0, 0).value;
    LinesAfterHead(w, items, [""] + [HeaderBar(tabs, current, lineLength).value]);
  }

  /** Two lines followed by the item lines: item `k` is line `2 + k`. */
  lemma LinesAfterHead(w: int, items: seq<Value>, head: seq<string>)
    requires |head| == 2 && MapFrom(LineFn(w), items, 0).Ok?
    ensures var ls := head + MapFrom(LineFn(w), items, 0).value;
      && 2 + |items| == |ls|
      && forall k :: 0 <= k < |items| ==> ItemLine(items[k], w) == Ok(ls[2 + k])
  {
    MappedAfterTwo(LineFn(w), items, head);
  }

  /** Two lines followed by a loop's results: position `k` of the loop is line `2 + k`. */
  lemma MappedAfterTwo<T, U>(f: T -> Result<U>, xs: seq<T>, head: seq<U>)
    requires |head| == 2 && MapFrom(f, xs, 0).Ok?
    ensures var ls := head + MapFrom(f, xs, 0).value;
      && 2 + |xs| == |ls|
      && forall k :: 0 <= k < |xs| ==> f(xs[k]) == Ok(ls[2 + k])
  {
    var ys := MapFrom(f, xs, 0).value;
    MapFromLength(f, xs);
    forall k | 0 <= k < |xs|
      ensures f(xs[k]) == Ok((head + ys)[2 + k])
    {
      MapFromAt(f, xs, k);
    }
  }

  /** The item's `choice_displayed` is there and is a string. */
  predicate StrChoice(item: Value) {
    item.VDict? && Lookup(item.entries, "choice_displayed").Some? && Lookup(item.entries, "choice_displayed").value.VStr?
  }

  /** A string choice no longer than the width has its `)` at column `width + 1`. */
  lemma ItemLineAligned(item: Value, width: nat, line: string)
    requires StrChoice(item) && ChoiceLen(item).Ok? && ChoiceLen(item).value <= width && ItemLine(item, width) == Ok(line)
    ensures width + 1 < |line| && line[width + 1] == ')'
  {
    var choice := Lookup(item.entries, "choice_displayed").value.s;
    ItemTextAligned(choice, GetKey(item, "choice_description").value, width);
  }

  /** Every choice has a length, and none is longer than the maximum. */
  lemma MaxChoiceBounds(items: seq<Value>)
    requires MaxChoiceFrom(items, 0, 0).Ok?
    ensures forall k :: 0 <= k < |items| ==> ChoiceLen(items[k]).Ok? && ChoiceLen(items[k]).value <= MaxChoiceFrom(items, 0, 0).value
  {
    MaxChoiceMeaning(items, 0, 0);
  }

  /** For string choices every item line has its `)` in the same column, one past the longest choice. */
  lemma MenuLinesAligned(tabs: seq<Value>, current: int, lineLength: int)
    requires MenuLines(tabs, current, lineLength).Ok?
    ensures CurrentItems(tabs, current).Ok? && MaxChoiceFrom(CurrentItems(tabs, current).value, 0, 0).Ok?
    ensures var ls := MenuLines(tabs, current, lineLength).value;
      var items := CurrentItems(tabs, current).value;
      var w := MaxChoiceFrom(items, 0, 0).value;
      forall k :: 0 <= k < |items| && StrChoice(items[k]) ==>
        2 + k < |ls| && w + 1 < |ls[2 + k]| && ls[2 + k][w + 1] == ')'
  {
    MenuLinesItems(tabs, current, lineLength);
    var items := CurrentItems(tabs, current).value;
    MaxChoiceBounds(items);
    var w := MaxChoiceFrom(items, 0, 0).value;
    var ls := MenuLines(tabs, current, lineLength).value;
    forall k | 0 <= k < |items| && StrChoice(items[k])
      ensures 2 + k < |ls| && w + 1 < |ls[2 + k]| && ls[2 + k][w + 1] == ')'
    {
      ItemLineAligned(items[k], w, ls[2 + k]);
    }
  }

  /**
   * The single-tab layout without a header key (what the menu builds from
   * top-level `items`) cannot be shown: the header bar is built whenever
   * there is a tab, and the lone tab has no header to show.
   */
  lemma LoneTabWithoutHeader(items: Value, current: int, lineLength: int)
    ensures MenuText([VDict([("items", items)])], current, lineLength) == Err(MissingKey(HeaderKey))
  {
    var tab := VDict([("items", items)]);
    assert Lookup(tab.entries, HeaderKey).None?;
    assert HeaderEntry(tab, 0 == current) == Err(MissingKey(HeaderKey));
    PieceAtMeaning(current, 0, tab);
    assert Entries([tab], current) == Err(MissingKey(HeaderKey));
  }

  // ---------------------------------------------------------------------
  // The methods

  /** The left-to-right build of a layout only reads the pieces it has reached. */
  lemma {:induction false} LayoutUpToPrefix(a: seq<Tok>, b: seq<Tok>, lineLength: int, n: nat)
    requires n <= |a|
    ensures LayoutUpTo(a + b, lineLength, n) == LayoutUpTo(a, lineLength, n)
  {
    if n > 0 {
      LayoutUpToPrefix(a, b, lineLength, n - 1);
      assert (a + b)[n - 1] == a[n - 1];
    }
  }

  /** `done` and `lineLen` are the tokens and the current line's width after laying out all of `built`. */
  ghost predicate LaidOut(built: seq<Tok>, lineLength: int, done: seq<Tok>, lineLen: int) {
    && done == LayoutUpTo(built, lineLength, |built|).0
    && lineLen == LayoutUpTo(built, lineLength, |built|).1
  }

  /** A piece that does not fit on the current line goes after a break, on a new line. */
  lemma LaidOutBreak(built: seq<Tok>, p: Tok, lineLength: int, done: seq<Tok>, lineLen: int)
    requires LaidOut(built, lineLength, done, lineLen) && lineLen + PytabbyFormatting.Len(p) > lineLength - 1
    ensures LaidOut(built + [p], lineLength, (done + [Break]) + [p], PytabbyFormatting.Len(p))
  {
    LayoutUpToPrefix(built, [p], lineLength, |built|);
    assert (built + [p])[|built|] == p;
  }

  /** A piece that fits goes on the current line. */
  lemma LaidOutOnLine(built: seq<Tok>, p: Tok, lineLength: int, done: seq<Tok>, lineLen: int)
    requires LaidOut(built, lineLength, done, lineLen) && lineLen + PytabbyFormatting.Len(p) <= lineLength - 1
    ensures LaidOut(built + [p], lineLength, done + [p], lineLen + PytabbyFormatting.Len(p))
  {
    LayoutUpToPrefix(built, [p], lineLength, |built|);
    assert (built + [p])[|built|] == p;
  }

  /** The body of `_format_headers`' loop up to `new_entry`: the lookups, the spacer and the bracketed text. */
  method FormatEntry(tab: Value, isCurrent: bool) returns (r: Result<string>)
    ensures r == HeaderEntry(tab, isCurrent)
  {
    var abbrev := GetKey(tab, HeaderKey);
    if abbrev.Err? {
      return Err(abbrev.error);
    }
    var desc := DictGet(tab, "header_description", VNone);
    var spacer;
    if isCurrent {
      spacer := "#";
    } else if Truthy(desc.value) {
      spacer := " ";
    } else {
      spacer := "";
    }
    var shown := desc.value;
    if shown == VNone {
      shown := VStr("");
    }
    return Ok("[" + Str(abbrev.value) + spacer + Str(shown) + "]");
  }

  /** The end of the loop body: a newline first when the entry does not fit on the current line, then the entry. */
  method PlaceEntry(ghost built: seq<Tok>, lineLength: int, text: seq<string>, ghost done: seq<Tok>, lineLen: int, entry: string)
    returns (text': seq<string>, ghost done': seq<Tok>, lineLen': int)
    requires LaidOut(built, lineLength, done, lineLen) && Concat(text) == Text(done, false)
    ensures LaidOut(built + [Piece(entry, entry)], lineLength, done', lineLen') && Concat(text') == Text(done', false)
  {
    var piece := Piece(entry, entry);
    text', done', lineLen' := text, done, lineLen;
    if lineLen + |entry| > lineLength - 1 {
      LaidOutBreak(built, piece, lineLength, done, lineLen);
      Extend(text, done, Break, false);
      text' := text + ["\n"];
      done' := done + [Break];
      lineLen' := 0;
    } else {
      LaidOutOnLine(built, piece, lineLength, done, lineLen);
    }
    Extend(text', done', piece, false);
    text' := text' + [entry];
    done' := done' + [piece];
    lineLen' := lineLen' + |entry|;
  }

  /** `_format_headers`: the loop over the tabs that builds `text`, then `"".join(text)`. */
  method FormatHeaders(tabs: seq<Value>, current: int, lineLength: int) returns (r: Result<string>)
    ensures r == HeaderBar(tabs, current, lineLength)
  {
    var currentLineLength := 0;
    var text: seq<string> := [];
    ghost var built: seq<Tok> := [];
    ghost var done: seq<Tok> := [];
    EnumLoopStart(PieceAt(current), tabs);
    var i := 0;
    while i < |tabs|
      invariant EnumSoFar(PieceAt(current), tabs, i, built, Entries(tabs, current))
      invariant LaidOut(built, lineLength, done, currentLineLength)
      invariant Concat(text) == Text(done, false)
    {
      var newEntry := FormatEntry(tabs[i], i == current);
      PieceAtMeaning(current, i, tabs[i]);
      if newEntry.Err? {
        EnumLoopErr(PieceAt(current), tabs, i, built, Entries(tabs, current), newEntry.error);
        return Err(newEntry.error);
      }
      ghost var piece := Piece(newEntry.value, newEntry.value);
      EnumLoopNext(PieceAt(current), tabs, i, built, Entries(tabs, current), piece);
      text, done, currentLineLength := PlaceEntry(built, lineLength, text, done, currentLineLength, newEntry.value);
      built := built + [piece];
      i := i + 1;
    }
    EnumLoopEnd(PieceAt(current), tabs, built, Entries(tabs, current));
    LayoutUpToAll(built, lineLength);
    return Ok(Concat(text));
  }

  /** The first loop of `format_menu`: the longest `choice_displayed`. */
  method MaxChoiceLen(items: seq<Value>) returns (r: Result<nat>)
    ensures r == MaxChoiceFrom(items, 0, 0)
  {
    var maxChoiceLen: nat := 0;
    var j := 0;
    while j < |items|
      invariant j <= |items|
      invariant MaxChoiceFrom(items, 0, 0) == MaxChoiceFrom(items, j, maxChoiceLen)
    {
      var choice := GetKey(items[j], "choice_displayed");
      if choice.Err? {
        return Err(choice.error);
      }
      var n := PyValue.Len(choice.value);
      if n.Err? {
        return Err(n.error);
      }
      if n.value > maxChoiceLen {
        maxChoiceLen := n.value;
      }
      j := j + 1;
    }
    return Ok(maxChoiceLen);
  }

  /** The body of the second loop of `format_menu`, for one item. */
  method FormatItem(item: Value, width: nat) returns (r: Result<string>)
    ensures r == ItemLine(item, width)
  {
    var choice :- GetKey(item, "choice_displayed");
    var desc :- GetKey(item, "choice_description");
    var n :- PyValue.Len(choice);
    var spacer := Times(' ', width - n);
    return Ok("(" + Str(choice) + spacer + ") " + Str(desc));
  }

  /** The second loop of `format_menu`: one padded line per item, in order. */
  method ItemLines(items: seq<Value>, width: nat) returns (r: Result<seq<string>>)
    ensures r == MapFrom(LineFn(width), items, 0)
  {
    ghost var whole := MapFrom(LineFn(width), items, 0);
    var out: seq<string> := [];
    MapLoopStart(LineFn(width), items);
    var j := 0;
    while j < |items|
      invariant MapSoFar(LineFn(width), items, j, out, whole)
    {
      var line := FormatItem(items[j], width);
      if line.Err? {
        MapLoopErr(LineFn(width), items, j, out, whole, line.error);
        return Err(line.error);
      }
      MapLoopNext(LineFn(width), items, j, out, whole, line.value);
      out := out + [line.value];
      j := j + 1;
    }
    MapLoopEnd(LineFn(width), items, out, whole);
    return Ok(out);
  }

  /** `format_menu(tabs, current_number, line_length)`. */
  method FormatMenu(tabs: seq<Value>, current: int, lineLength: int) returns (r: Result<string>)
    ensures r == MenuText(tabs, current, lineLength)
  {
    var menu := [""];
    if |tabs| > 0 {
      var headers := FormatHeaders(tabs, current, lineLength);
      if headers.Err? {
        return Err(headers.error);
      }
      menu := menu + [headers.value];
    }
    var tab := PyIndex(tabs, current);
    if tab.Err? {
      return Err(tab.error);
    }
    var itemsValue := GetKey(tab.value, "items");
    if itemsValue.Err? {
      return Err(itemsValue.error);
    }
    var items := Iter(itemsValue.value);
    if items.Err? {
      return Err(items.error);
    }
    var maxChoiceLen := MaxChoiceLen(items.value);
    if maxChoiceLen.Err? {
      return Err(maxChoiceLen.error);
    }
    var lines := ItemLines(items.value, maxChoiceLen.value);
    if lines.Err? {
      return Err(lines.error);
    }
    return Ok(Join("\n", menu + lines.value));
  }
}
