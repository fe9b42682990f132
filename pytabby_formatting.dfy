/**
 * `format_menu` and `_format_headers` of src/pytabby/formatting.py: the text
 * a menu prints, built from a normalized configuration.
 *
 * The tab bar is laid out as a list of pieces and line breaks; Python then
 * joins the pieces and splits the result at newlines, and this model does
 * the same with `Text` and `Split`. `Rows` groups the pieces between breaks,
 * which is what the split recovers when no header text holds a newline.
 */
module PytabbyFormatting {
  import opened PyValue
  import opened NormalizerCore

  /** `c * n` on a one-character string: empty for `n <= 0`. */
  function Times(c: char, n: int): (r: string)
    ensures |r| == (if n > 0 then n else 0)
    ensures forall k :: 0 <= k < |r| ==> r[k] == c
    decreases if n > 0 then n else 0
  {
    if n <= 0 then "" else Times(c, n - 1) + [c]
  }

  /** `str.split("\n")`: the pieces between newlines, always at least one. */
  function Split(s: string): (r: seq<string>)
    ensures |r| >= 1
  {
    if s == [] then [""]
    else
      var rest := Split(s[1..]);
      if s[0] == '\n' then [""] + rest else [[s[0]] + rest[0]] + rest[1..]
  }

  /** Text without a newline is one piece; it joins the first piece of whatever follows it. */
  lemma {:induction false} SplitPrefix(t: string, x: string)
    requires '\n' !in t
    ensures Split(t + x) == [t + Split(x)[0]] + Split(x)[1..]
  {
    if t != [] {
      var s := t + x;
      assert s[0] == t[0] && s[1..] == t[1..] + x;
      SplitPrefix(t[1..], x);
      var rest := Split(s[1..]);
      assert Split(s) == [[s[0]] + rest[0]] + rest[1..];
      assert rest[0] == t[1..] + Split(x)[0] && rest[1..] == Split(x)[1..];
      assert [t[0]] + (t[1..] + Split(x)[0]) == t + Split(x)[0];
    } else {
      assert t + x == x;
      assert t + Split(x)[0] == Split(x)[0];
      assert [Split(x)[0]] + Split(x)[1..] == Split(x);
    }
  }

  /** `zip(top, bottom)` flattened: top and bottom lines alternate, as many pairs as the shorter list has lines. */
  function Interleave(top: seq<string>, bottom: seq<string>): (r: seq<string>)
    ensures |r| == 2 * (if |top| < |bottom| then |top| else |bottom|)
    ensures forall j :: 0 <= j < |r| ==> r[j] == (if j % 2 == 0 then top[j / 2] else bottom[j / 2])
  {
    if top == [] || bottom == [] then []
    else [top[0], bottom[0]] + Interleave(top[1..], bottom[1..])
  }

  // ---------------------------------------------------------------------
  // Header entries

  /** `tab.get("tab_header_description", None)`, with None (absent or stored) read as "". */
  function Description(t: NTab): string {
    if t.desc.Some? && t.desc.value.Some? then t.desc.value.value else ""
  }

  /** `start + abbreviation + spacer + description + end` for tab `i` of `n`. */
  function TopEntry(i: nat, n: nat, abbr: string, desc: string): (r: string)
  {
    (if i == 0 then "[" else "|") + abbr + (if desc != "" then ":" else "") + desc + (if i == n - 1 then "]" else "")
  }

  /**
   * An entry opens with `[` on the first tab and `|` on the others, closes
   * with `]` on the last, carries `:` exactly when there is a description, and
   * holds no newline its parts do not hold.
   */
  lemma TopEntryShape(i: nat, n: nat, abbr: string, desc: string)
    ensures var r := TopEntry(i, n, abbr, desc);
      && |r| == 1 + |abbr| + (if desc != "" then 1 + |desc| else 0) + (if i == n - 1 then 1 else 0)
      && r[0] == (if i == 0 then '[' else '|')
      && r[1..1 + |abbr|] == abbr
      && (i == n - 1 ==> r[|r| - 1] == ']')
      && (desc != "" ==> r[1 + |abbr|] == ':' && r[2 + |abbr|..2 + |abbr| + |desc|] == desc)
      && ('\n' !in abbr && '\n' !in desc ==> '\n' !in r)
  {
    var r := TopEntry(i, n, abbr, desc);
    var head := (if i == 0 then "[" else "|") + abbr;
    assert head[1..] == abbr;
    if desc != "" {
      assert r[2 + |abbr|..2 + |abbr| + |desc|] == desc;
    }
  }

  /** The bottom segment under an entry: a space, then `=` under the current tab and `-` under the others. */
  function Underline(entry: string, current: bool): string {
    " " + Times(if current then '=' else '-', |entry| - 1)
  }

  /** One top-line entry and the bottom segment under it, or a line break. */
  datatype Tok = Break | Piece(top: string, bottom: string)

  function TabEntry(tabs: seq<NTab>, i: nat): string
    requires i < |tabs| && tabs[i].selector.Some?
  {
    TopEntry(i, |tabs|, tabs[i].selector.value, Description(tabs[i]))
  }

  /** The entry of tab `j` over its segment: `=` under the current tab, `-` under the others. */
  function PieceOf(tabs: seq<NTab>, current: int, j: nat): Tok
    requires j < |tabs| && tabs[j].selector.Some?
  {
    Piece(TabEntry(tabs, j), Underline(TabEntry(tabs, j), j == current))
  }

  /** The pieces of tabs `i` onwards, up to the first tab without `tab_header_input`. */
  function PiecesFrom(tabs: seq<NTab>, current: int, i: nat): (r: seq<Tok>)
    ensures i <= |tabs| ==> |r| <= |tabs| - i
    decreases |tabs| - i
  {
    if i >= |tabs| || tabs[i].selector.None? then []
    else [PieceOf(tabs, current, i)] + PiecesFrom(tabs, current, i + 1)
  }

  /**
   * There is a piece for every tab from `i` on exactly when every one of them
   * has a `tab_header_input`; then tab `i + k`'s piece is at position `k`.
   */
  lemma {:induction false} PiecesFromAll(tabs: seq<NTab>, current: int, i: nat)
    requires i <= |tabs|
    ensures |PiecesFrom(tabs, current, i)| == |tabs| - i <==> forall k :: i <= k < |tabs| ==> tabs[k].selector.Some?
    ensures |PiecesFrom(tabs, current, i)| == |tabs| - i ==>
      forall k :: i <= k < |tabs| ==> tabs[k].selector.Some? && PiecesFrom(tabs, current, i)[k - i] == PieceOf(tabs, current, k)
    decreases |tabs| - i
  {
    if i < |tabs| && tabs[i].selector.Some? {
      PiecesFromAll(tabs, current, i + 1);
      var ps := PiecesFrom(tabs, current, i);
      if |ps| == |tabs| - i {
        forall k | i < k < |tabs|
          ensures ps[k - i] == PieceOf(tabs, current, k)
        {
          assert ps[k - i] == PiecesFrom(tabs, current, i + 1)[k - (i + 1)];
        }
      }
    }
  }

  /** The width a token takes on the top line. */
  function Len(t: Tok): nat {
    |Show(t, false)|
  }

  /**
   * The loop of `_format_headers` from piece `i` on, with `lineLen`
   * characters already on the current line: a break goes before an entry that
   * would take the line past `lineLength - 1`, and the line then holds that
   * entry alone. Every entry from `i` on is placed, each after at most one
   * break.
   */
  function Layout(pieces: seq<Tok>, lineLength: int, i: nat, lineLen: int): (r: seq<Tok>)
    ensures i <= |pieces| ==> |pieces| - i <= |r| <= 2 * (|pieces| - i)
    decreases |pieces| - i
  {
    if i >= |pieces| then []
    else if lineLen + Len(pieces[i]) > lineLength - 1 then [Break, pieces[i]] + Layout(pieces, lineLength, i + 1, Len(pieces[i]))
    else [pieces[i]] + Layout(pieces, lineLength, i + 1, lineLen + Len(pieces[i]))
  }

  /** `"".join(top_text)` or `"".join(bottom_text)`: a break is a newline. */
  function Text(toks: seq<Tok>, bottom: bool): string {
    if toks == [] then "" else Show(toks[0], bottom) + Text(toks[1..], bottom)
  }

  function Show(tok: Tok, bottom: bool): string {
    match tok
    case Break => "\n"
    case Piece(t, b) => if bottom then b else t
  }

  lemma {:induction false} TextAppend(a: seq<Tok>, b: seq<Tok>, bottom: bool)
    ensures Text(a + b, bottom) == Text(a, bottom) + Text(b, bottom)
  {
    if a != [] {
      var h := Show(a[0], bottom);
      assert (a + b)[0] == a[0] && (a + b)[1..] == a[1..] + b;
      assert Text(a + b, bottom) == h + Text(a[1..] + b, bottom);
      TextAppend(a[1..], b, bottom);
      assert h + (Text(a[1..], bottom) + Text(b, bottom)) == (h + Text(a[1..], bottom)) + Text(b, bottom);
    } else {
      assert a + b == b;
    }
  }

  /** The pieces between breaks, line by line. */
  function Rows(toks: seq<Tok>): (r: seq<seq<Tok>>)
    ensures |r| >= 1
  {
    if toks == [] then [[]]
    else
      var rest := Rows(toks[1..]);
      if toks[0].Break? then [[]] + rest else [[toks[0]] + rest[0]] + rest[1..]
  }

  function RowText(row: seq<Tok>, bottom: bool): string {
    if row == [] then "" else Show(row[0], bottom) + RowText(row[1..], bottom)
  }

  /** The text of each row. */
  function RowTexts(rows: seq<seq<Tok>>, bottom: bool): (r: seq<string>)
    ensures |r| == |rows|
    ensures forall k :: 0 <= k < |rows| ==> r[k] == RowText(rows[k], bottom)
  {
    if rows == [] then [] else [RowText(rows[0], bottom)] + RowTexts(rows[1..], bottom)
  }

  /** No piece holds a newline in its top or its bottom text. */
  predicate NoNewlines(toks: seq<Tok>) {
    forall k :: 0 <= k < |toks| && toks[k].Piece? ==> '\n' !in toks[k].top && '\n' !in toks[k].bottom
  }

  /** Splitting the joined text gives back the rows when no piece holds a newline. */
  lemma {:induction false} SplitText(toks: seq<Tok>, bottom: bool)
    requires NoNewlines(toks)
    ensures Split(Text(toks, bottom)) == RowTexts(Rows(toks), bottom)
  {
    if toks != [] {
      var rest := toks[1..];
      assert NoNewlines(rest) by {
        forall k | 0 <= k < |rest| && rest[k].Piece?
          ensures '\n' !in rest[k].top && '\n' !in rest[k].bottom
        {
          assert rest[k] == toks[k + 1];
        }
      }
      SplitText(rest, bottom);
      assert toks == [toks[0]] + rest;
      if toks[0].Break? {
        SplitBreak(rest, bottom);
      } else {
        SplitPiece(toks[0], rest, bottom);
      }
    }
  }

  lemma SplitBreak(rest: seq<Tok>, bottom: bool)
    requires Split(Text(rest, bottom)) == RowTexts(Rows(rest), bottom)
    ensures Split(Text([Break] + rest, bottom)) == RowTexts(Rows([Break] + rest), bottom)
  {
    var toks := [Break] + rest;
    assert toks[0] == Break && toks[1..] == rest;
    var s := Text(toks, bottom);
    assert s == "\n" + Text(rest, bottom);
    assert s[0] == '\n' && s[1..] == Text(rest, bottom);
    assert Rows(toks) == [[]] + Rows(rest);
    assert ([[]] + Rows(rest))[1..] == Rows(rest);
  }

  lemma SplitPiece(p: Tok, rest: seq<Tok>, bottom: bool)
    requires p.Piece? && '\n' !in Show(p, bottom)
    requires Split(Text(rest, bottom)) == RowTexts(Rows(rest), bottom)
    ensures Split(Text([p] + rest, bottom)) == RowTexts(Rows([p] + rest), bottom)
  {
    var toks := [p] + rest;
    assert toks[0] == p && toks[1..] == rest;
    var t := Show(p, bottom);
    var x := Text(rest, bottom);
    assert Text(toks, bottom) == t + x;
    SplitPrefix(t, x);
    var r := Rows(rest);
    assert Rows(toks) == [[p] + r[0]] + r[1..];
    assert ([p] + r[0])[0] == p && ([p] + r[0])[1..] == r[0];
    assert RowText([p] + r[0], bottom) == t + RowText(r[0], bottom);
    assert ([[p] + r[0]] + r[1..])[1..] == r[1..];
    assert RowTexts(r, bottom)[1..] == RowTexts(r[1..], bottom);
  }

  function Width(row: seq<Tok>): nat {
    |RowText(row, false)|
  }

  /** Every row after the first that holds two entries or more is at most `lineLength - 1` wide. */
  predicate LaterRowsFit(rows: seq<seq<Tok>>, lineLength: int) {
    forall k :: 1 <= k < |rows| && |rows[k]| >= 2 ==> Width(rows[k]) <= lineLength - 1
  }

  /** A piece in front of a token list joins its first row. */
  lemma RowsOfPiece(p: Tok, rest: seq<Tok>)
    requires p.Piece?
    ensures Rows([p] + rest) == [[p] + Rows(rest)[0]] + Rows(rest)[1..]
    ensures Width([p] + Rows(rest)[0]) == Len(p) + Width(Rows(rest)[0])
  {
    var toks := [p] + rest;
    assert toks[0] == p && toks[1..] == rest;
    var first := [p] + Rows(rest)[0];
    assert first[0] == p && first[1..] == Rows(rest)[0];
  }

  /** A break before a piece starts an empty first row. */
  lemma RowsOfBreak(p: Tok, rest: seq<Tok>)
    ensures Rows([Break, p] + rest) == [[]] + Rows([p] + rest)
  {
    var toks := [Break, p] + rest;
    assert toks[0] == Break && toks[1..] == [p] + rest;
  }

  /** Replacing the first row keeps the later rows. */
  lemma LaterRowsNewFirst(first: seq<Tok>, rows: seq<seq<Tok>>, lineLength: int)
    requires |rows| >= 1 && LaterRowsFit(rows, lineLength)
    ensures LaterRowsFit([first] + rows[1..], lineLength)
  {
    var out := [first] + rows[1..];
    forall k | 1 <= k < |out| && |out[k]| >= 2
      ensures Width(out[k]) <= lineLength - 1
    {
      assert out[k] == rows[k];
    }
  }

  /** An empty row in front shifts the first row to second place, where it must fit. */
  lemma LaterRowsShifted(rows: seq<seq<Tok>>, lineLength: int)
    requires |rows| >= 1 && LaterRowsFit(rows, lineLength)
    requires |rows[0]| >= 2 ==> Width(rows[0]) <= lineLength - 1
    ensures LaterRowsFit([[]] + rows, lineLength)
  {
    var out := [[]] + rows;
    forall k | 1 <= k < |out| && |out[k]| >= 2
      ensures Width(out[k]) <= lineLength - 1
    {
      assert out[k] == rows[k - 1];
    }
  }

  /**
   * The greedy rule: the first row is at most `lineLength - 1 - lineLen` wide
   * when it holds anything, and every later row holding two entries or more is
   * at most `lineLength - 1` wide.
   */
  lemma LayoutWidths(pieces: seq<Tok>, lineLength: int, i: nat, lineLen: int)
    requires AllPieces(pieces)
    ensures var rows := Rows(Layout(pieces, lineLength, i, lineLen));
      && (rows[0] != [] ==> lineLen + Width(rows[0]) <= lineLength - 1)
      && LaterRowsFit(rows, lineLength)
  {
    LayoutFits(pieces, lineLength, i, lineLen);
  }

  /** The rows of `toks` keep the greedy rule when the first row starts at column `lineLen`. */
  predicate RowsFit(toks: seq<Tok>, lineLength: int, lineLen: int) {
    var rows := Rows(toks);
    && (rows[0] != [] ==> lineLen + Width(rows[0]) <= lineLength - 1)
    && LaterRowsFit(rows, lineLength)
  }

  lemma {:induction false} LayoutFits(pieces: seq<Tok>, lineLength: int, i: nat, lineLen: int)
    requires AllPieces(pieces)
    ensures RowsFit(Layout(pieces, lineLength, i, lineLen), lineLength, lineLen)
    decreases |pieces| - i
  {
    if i < |pieces| {
      var p := pieces[i];
      assert p.Piece?;
      if lineLen + Len(p) > lineLength - 1 {
        var rest := Layout(pieces, lineLength, i + 1, Len(p));
        assert Layout(pieces, lineLength, i, lineLen) == [Break, p] + rest;
        LayoutFits(pieces, lineLength, i + 1, Len(p));
        BreakFits(p, rest, lineLength, lineLen);
      } else {
        var rest := Layout(pieces, lineLength, i + 1, lineLen + Len(p));
        assert Layout(pieces, lineLength, i, lineLen) == [p] + rest;
        LayoutFits(pieces, lineLength, i + 1, lineLen + Len(p));
        JoinFits(p, rest, lineLength, lineLen);
      }
    } else {
      assert RowsFit([], lineLength, lineLen);
    }
  }

  /** An entry that fits on the current line keeps the first row and the later rows within bounds. */
  lemma JoinFits(p: Tok, rest: seq<Tok>, lineLength: int, lineLen: int)
    requires p.Piece? && lineLen + Len(p) <= lineLength - 1
    requires RowsFit(rest, lineLength, lineLen + Len(p))
    ensures RowsFit([p] + rest, lineLength, lineLen)
  {
    var r := Rows(rest);
    RowsOfPiece(p, rest);
    LaterRowsNewFirst([p] + r[0], r, lineLength);
    if r[0] == [] {
      assert Width(r[0]) == 0;
    }
  }

  /** An entry that starts a new line leaves an empty first row and keeps the later rows within bounds. */
  lemma BreakFits(p: Tok, rest: seq<Tok>, lineLength: int, lineLen: int)
    requires p.Piece?
    requires RowsFit(rest, lineLength, Len(p))
    ensures RowsFit([Break, p] + rest, lineLength, lineLen)
  {
    var r := Rows(rest);
    RowsOfPiece(p, rest);
    LaterRowsNewFirst([p] + r[0], r, lineLength);
    RowsOfBreak(p, rest);
    LaterRowsShifted(Rows([p] + rest), lineLength);
  }

  /** The pieces of a token list, in order, breaks dropped. */
  function Pieces(toks: seq<Tok>): seq<Tok> {
    if toks == [] then []
    else (if toks[0].Piece? then [toks[0]] else []) + Pieces(toks[1..])
  }

  /** Every token is a piece. */
  predicate AllPieces(toks: seq<Tok>) {
    forall k :: 0 <= k < |toks| ==> toks[k].Piece?
  }

  /** Nothing is lost or reordered: dropping the breaks gives back the pieces from `i` on. */
  lemma {:induction false} LayoutPieces(pieces: seq<Tok>, lineLength: int, i: nat, lineLen: int)
    requires i <= |pieces| && AllPieces(pieces)
    ensures Pieces(Layout(pieces, lineLength, i, lineLen)) == pieces[i..]
    decreases |pieces| - i
  {
    if i < |pieces| {
      var p := pieces[i];
      var next := if lineLen + Len(p) > lineLength - 1 then Len(p) else lineLen + Len(p);
      LayoutPieces(pieces, lineLength, i + 1, next);
      var rest := Layout(pieces, lineLength, i + 1, next);
      var tail := [p] + rest;
      assert tail[0] == p && tail[1..] == rest;
      assert Pieces(tail) == [p] + pieces[i + 1..];
      if lineLen + Len(p) > lineLength - 1 {
        var toks := [Break] + tail;
        assert toks[0] == Break && toks[1..] == tail;
      }
      assert pieces[i..] == [p] + pieces[i + 1..];
    } else {
      assert pieces[i..] == [];
    }
  }

  /** The layout adds only breaks, so it keeps the pieces balanced and free of newlines. */
  lemma {:induction false} LayoutClean(pieces: seq<Tok>, lineLength: int, i: nat, lineLen: int)
    requires Balanced(pieces) && NoNewlines(pieces)
    ensures Balanced(Layout(pieces, lineLength, i, lineLen)) && NoNewlines(Layout(pieces, lineLength, i, lineLen))
    decreases |pieces| - i
  {
    if i < |pieces| {
      var p := pieces[i];
      var broken := lineLen + Len(p) > lineLength - 1;
      var next := if broken then Len(p) else lineLen + Len(p);
      LayoutClean(pieces, lineLength, i + 1, next);
      var rest := Layout(pieces, lineLength, i + 1, next);
      var head := if broken then [Break, p] else [p];
      var toks := head + rest;
      forall m | 0 <= m < |toks| && toks[m].Piece?
        ensures |toks[m].top| == |toks[m].bottom| && '\n' !in toks[m].top && '\n' !in toks[m].bottom
      {
        if m >= |head| {
          assert toks[m] == rest[m - |head|];
        }
      }
    }
  }

  /** No header text from tab `i` on holds a newline. */
  predicate PlainHeaders(tabs: seq<NTab>, i: nat) {
    forall k :: i <= k < |tabs| && tabs[k].selector.Some? ==> '\n' !in tabs[k].selector.value && '\n' !in Description(tabs[k])
  }

  /** Every piece is as wide on the bottom line as on the top line. */
  predicate Balanced(toks: seq<Tok>) {
    forall k :: 0 <= k < |toks| && toks[k].Piece? ==> |toks[k].top| == |toks[k].bottom|
  }

  /** A tab's piece is balanced, and free of newlines when its header texts are. */
  lemma PieceShape(tabs: seq<NTab>, current: int, j: nat)
    requires j < |tabs| && tabs[j].selector.Some?
    ensures |PieceOf(tabs, current, j).top| == |PieceOf(tabs, current, j).bottom|
    ensures PlainHeaders(tabs, j) ==> '\n' !in PieceOf(tabs, current, j).top && '\n' !in PieceOf(tabs, current, j).bottom
  {
    var e := TabEntry(tabs, j);
    TopEntryShape(j, |tabs|, tabs[j].selector.value, Description(tabs[j]));
    var u := Underline(e, j == current);
    forall k | 0 <= k < |u|
      ensures u[k] != '\n'
    {
      if k > 0 {
        assert u[k] == Times(if j == current then '=' else '-', |e| - 1)[k - 1];
      }
    }
  }

  /** The tabs' pieces are all pieces, balanced, and free of newlines when the header texts are. */
  lemma {:induction false} PiecesFromShape(tabs: seq<NTab>, current: int, i: nat)
    ensures AllPieces(PiecesFrom(tabs, current, i)) && Balanced(PiecesFrom(tabs, current, i))
    ensures PlainHeaders(tabs, i) ==> NoNewlines(PiecesFrom(tabs, current, i))
    decreases |tabs| - i
  {
    if i < |tabs| && tabs[i].selector.Some? {
      PiecesFromShape(tabs, current, i + 1);
      PieceShape(tabs, current, i);
      var ps := PiecesFrom(tabs, current, i);
      var rest := PiecesFrom(tabs, current, i + 1);
      forall k | 0 < k < |ps|
        ensures ps[k] == rest[k - 1]
      {
      }
    }
  }

  /**
   * `_format_headers(tabs, current_tab_number, line_length)`: KeyError
   * exactly when some tab has no `tab_header_input`, and otherwise pairs of
   * lines, a line of entries over a line of underlines.
   */
  function HeaderLines(tabs: seq<NTab>, current: int, lineLength: int): (r: Result<seq<string>>)
    ensures r.Ok? <==> forall k :: 0 <= k < |tabs| ==> tabs[k].selector.Some?
    ensures r.Err? ==> r.error == MissingKey("tab_header_input")
  {
    PiecesFromAll(tabs, current, 0);
    var pieces := PiecesFrom(tabs, current, 0);
    if |pieces| < |tabs| then Err(MissingKey("tab_header_input"))
    else
      var toks := Layout(pieces, lineLength, 0, 0);
      Ok(Interleave(Split(Text(toks, false)), Split(Text(toks, true))))
  }

  /**
   * The headers fail exactly when a tab has no `tab_header_input`; otherwise
   * the laid-out entries are every tab's, in order, each over its own
   * segment, `=` under tab `current` only.
   */
  lemma HeaderLinesPieces(tabs: seq<NTab>, current: int, lineLength: int)
    ensures HeaderLines(tabs, current, lineLength).Ok? <==> forall k :: 0 <= k < |tabs| ==> tabs[k].selector.Some?
    ensures HeaderLines(tabs, current, lineLength).Ok? ==>
      var ps := Pieces(Layout(PiecesFrom(tabs, current, 0), lineLength, 0, 0));
      && |ps| == |tabs|
      && forall k :: 0 <= k < |tabs| ==>
           tabs[k].selector.Some? && ps[k] == Piece(TabEntry(tabs, k), Underline(TabEntry(tabs, k), k == current))
  {
    PiecesFromAll(tabs, current, 0);
    var pieces := PiecesFrom(tabs, current, 0);
    if |pieces| == |tabs| {
      PiecesFromShape(tabs, current, 0);
      LayoutPieces(pieces, lineLength, 0, 0);
      assert pieces[0..] == pieces;
    }
  }

  /**
   * Each row holding two entries or more fits in `lineLength - 1`
   * characters, and so does the first row whatever it holds.
   */
  lemma HeaderLinesWidths(tabs: seq<NTab>, current: int, lineLength: int)
    ensures var rows := Rows(Layout(PiecesFrom(tabs, current, 0), lineLength, 0, 0));
      && (rows[0] != [] ==> Width(rows[0]) <= lineLength - 1)
      && forall k :: 0 <= k < |rows| && |rows[k]| >= 2 ==> Width(rows[k]) <= lineLength - 1
  {
    PiecesFromShape(tabs, current, 0);
    LayoutWidths(PiecesFrom(tabs, current, 0), lineLength, 0, 0);
  }

  /**
   * With no newline in any header text, the lines are the rows in pairs: each
   * row's entries, then its underline, of the same length; there is one pair
   * per row, so the count is even.
   */
  lemma HeaderLinesRows(tabs: seq<NTab>, current: int, lineLength: int)
    requires HeaderLines(tabs, current, lineLength).Ok? && PlainHeaders(tabs, 0)
    ensures var lines := HeaderLines(tabs, current, lineLength).value;
      var rows := Rows(Layout(PiecesFrom(tabs, current, 0), lineLength, 0, 0));
      && |lines| == 2 * |rows|
      && forall k :: 0 <= k < |rows| ==>
           lines[2 * k] == RowText(rows[k], false) && lines[2 * k + 1] == RowText(rows[k], true)
           && |lines[2 * k]| == |lines[2 * k + 1]|
  {
    var pieces := PiecesFrom(tabs, current, 0);
    var toks := Layout(pieces, lineLength, 0, 0);
    PiecesFromShape(tabs, current, 0);
    LayoutClean(pieces, lineLength, 0, 0);
    SplitText(toks, false);
    SplitText(toks, true);
    var lines := HeaderLines(tabs, current, lineLength).value;
    forall k | 0 <= k < |Rows(toks)|
      ensures lines[2 * k] == RowText(Rows(toks)[k], false) && lines[2 * k + 1] == RowText(Rows(toks)[k], true)
      ensures |RowText(Rows(toks)[k], false)| == |RowText(Rows(toks)[k], true)|
    {
      assert (2 * k) / 2 == k && (2 * k + 1) / 2 == k && (2 * k + 1) % 2 == 1;
      RowsBalanced(toks, k);
      EvenRow(Rows(toks)[k]);
    }
  }

  /** The rows of a balanced token list are balanced. */
  lemma {:induction false} RowsBalanced(toks: seq<Tok>, k: nat)
    requires Balanced(toks) && k < |Rows(toks)|
    ensures Balanced(Rows(toks)[k])
  {
    if toks != [] {
      var tail := toks[1..];
      assert Balanced(tail) by {
        forall m | 0 <= m < |tail| && tail[m].Piece?
          ensures |tail[m].top| == |tail[m].bottom|
        {
          assert tail[m] == toks[m + 1];
        }
      }
      if toks[0].Break? {
        if k > 0 {
          RowsBalanced(tail, k - 1);
        }
      } else if k == 0 {
        RowsBalanced(tail, 0);
        var row := Rows(toks)[0];
        forall m | 0 <= m < |row| && row[m].Piece?
          ensures |row[m].top| == |row[m].bottom|
        {
          if m > 0 {
            assert row[m] == Rows(tail)[0][m - 1];
          }
        }
      } else {
        RowsBalanced(tail, k);
      }
    }
  }

  /** A row of balanced pieces has top and bottom text of equal length. */
  lemma {:induction false} EvenRow(row: seq<Tok>)
    requires Balanced(row)
    ensures |RowText(row, false)| == |RowText(row, true)|
  {
    if row != [] {
      assert forall m :: 0 <= m < |row[1..]| ==> row[1..][m] == row[m + 1];
      EvenRow(row[1..]);
    }
  }

  // ---------------------------------------------------------------------
  // `format_menu`

  /** `"[{0}{1}] {2}".format(choice, spacer, description)`. */
  function ItemLine(choice: string, desc: string, width: int): string {
    "[" + choice + Times(' ', width - |choice|) + "] " + desc
  }

  /** With `width` at least the choice's length, the closing bracket sits at column `width + 1`. */
  lemma ItemLineAligned(choice: string, desc: string, width: int)
    requires |choice| <= width
    ensures var l := ItemLine(choice, desc, width);
      && |l| == width + 3 + |desc|
      && l[0] == '[' && l[1..1 + |choice|] == choice
      && (forall k :: 1 + |choice| <= k < 1 + width ==> l[k] == ' ')
      && l[width + 1] == ']' && l[width + 3..] == desc
  {
    var l := ItemLine(choice, desc, width);
    var pad := Times(' ', width - |choice|);
    assert l == "[" + choice + pad + "] " + desc;
    assert ("[" + choice + pad)[1..1 + |choice|] == choice;
    assert l[width + 3..] == desc;
  }

  /** `max(max_choice_len, len(item["item_choice_displayed"]))` over items `j` onwards. */
  function MaxChoiceFrom(items: seq<NItem>, j: nat, acc: nat): (r: Result<nat>)
    decreases |items| - j
  {
    if j >= |items| then Ok(acc)
    else if items[j].choice.None? then Err(MissingKey("item_choice_displayed"))
    else MaxChoiceFrom(items, j + 1, if |items[j].choice.value| > acc then |items[j].choice.value| else acc)
  }

  /** The maximum is the largest choice length (or the start value), and it fails exactly when a choice is missing. */
  lemma {:induction false} MaxChoiceMeaning(items: seq<NItem>, j: nat, acc: nat)
    requires j <= |items|
    ensures MaxChoiceFrom(items, j, acc).Ok? <==> forall k :: j <= k < |items| ==> items[k].choice.Some?
    ensures MaxChoiceFrom(items, j, acc).Ok? ==>
      var w := MaxChoiceFrom(items, j, acc).value;
      && acc <= w
      && (forall k :: j <= k < |items| ==> |items[k].choice.value| <= w)
      && (w == acc || exists k :: j <= k < |items| && |items[k].choice.value| == w)
    decreases |items| - j
  {
    if j < |items| && items[j].choice.Some? {
      MaxChoiceMeaning(items, j + 1, if |items[j].choice.value| > acc then |items[j].choice.value| else acc);
    }
  }

  /** The item lines from item `j` on; a missing description raises KeyError. */
  function ItemLinesFrom(items: seq<NItem>, width: nat, j: nat): (r: Result<seq<string>>)
    decreases |items| - j
  {
    if j >= |items| then Ok([])
    else if items[j].choice.None? then Err(MissingKey("item_choice_displayed"))
    else if items[j].desc.None? then Err(MissingKey("item_description"))
    else Prepend([ItemLine(items[j].choice.value, items[j].desc.value, width)], ItemLinesFrom(items, width, j + 1))
  }

  lemma {:induction false} ItemLinesMeaning(items: seq<NItem>, width: nat, j: nat)
    requires j <= |items|
    ensures ItemLinesFrom(items, width, j).Ok? <==> forall k :: j <= k < |items| ==> items[k].choice.Some? && items[k].desc.Some?
    ensures ItemLinesFrom(items, width, j).Ok? ==>
      var ls := ItemLinesFrom(items, width, j).value;
      && |ls| == |items| - j
      && forall k :: j <= k < |items| ==> ls[k - j] == ItemLine(items[k].choice.value, items[k].desc.value, width)
    decreases |items| - j
  {
    if j < |items| && items[j].choice.Some? && items[j].desc.Some? {
      ItemLinesMeaning(items, width, j + 1);
      var line := ItemLine(items[j].choice.value, items[j].desc.value, width);
      var rest := ItemLinesFrom(items, width, j + 1);
      assert ItemLinesFrom(items, width, j) == Prepend([line], rest);
      if rest.Ok? {
        var ls := [line] + rest.value;
        forall k | j < k < |items|
          ensures ls[k - j] == ItemLine(items[k].choice.value, items[k].desc.value, width)
        {
          assert ls[k - j] == rest.value[k - (j + 1)];
        }
      }
    }
  }

  /**
   * The lines `format_menu` joins: they need a tab at `current` (negative
   * positions counting from the end) that has items, and every tab headed
   * when there are several.
   */
  function MenuLines(tabs: seq<NTab>, current: int, lineLength: int, message: Option<string>): (r: Result<seq<string>>)
    ensures r.Ok? ==> IndexOk(|tabs|, current) && tabs[Wrap(|tabs|, current)].items.Some?
    ensures r.Ok? && |tabs| > 1 ==> forall k :: 0 <= k < |tabs| ==> tabs[k].selector.Some?
  {
    var headers :- if |tabs| > 1 then HeaderLines(tabs, current, lineLength) else Ok([]);
    var tab :- PyIndex(tabs, current);
    if tab.items.None? then Err(MissingKey("items"))
    else
      var width :- MaxChoiceFrom(tab.items.value, 0, 0);
      var lines :- ItemLinesFrom(tab.items.value, width, 0);
      Ok([""] + headers + lines + (if message.Some? then [message.value] else []))
  }

  /**
   * A formatted menu opens with an empty line, has header lines exactly when
   * there are several tabs, then one line per item of the current tab, and
   * the message last when there is one.
   */
  lemma MenuLinesShape(tabs: seq<NTab>, current: int, lineLength: int, message: Option<string>)
    requires MenuLines(tabs, current, lineLength, message).Ok?
    ensures var ls := MenuLines(tabs, current, lineLength, message).value;
      var tab := tabs[Wrap(|tabs|, current)];
      var h := if |tabs| > 1 then |HeaderLines(tabs, current, lineLength).value| else 0;
      && IndexOk(|tabs|, current) && tab.items.Some?
      && (|tabs| > 1 <==> h > 0)
      && |ls| == 1 + h + |tab.items.value| + (if message.Some? then 1 else 0)
      && ls[0] == ""
      && (message.Some? ==> ls[|ls| - 1] == message.value)
  {
    MenuLinesParts(tabs, current, lineLength, message);
    var items := tabs[Wrap(|tabs|, current)].items.value;
    ItemLinesMeaning(items, MaxChoiceFrom(items, 0, 0).value, 0);
    if |tabs| > 1 {
      assert |HeaderLines(tabs, current, lineLength).value| >= 2;
    }
  }

  /**
   * From line `at` on, the menu holds one line per item, in order, each the
   * item's `[choice]` padded to `w` with `]` in column `w + 1`.
   */
  predicate ItemsPlaced(ls: seq<string>, at: nat, items: seq<NItem>, w: nat) {
    && at + |items| <= |ls|
    && forall k :: 0 <= k < |items| ==> ItemPlaced(ls, at, items, w, k)
  }

  /** Item `k` is on line `at + k`, as `[choice]` padded to `w` with `]` in column `w + 1`. */
  predicate ItemPlaced(ls: seq<string>, at: nat, items: seq<NItem>, w: nat, k: nat)
    requires at + |items| <= |ls| && k < |items|
  {
    && items[k].choice.Some? && items[k].desc.Some? && |items[k].choice.value| <= w
    && ls[at + k] == ItemLine(items[k].choice.value, items[k].desc.value, w)
    && |ls[at + k]| > w + 1 && ls[at + k][w + 1] == ']'
  }

  /**
   * After the headers come the current tab's items, in order, each as
   * `[choice]` padded to the longest choice, so every `]` is in the same
   * column.
   */
  lemma MenuLinesItems(tabs: seq<NTab>, current: int, lineLength: int, message: Option<string>)
    requires MenuLines(tabs, current, lineLength, message).Ok?
    ensures IndexOk(|tabs|, current) && tabs[Wrap(|tabs|, current)].items.Some?
    ensures var ls := MenuLines(tabs, current, lineLength, message).value;
      var items := tabs[Wrap(|tabs|, current)].items.value;
      var h := if |tabs| > 1 then |HeaderLines(tabs, current, lineLength).value| else 0;
      var w := MaxChoiceFrom(items, 0, 0).value;
      && MaxChoiceFrom(items, 0, 0).Ok?
      && ItemsPlaced(ls, 1 + h, items, w)
  {
    MenuLinesParts(tabs, current, lineLength, message);
    var items := tabs[Wrap(|tabs|, current)].items.value;
    MaxChoiceMeaning(items, 0, 0);
    var w := MaxChoiceFrom(items, 0, 0).value;
    ItemLinesMeaning(items, w, 0);
    var headers := if |tabs| > 1 then HeaderLines(tabs, current, lineLength).value else [];
    var h := if |tabs| > 1 then |HeaderLines(tabs, current, lineLength).value| else 0;
    assert |[""] + headers| == 1 + h;
    var lines := ItemLinesFrom(items, w, 0).value;
    var tail := if message.Some? then [message.value] else [];
    assert MenuLines(tabs, current, lineLength, message).value == ([""] + headers) + lines + tail;
    ItemsPlacedAfter([""] + headers, lines, tail, items, w);
  }

  /** Item lines placed between a prefix and a tail start right after the prefix. */
  lemma ItemsPlacedAfter(pre: seq<string>, lines: seq<string>, tail: seq<string>, items: seq<NItem>, w: nat)
    requires |lines| == |items|
    requires forall k :: 0 <= k < |items| ==> items[k].choice.Some? && items[k].desc.Some?
    requires forall k :: 0 <= k < |items| ==> |items[k].choice.value| <= w
    requires forall k :: 0 <= k < |items| ==> lines[k - 0] == ItemLine(items[k].choice.value, items[k].desc.value, w)
    ensures ItemsPlaced(pre + lines + tail, |pre|, items, w)
  {
    var ls := pre + lines + tail;
    forall k | 0 <= k < |items|
      ensures ItemPlaced(ls, |pre|, items, w, k)
    {
      IndexMiddle(pre, lines, tail, k);
      ItemLineAligned(items[k].choice.value, items[k].desc.value, w);
    }
  }

  lemma IndexMiddle<T>(a: seq<T>, b: seq<T>, c: seq<T>, k: nat)
    requires k < |b|
    ensures (a + b + c)[|a| + k] == b[k]
  {
  }

  /** The four parts a successful `format_menu` joins, each stage having succeeded. */
  lemma MenuLinesParts(tabs: seq<NTab>, current: int, lineLength: int, message: Option<string>)
    requires MenuLines(tabs, current, lineLength, message).Ok?
    ensures |tabs| > 1 ==> HeaderLines(tabs, current, lineLength).Ok?
    ensures IndexOk(|tabs|, current) && tabs[Wrap(|tabs|, current)].items.Some?
    ensures var items := tabs[Wrap(|tabs|, current)].items.value;
      && MaxChoiceFrom(items, 0, 0).Ok?
      && ItemLinesFrom(items, MaxChoiceFrom(items, 0, 0).value, 0).Ok?
      && MenuLines(tabs, current, lineLength, message).value
         == [""] + (if |tabs| > 1 then HeaderLines(tabs, current, lineLength).value else [])
            + ItemLinesFrom(items, MaxChoiceFrom(items, 0, 0).value, 0).value
            + (if message.Some? then [message.value] else [])
  {
  }

  // ---------------------------------------------------------------------
  // The methods

  /** `"".join(parts)`, built one part at a time. */
  function Concat(parts: seq<string>): string {
    if parts == [] then "" else Concat(parts[..|parts| - 1]) + parts[|parts| - 1]
  }

  /** A turn of the layout loop that finds the line full: a break, then the piece on a fresh line. */
  lemma AdvanceBroken(pieces: seq<Tok>, lineLength: int, i: nat, lineLen: int, done: seq<Tok>)
    requires i < |pieces| && lineLen + Len(pieces[i]) > lineLength - 1
    ensures done + Layout(pieces, lineLength, i, lineLen)
      == ((done + [Break]) + [pieces[i]]) + Layout(pieces, lineLength, i + 1, 0 + Len(pieces[i]))
  {
    assert done + ([Break, pieces[i]] + Layout(pieces, lineLength, i + 1, Len(pieces[i])))
      == ((done + [Break]) + [pieces[i]]) + Layout(pieces, lineLength, i + 1, Len(pieces[i]));
  }

  /** A turn of the layout loop that adds the piece to the current line. */
  lemma AdvanceOnLine(pieces: seq<Tok>, lineLength: int, i: nat, lineLen: int, done: seq<Tok>)
    requires i < |pieces| && lineLen + Len(pieces[i]) <= lineLength - 1
    ensures done + Layout(pieces, lineLength, i, lineLen)
      == (done + [pieces[i]]) + Layout(pieces, lineLength, i + 1, lineLen + Len(pieces[i]))
  {
    assert done + ([pieces[i]] + Layout(pieces, lineLength, i + 1, lineLen + Len(pieces[i])))
      == (done + [pieces[i]]) + Layout(pieces, lineLength, i + 1, lineLen + Len(pieces[i]));
  }

  /** Appending a token's text to the parts keeps them equal to the joined tokens. */
  lemma Extend(parts: seq<string>, done: seq<Tok>, tok: Tok, bottom: bool)
    requires Concat(parts) == Text(done, bottom)
    ensures Concat(parts + [Show(tok, bottom)]) == Text(done + [tok], bottom)
  {
    assert (parts + [Show(tok, bottom)])[..|parts|] == parts;
    TextAppend(done, [tok], bottom);
    assert Text([tok], bottom) == Show(tok, bottom) + "";
  }

  /** `_format_headers`: the entry loop, then the split and the pairing. */
  method FormatHeaders(tabs: seq<NTab>, current: int, lineLength: int) returns (r: Result<seq<string>>)
    ensures r == HeaderLines(tabs, current, lineLength)
  {
    var texts := HeaderTexts(tabs, current, lineLength);
    if texts.Err? {
      return Err(texts.error);
    }
    var (topText, bottomText) := texts.value;
    var tops := Split(Concat(topText));
    var bottoms := Split(Concat(bottomText));
    var totalText := PairLines(tops, bottoms);
    return Ok(totalText);
  }

  /**
   * The layout after the first `n` pieces, built left to right the way the
   * entry loop builds it, with the width of the line it ends on.
   */
  function LayoutUpTo(pieces: seq<Tok>, lineLength: int, n: nat): (seq<Tok>, int)
    requires n <= |pieces|
  {
    if n == 0 then ([], 0)
    else
      var (toks, lineLen) := LayoutUpTo(pieces, lineLength, n - 1);
      var p := pieces[n - 1];
      if lineLen + Len(p) > lineLength - 1 then ((toks + [Break]) + [p], Len(p))
      else (toks + [p], lineLen + Len(p))
  }

  /** The left-to-right build and the recursive layout agree: what is built so far, followed by the rest laid out from there, is the whole layout. */
  lemma {:induction false} LayoutUpToSplits(pieces: seq<Tok>, lineLength: int, n: nat)
    requires n <= |pieces|
    ensures LayoutUpTo(pieces, lineLength, n).0 + Layout(pieces, lineLength, n, LayoutUpTo(pieces, lineLength, n).1)
      == Layout(pieces, lineLength, 0, 0)
  {
    if n == 0 {
      assert [] + Layout(pieces, lineLength, 0, 0) == Layout(pieces, lineLength, 0, 0);
    } else {
      LayoutUpToSplits(pieces, lineLength, n - 1);
      var (toks, lineLen) := LayoutUpTo(pieces, lineLength, n - 1);
      if lineLen + Len(pieces[n - 1]) > lineLength - 1 {
        assert LayoutUpTo(pieces, lineLength, n) == ((toks + [Break]) + [pieces[n - 1]], Len(pieces[n - 1]));
        AdvanceBroken(pieces, lineLength, n - 1, lineLen, toks);
      } else {
        assert LayoutUpTo(pieces, lineLength, n) == (toks + [pieces[n - 1]], lineLen + Len(pieces[n - 1]));
        AdvanceOnLine(pieces, lineLength, n - 1, lineLen, toks);
      }
    }
  }

  lemma LayoutUpToAll(pieces: seq<Tok>, lineLength: int)
    ensures LayoutUpTo(pieces, lineLength, |pieces|).0 == Layout(pieces, lineLength, 0, 0)
  {
    LayoutUpToSplits(pieces, lineLength, |pieces|);
    assert LayoutUpTo(pieces, lineLength, |pieces|).0 + [] == LayoutUpTo(pieces, lineLength, |pieces|).0;
  }

  /** The entry loop of `_format_headers`: the `top_text` and `bottom_text` lists it builds. */
  method HeaderTexts(tabs: seq<NTab>, current: int, lineLength: int) returns (r: Result<(seq<string>, seq<string>)>)
    ensures r.Err? <==> |PiecesFrom(tabs, current, 0)| < |tabs|
    ensures r.Err? ==> r.error == MissingKey("tab_header_input")
    ensures r.Ok? ==>
      && Concat(r.value.0) == Text(Layout(PiecesFrom(tabs, current, 0), lineLength, 0, 0), false)
      && Concat(r.value.1) == Text(Layout(PiecesFrom(tabs, current, 0), lineLength, 0, 0), true)
  {
    var currentLineLength := 0;
    var topText: seq<string> := [];
    var bottomText: seq<string> := [];
    ghost var pieces := PiecesFrom(tabs, current, 0);
    ghost var done: seq<Tok> := [];
    assert pieces[0..] == pieces;
    var i := 0;
    while i < |tabs|
      invariant i <= |pieces| <= |tabs| && pieces[i..] == PiecesFrom(tabs, current, i)
      invariant done == LayoutUpTo(pieces, lineLength, i).0 && currentLineLength == LayoutUpTo(pieces, lineLength, i).1
      invariant Concat(topText) == Text(done, false) && Concat(bottomText) == Text(done, true)
    {
      if tabs[i].selector.None? {
        return Err(MissingKey("tab_header_input"));
      }
      var abbreviation := tabs[i].selector.value;
      var description := Description(tabs[i]);
      var newTopEntry := TopEntry(i, |tabs|, abbreviation, description);
      var newBottomEntry := Underline(newTopEntry, i == current);
      ghost var piece := Piece(newTopEntry, newBottomEntry);
      PiecesStep(tabs, current, i, pieces);
      assert pieces[i] == piece && Len(piece) == |newTopEntry|;
      if currentLineLength + |newTopEntry| > lineLength - 1 {
        Extend(topText, done, Break, false);
        Extend(bottomText, done, Break, true);
        topText := topText + ["\n"];
        bottomText := bottomText + ["\n"];
        done := done + [Break];
        currentLineLength := 0;
      }
      Extend(topText, done, piece, false);
      Extend(bottomText, done, piece, true);
      topText := topText + [newTopEntry];
      bottomText := bottomText + [newBottomEntry];
      done := done + [piece];
      currentLineLength := currentLineLength + |newTopEntry|;
      i := i + 1;
    }
    assert i == |pieces|;
    LayoutUpToAll(pieces, lineLength);
    assert done == Layout(pieces, lineLength, 0, 0);
    return Ok((topText, bottomText));
  }

  /** One more tab with `tab_header_input`: its piece comes next. */
  lemma PiecesStep(tabs: seq<NTab>, current: int, i: nat, pieces: seq<Tok>)
    requires i < |tabs| && tabs[i].selector.Some? && i <= |pieces| && pieces[i..] == PiecesFrom(tabs, current, i)
    ensures i < |pieces| && pieces[i] == PieceOf(tabs, current, i)
    ensures pieces[i + 1..] == PiecesFrom(tabs, current, i + 1)
  {
    assert pieces[i..][0] == pieces[i];
    assert pieces[i..][1..] == pieces[i + 1..];
  }

  /** The closing loop of `_format_headers` over `zip(top_lines, bottom_lines)`. */
  method PairLines(tops: seq<string>, bottoms: seq<string>) returns (totalText: seq<string>)
    ensures totalText == Interleave(tops, bottoms)
  {
    totalText := [];
    var k := 0;
    while k < |tops| && k < |bottoms|
      invariant k <= |tops| && k <= |bottoms| && |totalText| == 2 * k
      invariant forall j :: 0 <= j < 2 * k ==> totalText[j] == (if j % 2 == 0 then tops[j / 2] else bottoms[j / 2])
    {
      totalText := totalText + [tops[k], bottoms[k]];
      k := k + 1;
    }
  }

  /** The string `format_menu` returns: the lines joined with newlines. */
  function MenuText(tabs: seq<NTab>, current: int, lineLength: int, message: Option<string>): Result<string> {
    var ls :- MenuLines(tabs, current, lineLength, message);
    Ok(Join("\n", ls))
  }

  /** `format_menu(config, current_tab_number, line_length, message)`. */
  method FormatMenu(config: NConfig, current: int, lineLength: int, message: Option<string>) returns (r: Result<string>)
    ensures r == MenuText(config.tabs, current, lineLength, message)
  {
    var tabs := config.tabs;
    var menu := [""];
    if |tabs| > 1 {
      var headers := FormatHeaders(tabs, current, lineLength);
      if headers.Err? {
        return Err(headers.error);
      }
      menu := menu + headers.value;
    }
    assert menu == [""] + (if |tabs| > 1 then HeaderLines(tabs, current, lineLength).value else []);
    var currentTab := PyIndex(tabs, current);
    if currentTab.Err? {
      return Err(currentTab.error);
    }
    if currentTab.value.items.None? {
      return Err(MissingKey("items"));
    }
    var items := currentTab.value.items.value;
    var maxChoiceLen: nat := 0;
    var j := 0;
    while j < |items|
      invariant j <= |items| && MaxChoiceFrom(items, 0, 0) == MaxChoiceFrom(items, j, maxChoiceLen)
    {
      if items[j].choice.None? {
        return Err(MissingKey("item_choice_displayed"));
      }
      if |items[j].choice.value| > maxChoiceLen {
        maxChoiceLen := |items[j].choice.value|;
      }
      j := j + 1;
    }
    ghost var head := menu;
    j := 0;
    while j < |items|
      invariant j <= |items| && |menu| == |head| + j
      invariant Prepend(head, ItemLinesFrom(items, maxChoiceLen, 0)) == Prepend(menu, ItemLinesFrom(items, maxChoiceLen, j))
    {
      if items[j].choice.None? {
        return Err(MissingKey("item_choice_displayed"));
      }
      if items[j].desc.None? {
        return Err(MissingKey("item_description"));
      }
      var choice := items[j].choice.value;
      var description := items[j].desc.value;
      var spacer := Times(' ', maxChoiceLen - |choice|);
      PrependTwice(menu, [ItemLine(choice, description, maxChoiceLen)], ItemLinesFrom(items, maxChoiceLen, j + 1));
      menu := menu + ["[" + choice + spacer + "] " + description];
      j := j + 1;
    }
    assert ItemLinesFrom(items, maxChoiceLen, j) == Ok([]) && menu + [] == menu;
    assert Prepend(head, ItemLinesFrom(items, maxChoiceLen, 0)) == Ok(menu);
    if message.Some? {
      menu := menu + [message.value];
    }
    return Ok(Join("\n", menu));
  }
}
