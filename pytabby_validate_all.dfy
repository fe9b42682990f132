/**
 * `validate_all` of `pytabby` (src/pytabby/validators.py): run the schema
 * walk and both uniqueness checks, shorten the schema messages that quote
 * the whole configuration, and raise one `InvalidInputError` listing every
 * message, numbered from 1.
 */
module PytabbyValidateAll {
  import opened PyValue
  import opened PytabbyValidators
  import opened PytabbyOverlap

  // ---------------------------------------------------------------------
  // `re.sub(r"in \{.+\}$", "in config", message)`

  /**
   * The closing brace `\}$` can match: the last character, or the one
   * before a final newline (Python's `$` matches at both places).
   */
  function ClosingBrace(m: string): (r: Option<nat>)
    ensures r.Some? ==>
      && r.value < |m| && m[r.value] == '}'
      && (r.value == |m| - 1 || (r.value == |m| - 2 && m[|m| - 1] == '\n'))
    ensures r.None? ==> (|m| == 0 || m[|m| - 1] != '}') && (|m| < 2 || m[|m| - 1] != '\n' || m[|m| - 2] != '}')
  {
    if |m| >= 1 && m[|m| - 1] == '}' then Some(|m| - 1)
    else if |m| >= 2 && m[|m| - 1] == '\n' && m[|m| - 2] == '}' then Some(|m| - 2)
    else None
  }

  /** `in {.+}` matches from `p` to the brace at `q`: `.` takes at least one character and never a newline. */
  predicate MatchAt(m: string, p: nat, q: nat) {
    p + 4 < q < |m| && m[p..p + 4] == "in {" && m[q] == '}' && forall t :: p + 4 <= t < q ==> m[t] != '\n'
  }

  /** The leftmost start at or after `p` of a match ending at `q`, as `re.search` finds it. */
  function FirstMatch(m: string, q: nat, p: nat): (r: Option<nat>)
    ensures r.Some? ==> p <= r.value && MatchAt(m, r.value, q) && forall t :: p <= t < r.value ==> !MatchAt(m, t, q)
    ensures r.None? ==> forall t :: p <= t ==> !MatchAt(m, t, q)
    decreases q - p
  {
    if p + 4 >= q then None
    else if MatchAt(m, p, q) then Some(p)
    else FirstMatch(m, q, p + 1)
  }

  /**
   * `_shorten_long_schema_error_messages` on one message. A message that
   * does not end with a closing brace is kept; one that is changed ends
   * with `in config`, followed only by the final newline if it had one.
   */
  function Shorten(m: string): (r: string)
    ensures ClosingBrace(m).None? ==> r == m
    ensures r == m || (|r| >= 9 && r[|r| - 9..] == "in config") || (|r| >= 10 && r[|r| - 10..] == "in config\n")
  {
    match ClosingBrace(m)
    case None => m
    case Some(q) =>
      match FirstMatch(m, q, 0)
      case None => m
      case Some(p) =>
        var r := m[..p] + "in config" + m[q + 1..];
        if q == |m| - 1 then
          assert m[q + 1..] == [];
          assert r[|r| - 9..] == "in config";
          r
        else
          assert m[q + 1..] == ['\n'];
          assert r[|r| - 10..] == "in config\n";
          r
  }

  /** The leftmost match is replaced by `in config`; a final newline stays. */
  lemma ShortenRewrites(m: string, p: nat, q: nat)
    requires ClosingBrace(m) == Some(q) && MatchAt(m, p, q) && forall t: nat :: t < p ==> !MatchAt(m, t, q)
    ensures Shorten(m) == m[..p] + "in config" + m[q + 1..]
    ensures m[q + 1..] == "" || m[q + 1..] == "\n"
  {
    if q == |m| - 2 {
      assert m[q + 1..] == [m[|m| - 1]];
    }
  }

  /** A message changes exactly when the pattern matches it. */
  lemma ShortenChangesIff(m: string)
    ensures Shorten(m) != m <==> exists p: nat, q: nat :: ClosingBrace(m) == Some(q) && MatchAt(m, p, q)
  {
    match ClosingBrace(m)
    case None =>
    case Some(q) =>
      match FirstMatch(m, q, 0)
      case None =>
      case Some(p) =>
        var r := m[..p] + "in config" + m[q + 1..];
        assert r[p + 3] == 'c';
        assert m[p..p + 4][3] == '{';
  }

  /** Shortening twice is shortening once: the result ends with `in config`, which the pattern cannot match. */
  lemma ShortenIdempotent(m: string)
    ensures Shorten(Shorten(m)) == Shorten(m)
  {
    match ClosingBrace(m)
    case None =>
    case Some(q) =>
      match FirstMatch(m, q, 0)
      case None =>
      case Some(p) =>
        var r := m[..p] + "in config" + m[q + 1..];
        if q == |m| - 1 {
          assert m[q + 1..] == [];
          assert r[|r| - 1] == 'g';
        } else {
          assert m[q + 1..] == ['\n'];
          assert r[|r| - 1] == '\n' && r[|r| - 2] == 'g';
        }
        assert ClosingBrace(r).None?;
  }

  function ShortenAll(ms: seq<string>): (r: seq<string>)
    ensures |r| == |ms| && forall i :: 0 <= i < |ms| ==> r[i] == Shorten(ms[i])
  {
    seq(|ms|, i requires 0 <= i < |ms| => Shorten(ms[i]))
  }

  /** `_shorten_long_schema_error_messages`: rewrites every message of the list in turn. */
  method ShortenLongSchemaErrorMessages(msgs: seq<string>) returns (out: seq<string>)
    ensures out == ShortenAll(msgs)
  {
    out := msgs;
    var i := 0;
    while i < |out|
      invariant |out| == |msgs| && i <= |msgs|
      invariant forall k :: 0 <= k < i ==> out[k] == Shorten(msgs[k])
      invariant forall k :: i <= k < |msgs| ==> out[k] == msgs[k]
    {
      out := out[i := Shorten(out[i])];
      i := i + 1;
    }
  }

  // ---------------------------------------------------------------------
  // The report

  /** Every message the three checks append, in the order `validate_all` runs them. */
  function AllMessages(config: Value): Result<seq<string>> {
    var schema :- SchemaMessages(config);
    var inputs :- InputOverlapMessages(config);
    var rets :- ReturnOverlapMessages(config);
    Ok(schema + inputs + rets)
  }

  /** `"{0}. {1}".format(i + 1, message)` for each message. */
  function Numbered(ms: seq<string>): (r: seq<string>)
    ensures |r| == |ms| && forall i :: 0 <= i < |ms| ==> r[i] == IntToString(i + 1) + ". " + ms[i]
  {
    seq(|ms|, i requires 0 <= i < |ms| => IntToString(i + 1) + ". " + ms[i])
  }

  /** `"\n".join(["", "Errors:"] + numbered)`. */
  function ErrorReport(ms: seq<string>): string {
    Join("\n", ["", "Errors:"] + Numbered(ms))
  }

  /** Each part preceded by the separator. */
  function SeparatorLed(sep: string, parts: seq<string>): (r: string)
    ensures parts != [] ==> r == sep + parts[0] + SeparatorLed(sep, parts[1..])
  {
    if parts == [] then "" else sep + parts[0] + SeparatorLed(sep, parts[1..])
  }

  lemma {:induction false} JoinLeading(sep: string, parts: seq<string>)
    requires parts != []
    ensures Join(sep, parts) == parts[0] + SeparatorLed(sep, parts[1..])
    decreases |parts|
  {
    if |parts| == 1 {
      assert parts[1..] == [];
      assert parts[0] + "" == parts[0];
    } else {
      JoinLeading(sep, parts[1..]);
      assert parts[1..][1..] == parts[2..];
      var a, b, rest := parts[0], parts[1], SeparatorLed(sep, parts[2..]);
      assert a + sep + (b + rest) == a + (sep + b + rest);
    }
  }

  /**
   * The report is a blank line, `Errors:`, then one line per message
   * numbered from 1.
   */
  lemma ErrorReportShape(ms: seq<string>)
    ensures ErrorReport(ms) == "\nErrors:" + SeparatorLed("\n", Numbered(ms))
  {
    var parts := ["", "Errors:"] + Numbered(ms);
    JoinLeading("\n", parts);
    assert parts[1..] == ["Errors:"] + Numbered(ms);
    assert parts[1..][1..] == Numbered(ms);
    assert "" + ("\n" + "Errors:" + SeparatorLed("\n", Numbered(ms))) == "\nErrors:" + SeparatorLed("\n", Numbered(ms));
  }

  /**
   * What `validate_all` does: a configuration is accepted exactly when no
   * check raises and none has a message; otherwise a check's exception
   * propagates, or `InvalidInputError` is raised with a blank line,
   * `Errors:`, and one line per shortened message numbered from 1.
   */
  function ValidateAllOutcome(config: Value): (r: Result<()>)
    ensures r == Ok(()) <==> AllMessages(config) == Ok([])
    ensures AllMessages(config).Err? ==> r == Err(AllMessages(config).error)
    ensures r.Err? && AllMessages(config).Ok? ==>
      && r.error.cls == InvalidInputError
      && r.error.text == "\nErrors:" + SeparatorLed("\n", Numbered(ShortenAll(AllMessages(config).value)))
  {
    var msgs :- AllMessages(config);
    if msgs == [] then Ok(())
    else
      ErrorReportShape(ShortenAll(msgs));
      Err(Exc(InvalidInputError, ErrorReport(ShortenAll(msgs))))
  }

  lemma ChainMessages(config: Value, s: Result<seq<string>>, a: Result<seq<string>>, b: Result<seq<string>>)
    requires s == Prepend([], SchemaMessages(config))
    requires s.Ok? ==> a == Prepend(s.value, InputOverlapMessages(config))
    requires s.Ok? && a.Ok? ==> b == Prepend(a.value, ReturnOverlapMessages(config))
    ensures s.Err? ==> AllMessages(config) == s
    ensures s.Ok? && a.Err? ==> AllMessages(config) == a
    ensures s.Ok? && a.Ok? ==> AllMessages(config) == b
  {
    PrependNothing(SchemaMessages(config));
    if s.Ok? && a.Ok? {
      PrependTwice(SchemaMessages(config).value, InputOverlapMessages(config).value, ReturnOverlapMessages(config));
    }
  }

  /** The loop that numbers the messages, then the join. */
  method NumberedReport(msgs: seq<string>) returns (report: string)
    ensures report == ErrorReport(msgs)
  {
    var printed := ["", "Errors:"];
    var i := 0;
    while i < |msgs|
      invariant i <= |msgs| && |printed| == i + 2 && printed[..2] == ["", "Errors:"]
      invariant forall k :: 0 <= k < i ==> printed[k + 2] == IntToString(k + 1) + ". " + msgs[k]
    {
      printed := printed + [IntToString(i + 1) + ". " + msgs[i]];
      i := i + 1;
    }
    assert printed == ["", "Errors:"] + Numbered(msgs);
    report := Join("\n", printed);
  }

  /** `validate_all`. */
  method ValidateAll(config: Value) returns (r: Result<()>)
    ensures r == ValidateAllOutcome(config)
  {
    var s := ValidateSchema([], config);
    if s.Err? {
      ChainMessages(config, s, s, s);
      return Err(s.error);
    }
    var a := ValidateNoInputValueOverlap(s.value, config);
    if a.Err? {
      ChainMessages(config, s, a, a);
      return Err(a.error);
    }
    var b := ValidateNoReturnValueOverlap(a.value, config);
    ChainMessages(config, s, a, b);
    if b.Err? {
      return Err(b.error);
    }
    var msgs := b.value;
    if msgs != [] {
      msgs := ShortenLongSchemaErrorMessages(msgs);
      var report := NumberedReport(msgs);
      return Err(Exc(InvalidInputError, report));
    }
    return Ok(());
  }
}
