# pytabby in Dafny

A model of the core of pytabby, a library for tabbed menus in an interactive
shell, together with the two older packages kept in the same repository
(`tabbedshellmenus` and `pysimpletabshellmenu`). A menu is built from a
configuration dictionary (normally read from YAML or JSON). The configuration
holds either a list of `tabs`, each with a selector (`tab_header_input`) and
`items`, or just a top-level `items` list for a menu with one tab. Each item
has the text shown for it, the inputs that choose it and the value returned
when it is chosen. The model covers:

- the validators: the schemas, the layout decision, the schema walk with its
  error messages, the return-value and input-value overlap checks, the
  shortening of long messages and the numbered `InvalidInputError` report;
- the normalizers, which fold the one-tab layout into `tabs`, fill in the
  `case_sensitive` and `screen_width` defaults (`pytabby` only), turn every
  token into a string and lower-case the input fields when the configuration
  is not case sensitive;
- the tab lookup table of `tabbedshellmenus`;
- the menu objects of `tabbedshellmenus` and `pysimpletabshellmenu`, with
  their run loops over standard input;
- the formatting of the menu text in `pytabby` and `pysimpletabshellmenu`.

Python values are modelled by `PyValue.Value`: None, bool, int, str, list,
tuple, dict (an insertion-ordered list of string keys and values) and "some
other object". Python's truthiness, `str()`, `len()`, `dict.get` and iteration
are written out over it. Every exception the source raises is an `Err` of a
`Result`, carrying the exception class and its text. Standard input is a list
of lines held by the menu. What the menu prints is a list of events.

Source files:

| module | file |
|---|---|
| `PyValue` | the Python values, `str()`, `repr()` of a str, truthiness, dict lookup and iteration the source relies on |
| `PySorted` | `sorted()` on a list of ints or of strs, as `tabbedshellmenus` uses it in its overlap message |
| `Counter` | `collections.Counter` as `_count_for_overlap` uses it |
| `SchemaLib` | the dict and value schemas of the `schema` package, as the validators use them |
| `PytabbyValidators`, `PytabbyOverlap`, `PytabbyValidateAll` | `src/pytabby/validators.py` |
| `NormalizerCore`, `PytabbyNormalizer` | `src/pytabby/normalizer.py` |
| `LegacyNormalizer` | `src/tabbedshellmenus/normalizer.py` |
| `LegacySchema`, `LegacyOverlap` | `src/tabbedshellmenus/validators.py`, `src/pysimpletabshellmenu/validators.py` |
| `TabTable` | `src/tabbedshellmenus/tab.py` |
| `TabbedMenu` | `src/tabbedshellmenus/menu.py` |
| `PytabbyFormatting` | `src/pytabby/formatting.py` |
| `SimpleFormatting` | `src/pysimpletabshellmenu/formatting.py` |
| `SimpleMenu` | `src/pysimpletabshellmenu/menu.py` |
| `ValidatedTables` | what `validate_all` guarantees about the tables `tab.py` builds from the normalized configuration |
| `ValidatorGaps` | two accepted configurations whose tables are ambiguous |

What the validators promise the tab tables. `_validate_no_input_value_overlap`
exists so that every input of a tab either changes tab or returns one item's
value. `ValidatedTables.ValidatedInputsResolve` proves this of the `pytabby`
validators and normalizer feeding the `tabbedshellmenus` tab table, for a
configuration whose validator and normalizer see the same tokens
(`ValidatedTables.SameTokens`): either it is not case sensitive and every
`tab_header_input` is truthy, or every header and input is already a string.
Outside that condition the promise fails, and `ValidatorGaps` exhibits two
accepted configurations:

- a case-sensitive single tab whose items list the inputs `1` and `"1"`: the
  validator counts them as different, the normalizer turns both into `"1"`,
  and typing `1` returns the second item's value
  (`ValidatorGaps.CaseSensitiveCollision`);
- two tabs with the headers `0` and `"b"`, the first of which lists the input
  `"0"`: the validator skips the falsy header `0`, the normalizer turns it into
  the selector `"0"`, and in the first tab typing `0` returns the item's value
  instead of changing tab (`ValidatorGaps.FalsyHeaderCollision`).

## Model

| member | source | states |
|---|---|---|
| Counter.FirstUnhashable | src/pytabby/validators.py:287 | The first value Python cannot hash, found exactly when some element cannot be hashed (building the `Counter` raises TypeError on it). |
| Counter.Distinct | src/pytabby/validators.py:287 | The counter's keys come from the counted list. |
| Counter.DistinctNoDup | src/pytabby/validators.py:287 | No two keys of the counter are equal in Python's sense (`True == 1`). |
| Counter.DistinctCovers | src/pytabby/validators.py:287 | Every counted element has a key equal to it. |
| Counter.Tally | src/pytabby/validators.py:287 | The counter pairs each key with the number of elements equal to it. |
| Counter.OccZeroIff | src/pytabby/validators.py:287 | A value is counted zero times exactly when no element equals it. |
| Counter.InsertByCount | src/pytabby/validators.py:288 | One stable insertion step of `most_common()`: the entries plus the new one, as a multiset. |
| Counter.InsertByCountSorted | src/pytabby/validators.py:288 | Insertion keeps the counts in descending order. |
| Counter.MostCommon | src/pytabby/validators.py:288 | `most_common()` is a permutation of the counter's entries. |
| Counter.MostCommonSorted | src/pytabby/validators.py:288 | `most_common()` lists the counts largest first. |
| Counter.MostCommonDistinct | src/pytabby/validators.py:288 | Sorting keeps the keys pairwise different. |
| Counter.KeepRepeated | src/pytabby/validators.py:288 | The filter keeps exactly the entries counted more than once. |
| Counter.KeepRepeatedSorted | src/pytabby/validators.py:288 | The filter keeps the descending order. |
| Counter.CountForOverlap | src/pytabby/validators.py:285-289 | `_count_for_overlap` raises TypeError exactly when some element cannot be hashed. |
| Counter.OccAtLeastTwo | src/pytabby/validators.py:287-288 | Two equal elements at different positions give a count of at least two. |
| Counter.OccAtMostOne | src/pytabby/validators.py:287-288 | Without duplicates every count is at most one. |
| Counter.RepeatedEntries | src/pytabby/validators.py:288 | Every reported entry is a counted value with its exact count, which is above one. |
| Counter.RepeatedComplete | src/pytabby/validators.py:288 | Every value occurring more than once is reported. |
| Counter.RepeatedOrdered | src/pytabby/validators.py:288 | The report is most frequent first, with each value once. |
| Counter.RepeatedEmptyIff | src/pytabby/validators.py:288 | The report is empty exactly when no two elements are equal. |
| Counter.CountForOverlapMeaning | src/pytabby/validators.py:285-289 | On hashable input `_count_for_overlap` returns exactly the repeated values, each once with its count, most frequent first, and is empty exactly when there is no duplicate. |
| SchemaLib.Validate | src/pytabby/validators.py:139-141 | `schema_.validate` succeeds on a dict schema exactly when the dict conforms to its keys, and on a value schema exactly when the value passes the check; what it raises is one of the schema error classes. |
| SchemaLib.MissingNoneIff | src/pytabby/validators.py:139-141 | No required key is reported missing exactly when every required key is present. |
| SchemaLib.WrongNoneIff | src/pytabby/validators.py:139-141 | No key is reported wrong exactly when the schema names every key of the data. |
| SchemaLib.ConformsByParts | src/pytabby/validators.py:139-141 | Conformance is the conjunction of the three stages of dict validation: the values, the missing keys, the wrong keys. |
| PytabbyValidators.FieldPredicates | src/pytabby/validators.py:59-107 | What each field schema of `_ValidSchemas` accepts: a non-empty token, optional text, a positive int, a non-empty list or tuple, a bool. |
| PytabbyValidators.SingleTabForbidsHeaders | src/pytabby/validators.py:87-94 | A sole tab under `tabs` fails its schema when it has any of the three header keys. |
| PytabbyValidators.DetermineLayout | src/pytabby/validators.py:151-172 | The layout: without `tabs` it is single-without-key, with more than one tab multiple, otherwise single-with-key; a non-dict raises AttributeError and an unsized `tabs` TypeError. |
| PytabbyValidators.ReplaceAllRemovesChar | src/pytabby/validators.py:143 | `replace("\n", " ")` leaves no line break and keeps the length. |
| PytabbyValidators.ErrorLine | src/pytabby/validators.py:110-123 | The caught exception's line: its class name, `": "`, then its whole text on one line. |
| PytabbyValidators.NodeMessage | src/pytabby/validators.py:139-146 | A node has a message exactly when it fails its schema, made of the failure's class name and its text on one line. |
| PytabbyValidators.SchemaPart | src/pytabby/validators.py:126-148 | `_validate_schema_part` appends at most one message. |
| PytabbyValidators.SchemaPartMeaning | src/pytabby/validators.py:126-148 | It appends nothing exactly when the node conforms, and otherwise the prefix followed by the node's message. |
| PytabbyValidators.CheckEntries | src/pytabby/validators.py:190-192 | The loop over one item's inputs appends the rendered reports of the failing entries, in order. |
| PytabbyValidators.CheckItems | src/pytabby/validators.py:186-194 | The loop over a tab's items appends each failing item's and entry's message in order, and stops exactly when iterating an item's inputs raises. |
| PytabbyValidators.ValidateSchemaMultiple | src/pytabby/validators.py:175-195 | `_validate_schema_multiple` appends the rendering of the walk over the outer dict, every tab, its items and their inputs. |
| PytabbyValidators.ValidateSchemaSingleWithKey | src/pytabby/validators.py:198-219 | `_validate_schema_single_with_key` appends the rendering of the walk over the outer dict, the sole tab and its items. |
| PytabbyValidators.ValidateSchemaSingleWithoutKey | src/pytabby/validators.py:222-236 | `_validate_schema_single_without_key` appends the rendering of the walk over the outer dict and the top-level items. |
| PytabbyValidators.ValidateSchema | src/pytabby/validators.py:250-274 | `_validate_schema` raises what the layout decision raises, and otherwise appends the messages of the layout's walk to the earlier ones. |
| PytabbyValidators.SchemaWalk | src/pytabby/validators.py:175-236 | Every layout's walk starts with the outer dict's report, against the outer schema with `tabs` or, for the single tab without the key, the one with `items`. |
| PytabbyOverlap.ConfigTabs | src/pytabby/validators.py:277-282 | `_config_tabs` raises what the layout decision raises, makes a one-tab list around the top-level `items` for the single-without-key layout, and otherwise returns `config["tabs"]`. |
| PytabbyOverlap.CountForOverlapEmpty | src/pytabby/validators.py:285-289 | `_count_for_overlap` returns an empty list exactly on hashable values without a repeat. |
| PytabbyOverlap.TruthyGetsOk | src/pytabby/validators.py:303-305 | Gathering the truthy `d.get(key)` values fails exactly when some element is not a dict. |
| PytabbyOverlap.TruthyGetsMembers | src/pytabby/validators.py:331-333 | The gathered values are exactly the truthy values stored under the key. |
| PytabbyOverlap.CollectTruthyGets | src/pytabby/validators.py:331-333 | The loop appending each truthy `tab.get("tab_header_input")` computes the gathering. |
| PytabbyOverlap.GatherFromOk | src/pytabby/validators.py:299-311 | The loop over tabs succeeds exactly when every iteration does, and appends at most one message per tab. |
| PytabbyOverlap.GatherFromEmpty | src/pytabby/validators.py:299-311 | The loop appends nothing exactly when no iteration reports. |
| PytabbyOverlap.GatherFromReports | src/pytabby/validators.py:299-311 | A reporting tab's message is among the appended messages. |
| PytabbyOverlap.TabReturnValues | src/pytabby/validators.py:300-305 | A tab's returns can only be gathered from a dict. |
| PytabbyOverlap.ReturnCheckTabMeaning | src/pytabby/validators.py:299-311 | One tab's return check succeeds when its returns can be hashed, is silent exactly when no two are equal, and otherwise reports the repeated ones. |
| PytabbyOverlap.ReturnCheckTab | src/pytabby/validators.py:298-312 | One tab of the return check passes only when its returns can be gathered and hashed, and is then silent exactly when no two of them are equal. |
| PytabbyOverlap.ReturnCheckTabRaises | src/pytabby/validators.py:300-305 | A tab whose returns cannot be gathered raises that exception. |
| PytabbyOverlap.ReturnsPerTabOnly | src/pytabby/validators.py:292-312 | Return values are compared within a tab only: distinct returns in every tab give no message even when two tabs share a value. |
| PytabbyOverlap.CollectReturns | src/pytabby/validators.py:300-305 | The loop over a tab's items computes its truthy returns. |
| PytabbyOverlap.ValidateNoReturnValueOverlap | src/pytabby/validators.py:292-312 | `_validate_no_return_value_overlap` appends one message per tab with repeated returns, or raises the first exception. |
| PytabbyOverlap.TabInputsMembers | src/pytabby/validators.py:336-340 | The gathered inputs are exactly the entries of the items' `item_inputs`. |
| PytabbyOverlap.LowerAll | src/pytabby/validators.py:341-342 | The folding makes each choice the lower-cased `str` of the original, keeping the length. |
| PytabbyOverlap.TabChoicesStart | src/pytabby/validators.py:335-342 | The tab selectors lead every tab's candidates, lower-cased only when folding applies. |
| PytabbyOverlap.TabChoicesFolded | src/pytabby/validators.py:341-342 | Without case sensitivity every candidate of a tab with items is a lower-case string. |
| PytabbyOverlap.InputMessageNote | src/pytabby/validators.py:344-363 | The case-folding note ends an input message exactly when the configuration is not case sensitive. |
| PytabbyOverlap.InputCheckTabMeaning | src/pytabby/validators.py:334-363 | One tab's input check succeeds when its candidates can be hashed, is silent exactly when no two are equal, and otherwise reports the repeated ones. |
| PytabbyOverlap.InputCheckTab | src/pytabby/validators.py:335-363 | One tab of the input check passes only when its candidates can be gathered and hashed, and is then silent exactly when no two of them are equal. |
| PytabbyOverlap.SelectorsAreStartingChoices | src/pytabby/validators.py:330-333 | Every truthy tab selector is among the starting choices of a multi-tab configuration. |
| PytabbyOverlap.AppendEach | src/pytabby/validators.py:339-340 | The loop over an item's inputs appends all of them in order. |
| PytabbyOverlap.CollectTabChoices | src/pytabby/validators.py:335-342 | The per-tab loops compute the tab's candidates. |
| PytabbyOverlap.ComputeInputPlan | src/pytabby/validators.py:325-333 | The set-up statements compute the case flag, the layout, the tabs and the starting choices. |
| PytabbyOverlap.CheckInputTab | src/pytabby/validators.py:335-363 | One pass of the loop over tabs computes that tab's input check. |
| PytabbyOverlap.ValidateNoInputValueOverlap | src/pytabby/validators.py:315-364 | `_validate_no_input_value_overlap` appends one message per tab with repeated candidates, or raises the first exception. |
| PytabbyValidateAll.ClosingBrace | src/pytabby/validators.py:370 | Where the pattern's closing `}` can sit: the last character, or the one before a final newline. |
| PytabbyValidateAll.FirstMatch | src/pytabby/validators.py:370-371 | The leftmost start of a match of `in {.+}` ending at the brace. |
| PytabbyValidateAll.ShortenRewrites | src/pytabby/validators.py:370-371 | A matching message has its leftmost match replaced by `in config`. |
| PytabbyValidateAll.ShortenChangesIff | src/pytabby/validators.py:370-371 | A message changes exactly when the pattern matches it. |
| PytabbyValidateAll.ShortenIdempotent | src/pytabby/validators.py:367-372 | Shortening twice is shortening once. |
| PytabbyValidateAll.ShortenAll | src/pytabby/validators.py:369-371 | Every message is shortened, and their number is kept. |
| PytabbyValidateAll.ShortenLongSchemaErrorMessages | src/pytabby/validators.py:367-372 | The loop shortens every message of the list in place. |
| PytabbyValidateAll.Numbered | src/pytabby/validators.py:384-385 | Message `i` becomes `"{i+1}. "` followed by the message. |
| PytabbyValidateAll.SeparatorLed | src/pytabby/validators.py:386 | Each part of the report follows a line break. |
| PytabbyValidateAll.JoinLeading | src/pytabby/validators.py:386 | `"\n".join` is the first part, then each later part after a line break. |
| PytabbyValidateAll.ErrorReportShape | src/pytabby/validators.py:383-386 | The report is a blank line, `Errors:`, then one numbered line per message. |
| PytabbyValidateAll.ValidateAllOutcome | src/pytabby/validators.py:375-386 | `validate_all` accepts a configuration exactly when no check raises and none has a message; an exception of a check propagates; otherwise `InvalidInputError` is raised with a blank line, `Errors:` and one line per shortened message numbered from 1. |
| PytabbyValidateAll.Shorten | src/pytabby/validators.py:367-372 | A message that does not end with a closing brace is kept; a changed message ends with `in config`, followed only by the final newline if it had one. |
| PytabbyValidateAll.ChainMessages | src/pytabby/validators.py:377-380 | The three checks run in order, each on the list the previous one returned; the first exception stops the chain. |
| PytabbyValidateAll.NumberedReport | src/pytabby/validators.py:383-386 | The numbering loop and the join build the report. |
| PytabbyValidateAll.ValidateAll | src/pytabby/validators.py:375-386 | `validate_all` returns for a valid configuration and raises the report or the first exception otherwise. |
| NormalizerCore.ItemFromOk | src/pytabby/normalizer.py:110-122 | The loop over an item's keys raises exactly when the item has a key other than the three text keys and its `item_inputs` cannot be read and iterated. |
| NormalizerCore.ItemFromFields | src/pytabby/normalizer.py:110-122 | Each field the loop writes is the `str()` of the old value, and the inputs are rebuilt when a non-text key is met. |
| NormalizerCore.ItemMeaning | src/pytabby/normalizer.py:109-123 | A new item's text fields are `str()` of the old values and absent when the old keys are; its inputs are stringified and re-cased exactly when the item has another key; the walk raises exactly when reading those inputs does. |
| NormalizerCore.NormalizeItem | src/pytabby/normalizer.py:109-123 | Normalizing an item fails only on a non-dict, or when a key other than the three text keys sends the walk to an input list that cannot be read. |
| NormalizerCore.TabFromOk | src/pytabby/normalizer.py:97-123 | The loop over a tab's keys raises exactly when the tab has a key and its `items` cannot be normalized. |
| NormalizerCore.TabFromFields | src/pytabby/normalizer.py:97-123 | Each field the loop over a tab's keys writes comes from the old value under that key. |
| NormalizerCore.TabMeaning | src/pytabby/normalizer.py:97-123 | A new tab's selector is `str()` of the old one, lower-cased when not case sensitive; a description keeps None and is otherwise `str()` of the old one, never lower-cased; absent keys stay absent; a tab with any key gets its whole item list normalized. |
| NormalizerCore.WalkTabs | src/pytabby/normalizer.py:91-124 | The walk gives one new tab per old tab, in order, each the old tab normalized. |
| NormalizerCore.RecasedStrCase | src/pytabby/normalizer.py:70-88 | `stringify_and_recase(v, True)` gives a string that re-casing leaves unchanged. |
| NormalizerCore.ItemIsNormal | src/pytabby/normalizer.py:109-123 | Every item the walk builds has re-cased inputs. |
| NormalizerCore.ItemsAreNormal | src/pytabby/normalizer.py:108-123 | Every item of a normalized item list has re-cased inputs. |
| NormalizerCore.TabIsNormal | src/pytabby/normalizer.py:93-124 | Every tab the walk builds has an item list, a re-cased selector and re-cased inputs. |
| NormalizerCore.EncodedItemKeys | src/pytabby/normalizer.py:109-123 | A normalized item written back as a dict has unique keys, each holding its field. |
| NormalizerCore.InputsRoundTrip | src/pytabby/normalizer.py:118-122 | Re-casing a list of already re-cased strings gives it back. |
| NormalizerCore.ItemOfFields | src/pytabby/normalizer.py:109-123 | An item dict whose keys hold exactly the fields of a normalized item normalizes to that item. |
| NormalizerCore.ItemRoundTrip | src/pytabby/normalizer.py:109-123 | Normalizing a normalized item, written back as a dict, gives it back. |
| NormalizerCore.ItemsRoundTrip | src/pytabby/normalizer.py:108-123 | The same for a whole item list. |
| NormalizerCore.EncodedTabKeys | src/pytabby/normalizer.py:93-124 | A normalized tab written back as a dict has unique keys, each holding its field. |
| NormalizerCore.TabOfFields | src/pytabby/normalizer.py:93-124 | A tab dict whose keys hold exactly the fields of a normalized tab normalizes to that tab. |
| NormalizerCore.TabItemsOfField | src/pytabby/normalizer.py:107-123 | A tab whose `items` holds written-back normalized items reads them back. |
| NormalizerCore.TabRoundTrip | src/pytabby/normalizer.py:93-124 | Normalizing a normalized tab, written back as a dict, gives it back. |
| NormalizerCore.TabsAreNormal | src/pytabby/normalizer.py:91-124 | Every tab of a normalized tab list is of the walk's shape. |
| NormalizerCore.TabsRoundTrip | src/pytabby/normalizer.py:91-124 | Normalizing a written-back list of normalized tabs gives it back. |
| NormalizerCore.WalkIsNormal | src/pytabby/normalizer.py:91-124 | Every tab list the walk builds is of the walk's shape. |
| NormalizerCore.EncodedConfigKeys | src/pytabby/normalizer.py:57-125 | A written-back configuration has the three keys the walk writes, each holding its field. |
| NormalizerCore.WalkRoundTrip | src/pytabby/normalizer.py:91-125 | Walking the tabs of a written-back configuration gives its tabs back. |
| NormalizerCore.ConsUnique | src/pytabby/normalizer.py:34 | A new key not among the others keeps the dict's keys unique. |
| NormalizerCore.DeleteUnique | src/pytabby/normalizer.py:35 | `del` removes the key and keeps the others unique. |
| NormalizerCore.SetUnique | src/pytabby/normalizer.py:34 | Assigning a key keeps the keys unique. |
| NormalizerCore.AddTabsKeyFolds | src/pytabby/normalizer.py:31-36 | A configuration without `tabs` gets one tab holding the old top-level `items`, loses `items`, keeps every other key, and a second fold changes nothing. |
| NormalizerCore.AddTabsKeyKeepsOthers | src/pytabby/normalizer.py:19-38 | The fold touches no key but `tabs` and `items`. |
| NormalizerCore.AddTabsKeyDictsUnique | src/pytabby/normalizer.py:19-38 | After the fold every dict in the configuration still has unique keys. |
| NormalizerCore.AddTabsKeyIfNeeded | src/pytabby/normalizer.py:19-38 | `_add_tabs_key_if_needed` changes the caller's dict in place as the fold says, or raises AssertionError and leaves it alone. |
| NormalizerCore.StringifyInputs | src/pytabby/normalizer.py:118-122 | The loop over an item's inputs stringifies and re-cases each of them. |
| NormalizerCore.NormalizeItemLoop | src/pytabby/normalizer.py:109-123 | The loop over one item's keys computes the new item. |
| NormalizerCore.NormalizeItemsLoop | src/pytabby/normalizer.py:108-123 | The loop over a tab's items computes the new item list. |
| NormalizerCore.NormalizeTabLoop | src/pytabby/normalizer.py:93-124 | The loop over one tab's keys computes the new tab, rebuilding the item list on every pass. |
| NormalizerCore.WalkTabsLoop | src/pytabby/normalizer.py:91-124 | The loop over the tabs computes the new tab list. |
| PytabbyNormalizer.KeysDistinct | src/pytabby/normalizer.py:97-122 | The key names pytabby's walk uses never clash. |
| PytabbyNormalizer.NormalizeRejects | src/pytabby/normalizer.py:31-33 | A non-dict raises, and a dict with neither `tabs` nor `items` raises the sanity AssertionError. |
| PytabbyNormalizer.Normalize | src/pytabby/normalizer.py:57-68 | `normalize` succeeds only on a dict holding `tabs` or `items`; `case_sensitive` is the old value when truthy and False otherwise; `screen_width` is the old value when truthy and 80 otherwise. |
| PytabbyNormalizer.NormalizeStages | src/pytabby/normalizer.py:128-142 | A successful `normalize` is the fold followed by the walk. |
| PytabbyNormalizer.NormalizeKeepsTabs | src/pytabby/normalizer.py:91-124 | With `tabs` present there is one normalized tab per old tab, in order. |
| PytabbyNormalizer.NormalizeFoldsItems | src/pytabby/normalizer.py:31-36 | Without `tabs` there is exactly one tab without header fields, holding the old top-level items normalized in order. |
| PytabbyNormalizer.NormalizeIsNormal | src/pytabby/normalizer.py:57-125 | Every successful `normalize` gives defaulted settings and tabs of the walk's shape. |
| PytabbyNormalizer.NormalizeRoundTrip | src/pytabby/normalizer.py:128-142 | A normalized configuration written back as a dict normalizes to itself. |
| PytabbyNormalizer.NormalizeIdempotent | src/pytabby/normalizer.py:128-142 | Normalizing an already normalized configuration changes nothing. |
| PytabbyNormalizer.NormalizeConfig | src/pytabby/normalizer.py:128-142 | `normalize` on a dict object returns the normalized configuration and leaves the caller's dict folded. |
| LegacyNormalizer.KeysDistinct | src/tabbedshellmenus/normalizer.py:49-64 | The key names of the older walk never clash. |
| LegacyNormalizer.NormalizeNeedsTabsOrItems | src/tabbedshellmenus/normalizer.py:17-19 | Neither `tabs` nor `items` raises a bare AssertionError. |
| LegacyNormalizer.NormalizeNeedsCaseSensitive | src/tabbedshellmenus/normalizer.py:44-45 | A missing `case_sensitive` raises KeyError. |
| LegacyNormalizer.NormalizeNeedsScreenWidth | src/tabbedshellmenus/normalizer.py:44-45 | A missing `screen_width` raises KeyError. |
| LegacyNormalizer.Normalize | src/tabbedshellmenus/normalizer.py:70-74 | `normalize` succeeds only on a dict holding `tabs` or `items`, and copies both settings verbatim, falsy or not. |
| LegacyNormalizer.NormalizeStages | src/tabbedshellmenus/normalizer.py:70-74 | A successful `normalize` is the fold followed by the walk. |
| LegacyNormalizer.NormalizeKeepsTabs | src/tabbedshellmenus/normalizer.py:46-66 | With `tabs` present there is one normalized tab per old tab, in order. |
| LegacyNormalizer.NormalizeFoldsItems | src/tabbedshellmenus/normalizer.py:17-22 | Without `tabs` there is exactly one tab without header fields, holding the old top-level items normalized in order. |
| LegacyNormalizer.NormalizeIsNormal | src/tabbedshellmenus/normalizer.py:46-66 | The tabs of every successful `normalize` are of the walk's shape. |
| LegacyNormalizer.NormalizeRoundTrip | src/tabbedshellmenus/normalizer.py:70-74 | A configuration with tabs of the walk's shape, written back as a dict, normalizes to itself. |
| LegacyNormalizer.NormalizeIdempotent | src/tabbedshellmenus/normalizer.py:70-74 | Normalizing an already normalized configuration changes nothing. |
| LegacyNormalizer.NormalizeConfig | src/tabbedshellmenus/normalizer.py:70-74 | `normalize` on a dict object returns the normalized configuration and leaves the caller's dict folded. |
| LegacySchema.CheckAllMeaning | src/tabbedshellmenus/validators.py:93-98 | A `for` loop of validations passes exactly when every element passes, and otherwise raises the exception of the first element that fails. |
| LegacySchema.ConformsField | src/tabbedshellmenus/validators.py:19-47 | A required field of a conforming dict is present and passes its check. |
| LegacySchema.ConformsList | src/tabbedshellmenus/validators.py:19-47 | A required non-empty-list field of a conforming dict can be iterated and is non-empty. |
| LegacySchema.CheckItemMeaning | src/tabbedshellmenus/validators.py:96-98 | An item passes exactly when it and every one of its `valid_entries` conform; a failure is a schema error. |
| LegacySchema.CheckItemsMeaning | src/tabbedshellmenus/validators.py:95-98 | A list of items passes exactly when every item and entry conforms. |
| LegacySchema.CheckTabMeaning | src/tabbedshellmenus/validators.py:94-98 | A tab of the several-tab layout passes exactly when it, its items and their entries conform. |
| LegacySchema.CheckTabsMeaning | src/tabbedshellmenus/validators.py:93-98 | The tabs pass exactly when every tab is valid. |
| LegacySchema.SchemaWalkMeaning | src/tabbedshellmenus/validators.py:76-119 | `validate_schema` returns exactly when every node of the configuration conforms; what it raises is a schema error unless the layout itself cannot be determined. |
| LegacySchema.SchemaWalk | src/tabbedshellmenus/validators.py:76-119 | `validate_schema` raises what the layout decision raises, and passes only when the layout is known and the outer dict conforms to that layout's outer schema. |
| LegacySchema.MultipleWalkMeaning | src/tabbedshellmenus/validators.py:91-98 | The several-tab branch passes exactly when the outer dict and every tab conform. |
| LegacySchema.SingleWithKeyWalkMeaning | src/tabbedshellmenus/validators.py:99-109 | The one-tab branch under `tabs` passes exactly when the outer dict, the one tab and its items conform. |
| LegacySchema.SingleWithoutKeyWalkMeaning | src/tabbedshellmenus/validators.py:110-115 | The branch without `tabs` passes exactly when the outer dict and its items conform. |
| LegacySchema.SingleWithKeyHasOneTab | src/tabbedshellmenus/validators.py:101-104 | The assertion that there is one tab never fails once the outer schema has passed. |
| LegacySchema.WithoutTabsNeedsCaseSensitive | src/tabbedshellmenus/validators.py:23-25 | A configuration without `tabs` must give `case_sensitive`. |
| LegacySchema.CheckEntries | src/tabbedshellmenus/validators.py:97-98 | The loop over an item's `valid_entries` raises the first entry's failure. |
| LegacySchema.CheckItems | src/tabbedshellmenus/validators.py:95-98 | The loop over items validates each item, then its entries, and raises the first failure. |
| LegacySchema.CheckTabs | src/tabbedshellmenus/validators.py:93-98 | The loop over tabs validates each tab, then its items, and raises the first failure. |
| LegacySchema.ValidateSchema | src/tabbedshellmenus/validators.py:76-119 | `validate_schema` runs the walk of the configuration's layout. |
| LegacySchema.Find | src/pysimpletabshellmenu/validators.py:117 | `str.find` returns -1 or a position where the pattern occurs at or after the start. |
| LegacySchema.FindOccurrence | src/pysimpletabshellmenu/validators.py:117 | An occurrence at or after the start is found. |
| LegacySchema.FindAbsent | src/pysimpletabshellmenu/validators.py:117 | A text without the pattern's first character does not contain the pattern. |
| LegacySchema.NoCapitalS | src/pysimpletabshellmenu/validators.py:117 | The printed name of every exception class other than the schema errors has no capital S. |
| LegacySchema.InvalidInputLacksS | src/pysimpletabshellmenu/validators.py:203-204 | `InvalidInputError` has no capital S in its name. |
| LegacySchema.ValueOverlapLacksS | src/tabbedshellmenus/validators.py:11-12 | `ValueOverlapError` has no capital S in its name. |
| LegacySchema.ReprOmits | src/pysimpletabshellmenu/validators.py:117 | A character absent from a class name and from `<class '...'>` is absent from the printed name. |
| LegacySchema.SchemaAt15 | src/pysimpletabshellmenu/validators.py:117 | The printed name of a schema error has "Schema" right after "<class 'schema.". |
| LegacySchema.NamesSchemaIff | src/pysimpletabshellmenu/validators.py:116-120 | The classes whose printed name contains "Schema" are exactly the schema package's errors. |
| LegacySchema.SchemaIsValid | src/pysimpletabshellmenu/validators.py:73-120 | `schema_is_valid` runs the walk and turns a schema error into False. |
| LegacySchema.SchemaVerdictMeaning | src/pysimpletabshellmenu/validators.py:73-120 | `schema_is_valid` answers True exactly on a valid configuration, False on every other configuration whose layout can be determined, and raises only the layout's own exception. |
| LegacySchema.SchemaVerdict | src/pysimpletabshellmenu/validators.py:73-120 | `schema_is_valid` answers True exactly when the walk passes, False only for a schema error, and re-raises every other exception. |
| LegacySchema.SetKeyTwice | src/tabbedshellmenus/validators.py:132-133 | Assigning a key twice leaves the second value. |
| LegacySchema.ConfigTabsInPlace | src/tabbedshellmenus/validators.py:122-134 | `_config_tabs` returns pytabby's tabs for the configuration and adds the implied `tabs` key to the caller's dict. |
| LegacySchema.TabsAddedKeepsItems | src/tabbedshellmenus/validators.py:131-134 | The added tab holds the top-level items, which stay where they were; every other key is unchanged. |
| LegacySchema.TabsAdded | src/tabbedshellmenus/validators.py:122-134 | `_config_tabs` adds `tabs` in the layout without it and changes no other key, `items` included; other layouts are left alone. |
| LegacySchema.ConfigTabsIdempotent | src/tabbedshellmenus/validators.py:122-134 | Running `_config_tabs` again changes nothing more and returns the same tabs. |
| LegacySchema.ItemsBreakOuterWithTabs | src/tabbedshellmenus/validators.py:19-21 | A dict holding `items` never fits the outer schema of the layouts with `tabs`. |
| LegacySchema.TabsAddedBreaksSchema | src/tabbedshellmenus/validators.py:122-134 | After `_config_tabs` a configuration without `tabs` has the one-tab layout and no longer passes the schema. |
| LegacyOverlap.AllDistinct | src/tabbedshellmenus/validators.py:151 | `len(vs) == len(set(vs))` raises TypeError exactly when some value cannot be hashed, and otherwise holds exactly when no two values are equal. |
| LegacyOverlap.IntAndDigitDiffer | src/tabbedshellmenus/validators.py:151 | The int 1 and the string "1" are different set elements. |
| LegacyOverlap.TrueAndOneCollide | src/tabbedshellmenus/validators.py:151 | True and 1 are the same set element. |
| LegacyOverlap.ReturnCheckTabMeaning | src/tabbedshellmenus/validators.py:149-159 | A tab passes when its returns can be gathered and hashed and no two are equal; it raises the package's overlap exception exactly when two are equal. |
| LegacyOverlap.ReturnOverlapMeaning | src/tabbedshellmenus/validators.py:137-159 | The return check passes exactly when every tab passes, and otherwise raises what the first failing tab raises. |
| LegacyOverlap.ReturnOverlap | src/tabbedshellmenus/validators.py:137-159 | Once the tabs are found, the return check passes exactly when every tab passes on its own. |
| LegacyOverlap.TabReturnsErrClass | src/tabbedshellmenus/validators.py:149-151 | Gathering a tab's return values raises only KeyError, TypeError or AttributeError. |
| LegacyOverlap.ReturnsNeverFolded | src/tabbedshellmenus/validators.py:150-151 | Return values are compared as they are: any two different strings, "a" and "A" among them, do not overlap, whatever `case_sensitive` says. |
| LegacyOverlap.CheckReturnsOfTabs | src/tabbedshellmenus/validators.py:149-151 | The loop over tabs stops at the first tab that fails. |
| LegacyOverlap.ValidateNoReturnValueOverlap | src/tabbedshellmenus/validators.py:137-159 | `validate_no_return_value_overlap` (and `check_return_value_overlap`) raises what the check raises and adds the implied `tabs` key to the caller's dict. |
| LegacyOverlap.LowerMethod | src/tabbedshellmenus/validators.py:182 | Only a string has `.lower()`; lower-casing keeps its truthiness. |
| LegacyOverlap.TruthyOnly | src/tabbedshellmenus/validators.py:180-183 | `tab_values` holds exactly the truthy selectors. |
| LegacyOverlap.FoldCase | src/tabbedshellmenus/validators.py:188-189 | Without case sensitivity each string entry is lower-cased and every other entry kept. |
| LegacyOverlap.FirstFoundMeaning | src/tabbedshellmenus/validators.py:184-191 | A loop that stops at the first failing element finds nothing exactly when no element fails. |
| LegacyOverlap.NoDuplicatesPrefix | src/tabbedshellmenus/validators.py:190-191 | A list without repeats has a prefix without repeats. |
| LegacyOverlap.ItemsInputsStep | src/tabbedshellmenus/validators.py:186-191 | One pass of the loop over items asserts that the values so far and the item's folded entries are pairwise different. |
| LegacyOverlap.AllEntriesStep | src/tabbedshellmenus/validators.py:186-190 | The folded entries of the items from one position on are that item's, then the rest. |
| LegacyOverlap.ItemsInputsMeaning | src/tabbedshellmenus/validators.py:186-191 | Asserting after every item checks the whole list: with hashable values a tab with items passes exactly when the selectors and all its input values are pairwise different. |
| LegacyOverlap.ItemsInputsRaised | src/tabbedshellmenus/validators.py:190-191 | A failed assertion reports a list of hashable values with a repeat, which starts with the selectors. |
| LegacyOverlap.SelectorsCollected | src/tabbedshellmenus/validators.py:178-185 | Every truthy selector is among every tab's starting input values. |
| LegacyOverlap.InputOverlapRaised | src/tabbedshellmenus/validators.py:192-202 | The input check raises the package's overlap exception exactly when some tab's assertion fails; the text names the last tab's `header_choice`. |
| LegacyOverlap.ShownMeaning | src/tabbedshellmenus/validators.py:192-202 | `pysimpletabshellmenu` shows the repeated values as they are; `tabbedshellmenus` shows `sorted()` of them, which, on the ints, bools and strs the schema admits, succeeds exactly when they are all numbers or all strings, keeps them as a multiset and puts them in ascending order, and otherwise raises TypeError. |
| LegacyOverlap.InputOverlap | src/tabbedshellmenus/validators.py:162-202 | The input check passes exactly when its set-up succeeds and no tab's assertion fails; a failed assertion raises the package's overlap exception or, in `tabbedshellmenus` only, the TypeError of sorting the values. |
| LegacyOverlap.IntSelectorNeedsCaseSensitive | src/tabbedshellmenus/validators.py:179-182 | A truthy selector that is not a str (a non-zero int, or True) cannot be lower-cased: without case sensitivity the check raises AttributeError although the schema accepts int selectors. |
| LegacyOverlap.HeaderChoiceFails | src/tabbedshellmenus/validators.py:179-182 | The first loop's body can only raise AttributeError. |
| LegacyOverlap.SelectorsStep | src/tabbedshellmenus/validators.py:178-183 | One pass of the first loop appends the tab's truthy selector. |
| LegacyOverlap.CollectSelectors | src/tabbedshellmenus/validators.py:178-183 | The first loop computes `tab_values` and the last `header_choice`, or raises the first AttributeError. |
| LegacyOverlap.CheckItemsInputs | src/tabbedshellmenus/validators.py:186-191 | The loop over one tab's items computes the list of its first failed assertion, if any. |
| LegacyOverlap.CheckTabInputs | src/tabbedshellmenus/validators.py:185-191 | One tab's input values start as a copy of the selectors. |
| LegacyOverlap.CheckTabsInputs | src/tabbedshellmenus/validators.py:184-191 | The loop over tabs stops at the first tab whose assertion fails. |
| LegacyOverlap.PlanInputsInPlace | src/tabbedshellmenus/validators.py:175-183 | The set-up statements compute the case flag, the tabs and the selectors, and add the implied `tabs` key to the caller's dict. |
| LegacyOverlap.ValidateNoInputValueOverlap | src/tabbedshellmenus/validators.py:162-202 | `validate_no_input_value_overlap` (and `check_accepted_input_overlap`) raises what the check raises and adds the implied `tabs` key to the caller's dict. |
| LegacyOverlap.ValidateAll | src/tabbedshellmenus/validators.py:209-216 | `validate_all` of either package raises InvalidInputError for any failing step and leaves the dict as the steps changed it. |
| LegacyOverlap.ReturnOverlapAfterTabsAdded | src/tabbedshellmenus/validators.py:213-214 | The return check sees the same tabs after the input check has changed the dict. |
| LegacyOverlap.ValidateAllMeaning | src/pysimpletabshellmenu/validators.py:207-214 | `validate_all` accepts exactly the configurations whose every node conforms and which pass both overlap checks, raises InvalidInputError on any other, and leaves the dict untouched when the schema fails. |
| LegacyOverlap.InputOverlapIgnoresPackage | src/pysimpletabshellmenu/validators.py:162-200 | The input checks of the two packages pass on the same configurations. |
| LegacyOverlap.ReturnOverlapIgnoresPackage | src/pysimpletabshellmenu/validators.py:138-159 | The return checks of the two packages pass on the same configurations. |
| LegacyOverlap.PackagesAgree | src/pysimpletabshellmenu/validators.py:207-214 | The two packages' `validate_all` accept the same configurations and change the dict alike. |
| TabTable.LastItemFrom | src/tabbedshellmenus/tab.py:49-51 | The position of the last item listing an input: it lists it and no later item does. |
| TabTable.LastSelectorFrom | src/tabbedshellmenus/tab.py:47-48 | The position of the last occurrence of a selector. |
| TabTable.AddSelectors | src/tabbedshellmenus/tab.py:47-48 | The selector loop keeps every earlier key and only ever writes tab changes; `AddSelectorsMeaning` gives each selector's position. |
| TabTable.AddEntries | src/tabbedshellmenus/tab.py:50-51 | The loop over one item's inputs keeps every earlier key, and raises only the KeyError of a missing `item_returns`; `AddEntriesMeaning` gives the values. |
| TabTable.AddItems | src/tabbedshellmenus/tab.py:49-51 | The loop over items keeps every earlier key and raises only the KeyError of a missing `item_inputs` or `item_returns`; `AddItemsOk`, `AddItemsKeys` and `AddItemsValues` give the rest. |
| TabTable.AddSelectorsMeaning | src/tabbedshellmenus/tab.py:47-48 | The selector loop adds every selector as a tab change to the position of its last occurrence and keeps every other key. |
| TabTable.AddEntriesMeaning | src/tabbedshellmenus/tab.py:50-51 | The loop over one item's inputs maps each of them to the item's return value, or raises KeyError when the item has inputs but no return value. |
| TabTable.AddItemsOk | src/tabbedshellmenus/tab.py:49-51 | The loop over items succeeds exactly when every item has inputs and every item with inputs has a return value. |
| TabTable.ItemKeysMeaning | src/tabbedshellmenus/tab.py:49-51 | A string is an input of the items exactly when some item lists it. |
| TabTable.AddItemsKeys | src/tabbedshellmenus/tab.py:49-51 | The table's keys grow by exactly the items' inputs. |
| TabTable.AddItemsValues | src/tabbedshellmenus/tab.py:49-51 | An input holds the return value of the last item listing it; any other key keeps its old outcome. |
| TabTable.AddItemsKept | src/tabbedshellmenus/tab.py:49-51 | Adding the items leaves every key that no item lists with its earlier outcome (a tab switch stays a tab switch). |
| TabTable.ParseItemsMeaning | src/tabbedshellmenus/tab.py:44-51 | The table exists exactly when every item is complete; its keys are the selectors and all inputs; an input returns the value of the last item listing it; a selector no item lists changes to its last position. |
| TabTable.ParseItems | src/tabbedshellmenus/tab.py:44-51 | `_parse_items` raises KeyError exactly when some item lacks inputs, or has a non-empty input list but no return value. |
| TabTable.TabTableOf | src/tabbedshellmenus/tab.py:42-51 | A tab's table is built exactly when the tab has `items` and they are complete; otherwise a KeyError is raised. |
| TabTable.Process | src/tabbedshellmenus/tab.py:53-65 | `process_input` answers the stored outcome of a key the table holds and invalid for any other string; `ProcessInvalidIff` and `ProcessWithoutCollision` say what that means for a built table. |
| TabTable.ProcessInvalidIff | src/tabbedshellmenus/tab.py:53-65 | `process_input` answers invalid exactly for a string that is neither a selector nor an input. |
| TabTable.ProcessWithoutCollision | src/tabbedshellmenus/tab.py:44-65 | Without colliding keys, selector `i` changes to tab `i` and an item's input returns that item's value. |
| TabTable.SelectorsMeaning | src/tabbedshellmenus/tab.py:14-17 | A string is a selector exactly when some tab has it as a non-empty `tab_header_input`; there are never more selectors than tabs. |
| TabTable.SelectorsAllOrNone | src/tabbedshellmenus/tab.py:14-17 | With every header present, selector `i` is tab `i`'s header; with none present there are no selectors. |
| TabTable.Selectors | src/tabbedshellmenus/tab.py:14-17 | There are never more selectors than tabs, and no selector is empty; `SelectorsMeaning` says which strings are selectors. |
| TabTable.Tab.constructor | src/tabbedshellmenus/tab.py:38-41 | The three header attributes are the tab's header fields and the selectors are the list given. |
| TabTable.Tab.ParseItemsLoop | src/tabbedshellmenus/tab.py:44-51 | `_parse_items` fills `input2result` with the table, or raises as the table does, and changes no other attribute. |
| TabTable.Tab.ProcessInput | src/tabbedshellmenus/tab.py:53-65 | `process_input` answers the stored outcome or invalid, and changes nothing. |
| TabTable.NewTab | src/tabbedshellmenus/tab.py:31-42 | `Tab(tab_dict, tab_selectors)` has the tab's header attributes and table, or raises as building the table does. |
| TabTable.CollectSelectors | src/tabbedshellmenus/tab.py:14-17 | The first loop of `create_tab_objects` gathers the truthy selectors in tab order. |
| TabTable.CreateTabObjects | src/tabbedshellmenus/tab.py:7-21 | `create_tab_objects` builds one tab per configuration tab, in order, each with the full selector list, or raises what the first failing tab raises. |
| TabTable.TabTables | src/tabbedshellmenus/tab.py:18-20 | The tables exist exactly when every tab's table can be built with the shared selector list, one per tab and in order. |
| TabbedMenu.AnnouncementMeaning | src/tabbedshellmenus/menu.py:79-85 | The tab-change message is printed exactly when the new tab has a selector, and has each description part exactly when that attribute is present. |
| TabbedMenu.CollectFrom | src/tabbedshellmenus/menu.py:93-106 | `_collect_input` only consumes lines, and returns an outcome other than invalid only after reading a line on a valid tab. |
| TabbedMenu.FirstValid | src/tabbedshellmenus/menu.py:97-105 | The first line the current tab does not call invalid, with every earlier line invalid. |
| TabbedMenu.Prompts | src/tabbedshellmenus/menu.py:96-103 | The prompts: `?: ` first, then `Invalid, try again: ` once per rejected line. |
| TabbedMenu.PromptsStep | src/tabbedshellmenus/menu.py:96-103 | One prompt followed by the re-prompts is the prompt list for one more rejected line. |
| TabbedMenu.CollectMeaning | src/tabbedshellmenus/menu.py:93-106 | On a valid tab `_collect_input` returns the outcome of the first accepted line, having read exactly the lines up to it and printed one prompt per line read; without an accepted line it reads all lines and raises EOFError. |
| TabbedMenu.CollectBadCursor | src/tabbedshellmenus/menu.py:101 | A tab number outside the tabs raises IndexError once a line has been read, and EOFError before. |
| TabbedMenu.RunMeaning | src/tabbedshellmenus/menu.py:108-126 | `run` returns the pair exactly when the menu has several tabs, the pair naming the selector of the tab the run ends on; the tab number ends on the start tab or on a tab a selector changed to. |
| TabbedMenu.RunFrom | src/tabbedshellmenus/menu.py:108-126 | A run only adds to what was printed, starting with the menu of the current tab; `RunMeaning` states what it answers. |
| TabbedMenu.CollectExtends | src/tabbedshellmenus/menu.py:93-106 | Collecting input only adds to what was printed. |
| TabbedMenu.RunAllInvalid | src/tabbedshellmenus/menu.py:108-126 | With every line invalid, the run prints the menu and one prompt per line, then raises EOFError. |
| TabbedMenu.Construct | src/tabbedshellmenus/menu.py:33-43 | An invalid configuration raises before anything is normalized; a built menu holds the normalized configuration, its start tab is below the tab count, and it has one table per tab, each built with the shared selector list. |
| TabbedMenu.ConstructSteps | src/tabbedshellmenus/menu.py:39-43 | Past validation, normalization and the start-tab assertion, construction raises what `create_tab_objects` raises or holds its tables. |
| TabbedMenu.CaseFlagAgrees | src/tabbedshellmenus/menu.py:44 | The flag read from the caller's dict is truthy exactly when the normalized one is. |
| TabbedMenu.ViewsOf | src/tabbedshellmenus/menu.py:78-84 | The parts of each tab object the menu reads: its header attributes and its table. |
| TabbedMenu.Menu.constructor | src/tabbedshellmenus/menu.py:33-44 | The attributes `__init__` sets. |
| TabbedMenu.Menu.ChangeTabTo | src/tabbedshellmenus/menu.py:75-86 | `_change_tab` raises IndexError and changes nothing for a number outside the tabs; otherwise it prints the announcement and moves to the tab. |
| TabbedMenu.Menu.CollectInput | src/tabbedshellmenus/menu.py:93-106 | The `_collect_input` loop reads and prints as the collection function says and changes no other attribute. |
| TabbedMenu.Menu.Run | src/tabbedshellmenus/menu.py:108-126 | The `run` loop leaves the tab number, the printed events, the unread lines and the answer that the run function gives. |
| TabbedMenu.NewMenu | src/tabbedshellmenus/menu.py:33-44 | `Menu(config, start_tab_number)` raises what validation, normalization, the start-tab assertion or a tab raises, and otherwise has the normalized configuration, the start tab, the tables and the case flag of the caller's dict. |
| PytabbyFormatting.Times | src/pytabby/formatting.py:38 | `c * n` is `n` copies of the character, and empty for `n <= 0`. |
| PytabbyFormatting.Split | src/pytabby/formatting.py:102-103 | `str.split("\n")` always gives at least one piece. |
| PytabbyFormatting.SplitPrefix | src/pytabby/formatting.py:102-103 | Text without a newline joins the first piece of whatever follows it. |
| PytabbyFormatting.Interleave | src/pytabby/formatting.py:105-108 | The zip loop alternates top and bottom lines, as many pairs as the shorter list has lines. |
| PytabbyFormatting.TopEntryShape | src/pytabby/formatting.py:78-91 | A tab entry opens with `[` on the first tab and `|` on the others, closes with `]` on the last, carries `:` exactly when there is a description, and holds no newline its parts do not hold. |
| PytabbyFormatting.PiecesFrom | src/pytabby/formatting.py:67-100 | There are never more entries than tabs. |
| PytabbyFormatting.PiecesFromAll | src/pytabby/formatting.py:67-100 | Every tab gets an entry exactly when every tab has a `tab_header_input`; then tab `k`'s entry is at position `k`. |
| PytabbyFormatting.TextAppend | src/pytabby/formatting.py:102-103 | Joining two token lists is joining each and concatenating. |
| PytabbyFormatting.Rows | src/pytabby/formatting.py:102-103 | The tokens between breaks form at least one row. |
| PytabbyFormatting.RowTexts | src/pytabby/formatting.py:102-103 | The text of each row, one per row. |
| PytabbyFormatting.SplitText | src/pytabby/formatting.py:102-103 | Splitting the joined text at newlines gives back the rows when no entry holds a newline. |
| PytabbyFormatting.SplitBreak | src/pytabby/formatting.py:102-103 | A break in front starts a new row of the split text. |
| PytabbyFormatting.SplitPiece | src/pytabby/formatting.py:102-103 | An entry in front joins the first row of the split text. |
| PytabbyFormatting.RowsOfPiece | src/pytabby/formatting.py:97-100 | An entry in front joins the first row and adds its width. |
| PytabbyFormatting.RowsOfBreak | src/pytabby/formatting.py:93-96 | A break before an entry starts an empty first row. |
| PytabbyFormatting.LaterRowsNewFirst | src/pytabby/formatting.py:93-100 | Replacing the first row keeps the later rows within the width. |
| PytabbyFormatting.LaterRowsShifted | src/pytabby/formatting.py:93-100 | An empty row in front moves the first row to second place, where it must fit. |
| PytabbyFormatting.LayoutWidths | src/pytabby/formatting.py:93-96 | The greedy rule: the first row is at most `line_length - 1` minus what the line already holds, and every later row with two entries or more is at most `line_length - 1` wide. |
| PytabbyFormatting.LayoutFits | src/pytabby/formatting.py:93-96 | From any current line length, the greedy layout's first row fits what is left of the line and every later row with two entries or more is at most `line_length - 1` wide. |
| PytabbyFormatting.LayoutPieces | src/pytabby/formatting.py:93-100 | The layout loses and reorders nothing: dropping its breaks gives back the entries. |
| PytabbyFormatting.Layout | src/pytabby/formatting.py:93-100 | The greedy layout places every remaining entry, each after at most one break; `LayoutFits` and `LayoutPieces` say the rows fit and nothing is lost or reordered. |
| PytabbyFormatting.LayoutClean | src/pytabby/formatting.py:93-100 | The layout adds only breaks, so each entry stays as wide as its underline and free of newlines. |
| PytabbyFormatting.PieceShape | src/pytabby/formatting.py:91-99 | A tab's underline is as long as its entry, and neither holds a newline when the header texts do not. |
| PytabbyFormatting.PiecesFromShape | src/pytabby/formatting.py:67-100 | Every tab's entry is balanced with its underline, and free of newlines when the header texts are. |
| PytabbyFormatting.HeaderLinesPieces | src/pytabby/formatting.py:47-109 | `_format_headers` raises exactly when a tab has no `tab_header_input`; otherwise the laid-out entries are every tab's, in order, `=` under the current tab only. |
| PytabbyFormatting.HeaderLinesWidths | src/pytabby/formatting.py:93-96 | Each header row with two entries or more fits in `line_length - 1` characters, and so does the first row. |
| PytabbyFormatting.HeaderLinesRows | src/pytabby/formatting.py:47-109 | With no newline in any header text, the lines are the rows in pairs, each row's entries and then its underline of the same length, so the count is even. |
| PytabbyFormatting.HeaderLines | src/pytabby/formatting.py:47-109 | `_format_headers` raises the KeyError of `tab_header_input` exactly when some tab has no selector. |
| PytabbyFormatting.RowsBalanced | src/pytabby/formatting.py:102-103 | The rows of balanced tokens are balanced. |
| PytabbyFormatting.EvenRow | src/pytabby/formatting.py:99 | A row of balanced entries has top and bottom text of the same length. |
| PytabbyFormatting.ItemLineAligned | src/pytabby/formatting.py:36-39 | With the width at least the choice's length, the item line's `]` sits at column `width + 1`. |
| PytabbyFormatting.MaxChoiceMeaning | src/pytabby/formatting.py:31-33 | The width is the largest choice length, and computing it raises exactly when a choice is missing. |
| PytabbyFormatting.ItemLinesMeaning | src/pytabby/formatting.py:35-39 | The item lines exist exactly when every item has a choice and a description; there is one line per item, in order. |
| PytabbyFormatting.MenuLinesShape | src/pytabby/formatting.py:7-44 | A formatted menu opens with an empty line, has header lines exactly when there are several tabs, then one line per item of the current tab, and the message last when there is one. |
| PytabbyFormatting.MenuLinesItems | src/pytabby/formatting.py:28-39 | The current tab's items follow the headers in order, each `[choice]` padded to the longest choice so every `]` is in the same column. |
| PytabbyFormatting.MenuLinesParts | src/pytabby/formatting.py:21-44 | A successful `format_menu` is the four parts it joins, each stage having succeeded. |
| PytabbyFormatting.MenuLines | src/pytabby/formatting.py:7-44 | A formatted menu needs a tab at `current_tab_number` (negative positions counting from the end) that has items, and every tab headed when there are several. |
| PytabbyFormatting.AdvanceBroken | src/pytabby/formatting.py:93-97 | A turn of the header loop that finds the line full adds a break, then the entry on a fresh line. |
| PytabbyFormatting.AdvanceOnLine | src/pytabby/formatting.py:93-100 | A turn that finds room adds the entry to the current line. |
| PytabbyFormatting.Extend | src/pytabby/formatting.py:94-99 | Appending a token's text keeps the built list equal to the joined tokens. |
| PytabbyFormatting.FormatHeaders | src/pytabby/formatting.py:47-109 | The header loop, the split and the pairing compute `_format_headers`. |
| PytabbyFormatting.LayoutUpToSplits | src/pytabby/formatting.py:67-100 | What the loop has built after `n` entries, followed by the rest laid out from there, is the whole layout. |
| PytabbyFormatting.LayoutUpToAll | src/pytabby/formatting.py:67-100 | After every entry the loop has built the whole layout. |
| PytabbyFormatting.HeaderTexts | src/pytabby/formatting.py:61-100 | The entry loop raises KeyError for the first tab without `tab_header_input`, and otherwise builds `top_text` and `bottom_text` from the layout. |
| PytabbyFormatting.PiecesStep | src/pytabby/formatting.py:67-91 | One more tab with `tab_header_input` gives the next entry. |
| PytabbyFormatting.PairLines | src/pytabby/formatting.py:105-108 | The closing loop interleaves the top and bottom lines. |
| PytabbyFormatting.FormatMenu | src/pytabby/formatting.py:7-44 | `format_menu` returns the menu lines joined with newlines, or raises what building them raises. |
| SimpleFormatting.EntryFrame | src/pysimpletabshellmenu/formatting.py:38-47 | A header entry is the abbreviation inside brackets, followed by `#` for the current tab. |
| SimpleFormatting.EntryDescription | src/pysimpletabshellmenu/formatting.py:38-47 | Another tab's entry has a space before a truthy description and nothing before a falsy one; None shows as nothing and any other description as its `str()`. |
| SimpleFormatting.Entry | src/pysimpletabshellmenu/formatting.py:38-47 | A header entry is bracketed and holds at least the abbreviation's `str()`; `EntryFrame` and `EntryDescription` give its layout. |
| SimpleFormatting.HeaderEntryReads | src/pysimpletabshellmenu/formatting.py:36-37 | A tab has an entry exactly when it is a dict holding the header key; a missing header raises KeyError; the description defaults to None. |
| SimpleFormatting.PieceAtMeaning | src/pysimpletabshellmenu/formatting.py:35-47 | Tab `k`'s piece holds its entry, or the entry's error. |
| SimpleFormatting.HeaderBar | src/pysimpletabshellmenu/formatting.py:32-53 | `_format_headers` raises exactly when some tab has no entry, with the error of the first such tab. |
| SimpleFormatting.HeaderBarRows | src/pysimpletabshellmenu/formatting.py:48-53 | The bar's lines are the rows of the greedy layout: they hold every entry in tab order, and the first line and every line with two entries or more are at most `line_length - 1` wide. |
| SimpleFormatting.MaxChoiceMeaning | src/pysimpletabshellmenu/formatting.py:21-23 | The width is the largest choice length, and the loop raises exactly when some `len` does. |
| SimpleFormatting.ItemTextAligned | src/pysimpletabshellmenu/formatting.py:27-28 | A string choice padded to the width has its `)` at column `width + 1`, then the description's `str()`. |
| SimpleFormatting.MenuLinesParts | src/pysimpletabshellmenu/formatting.py:15-29 | A successful `format_menu` is the blank line, the header bar and the item lines, each stage having succeeded. |
| SimpleFormatting.MenuLinesShape | src/pysimpletabshellmenu/formatting.py:9-29 | A formatted menu needs a tab at `current_number` (negative indexes included) with iterable `items`; it opens with an empty line and the bar, then one line per item. |
| SimpleFormatting.MenuLines | src/pysimpletabshellmenu/formatting.py:9-29 | A formatted menu needs a tab at `current_number` (negative positions counting from the end) holding `items`, and an entry for every tab, a lone tab included. |
| SimpleFormatting.MenuLinesItems | src/pysimpletabshellmenu/formatting.py:24-28 | After the bar come the items' lines in item order, all padded to the longest choice. |
| SimpleFormatting.ItemLineAligned | src/pysimpletabshellmenu/formatting.py:25-28 | A string choice no longer than the width has its `)` at column `width + 1`. |
| SimpleFormatting.MaxChoiceBounds | src/pysimpletabshellmenu/formatting.py:21-23 | No choice is longer than the computed width. |
| SimpleFormatting.MenuLinesAligned | src/pysimpletabshellmenu/formatting.py:21-28 | With string choices every item line has its `)` in the same column, one past the longest choice. |
| SimpleFormatting.LoneTabWithoutHeader | src/pysimpletabshellmenu/formatting.py:16-17 | A lone tab without a header key cannot be shown: the bar is built whenever there is a tab, and raises KeyError. |
| SimpleFormatting.LayoutUpToPrefix | src/pysimpletabshellmenu/formatting.py:35-52 | The loop's layout so far only reads the entries it has reached. |
| SimpleFormatting.LaidOutBreak | src/pysimpletabshellmenu/formatting.py:48-52 | An entry that does not fit on the current line goes after a break, on a new line. |
| SimpleFormatting.LaidOutOnLine | src/pysimpletabshellmenu/formatting.py:51-52 | An entry that fits goes on the current line. |
| SimpleFormatting.FormatEntry | src/pysimpletabshellmenu/formatting.py:36-47 | The loop body computes the tab's entry, or raises KeyError. |
| SimpleFormatting.PlaceEntry | src/pysimpletabshellmenu/formatting.py:48-52 | One step of the header loop: a newline first when the entry does not fit the current line, then the entry; the text built so far stays the layout of the entries placed. |
| SimpleFormatting.FormatHeaders | src/pysimpletabshellmenu/formatting.py:32-53 | The header loop and the join compute the bar. |
| SimpleFormatting.MaxChoiceLen | src/pysimpletabshellmenu/formatting.py:21-23 | The first loop computes the longest `choice_displayed`. |
| SimpleFormatting.FormatItem | src/pysimpletabshellmenu/formatting.py:25-28 | The second loop's body computes one item's line. |
| SimpleFormatting.ItemLines | src/pysimpletabshellmenu/formatting.py:24-28 | The second loop computes one padded line per item, in order. |
| SimpleFormatting.FormatMenu | src/pysimpletabshellmenu/formatting.py:9-29 | `format_menu` returns the lines joined with newlines, or raises what building them raises. |
| SimpleMenu.IntToStr | src/pysimpletabshellmenu/menu.py:89-93 | `int_to_str` leaves no int behind: an int (or bool) becomes a truthy str, anything else is unchanged. |
| SimpleMenu.IntsToStrs | src/pysimpletabshellmenu/menu.py:108-109 | Each element is converted, by position, and the length is kept. |
| SimpleMenu.ConvertEntriesMeaning | src/pysimpletabshellmenu/menu.py:108-109 | The `valid_entries` loop succeeds exactly on a list or an empty container; afterwards the entries are the converted ones and none is an int. |
| SimpleMenu.ConvertItemStringifies | src/pysimpletabshellmenu/menu.py:103-109 | A converted item has no int choice, return value or entry, and keeps every other key. |
| SimpleMenu.ConvertItemsMeaning | src/pysimpletabshellmenu/menu.py:103-109 | The items loop converts every item, position by position, and keeps their number. |
| SimpleMenu.ConvertHeaderMeaning | src/pysimpletabshellmenu/menu.py:96-102 | A converted header is not an int; the header stays present or absent, an absent one is allowed only with exactly one tab, and other keys are kept. |
| SimpleMenu.ConvertTabStringifies | src/pysimpletabshellmenu/menu.py:95-109 | A converted tab has no int in the converted fields, keeps its header's presence and every key other than the header and `items`. |
| SimpleMenu.SetKeySame | src/pysimpletabshellmenu/menu.py:97-109 | Assigning a key the value it already holds leaves the dict unchanged. |
| SimpleMenu.ConvertEntriesIdempotent | src/pysimpletabshellmenu/menu.py:108-109 | Converting the entries a second time changes nothing. |
| SimpleMenu.ConvertItemFixed | src/pysimpletabshellmenu/menu.py:103-109 | An item whose fields need no conversion is left as it is. |
| SimpleMenu.ConvertItemIdempotent | src/pysimpletabshellmenu/menu.py:103-109 | Converting an item a second time changes nothing. |
| SimpleMenu.ConvertItemsIdempotent | src/pysimpletabshellmenu/menu.py:103-109 | Converting a tab's items a second time changes nothing. |
| SimpleMenu.ConvertTabIdempotent | src/pysimpletabshellmenu/menu.py:95-109 | Converting a tab a second time changes nothing. |
| SimpleMenu.ConvertTabsIdempotent | src/pysimpletabshellmenu/menu.py:81-109 | `_convert_int_to_string` changes nothing when it runs again on its own output, as when a second menu is built on the same dict. |
| SimpleMenu.ConvertTab | src/pysimpletabshellmenu/menu.py:92-108 | A converted tab is a dict; a missing header stays missing, which only a lone tab may do; a present header becomes `int_to_str` of the old one; every key but the header and `items` is kept. |
| SimpleMenu.SelectorsOfHeaded | src/pysimpletabshellmenu/menu.py:73-75 | With every tab headed, the selectors hold each tab's header at the tab's own position. |
| SimpleMenu.SelectorsOfUnheaded | src/pysimpletabshellmenu/menu.py:73-75 | With no tab headed, there are no selectors. |
| SimpleMenu.ConformingWidth | src/pysimpletabshellmenu/menu.py:66 | A dict conforming to the configuration schema has an int `screen_width` when it has one. |
| SimpleMenu.ValidatedWidth | src/pysimpletabshellmenu/menu.py:65-66 | After `validate_all` accepts a configuration, its `screen_width` is an int when given. |
| SimpleMenu.ParseMeaning | src/pysimpletabshellmenu/menu.py:63-79 | A parsed menu has the start tab below the tab count, the flags with their defaults, every tab converted from the tab at the same position, the selectors the truthy converted headers, one tab object per tab built with the full selector list, and a truthy top-level `items` as the only tab. |
| SimpleMenu.Parse | src/pysimpletabshellmenu/menu.py:63-79 | A parsed menu has the start tab below the tab count, one tab object per tab, and a single tab when the top-level `items` is truthy. |
| SimpleMenu.BuildMeaning | src/pysimpletabshellmenu/menu.py:30-35 | An invalid configuration raises InvalidInputError before any parsing; a built menu comes from a configuration passing the schema and both overlap checks, with `tabs` added by `validate_all`. |
| SimpleMenu.Build | src/pysimpletabshellmenu/menu.py:30-35 | A configuration the schema rejects raises InvalidInputError before anything is parsed; a built menu comes from a valid configuration. |
| SimpleMenu.ConformsAbsent | src/pysimpletabshellmenu/menu.py:65-70 | A key no schema entry names is absent from a conforming dict. |
| SimpleMenu.ValidItems | src/pysimpletabshellmenu/menu.py:67-68 | A valid configuration without `tabs` has a truthy top-level `items`. |
| SimpleMenu.ValidTabsNoItems | src/pysimpletabshellmenu/menu.py:67-70 | A valid configuration with `tabs` has no top-level `items`, so `config_tabs` is `config["tabs"]`. |
| SimpleMenu.ValidTabsHeaded | src/pysimpletabshellmenu/menu.py:96-99 | In a valid several-tab configuration every tab has an int or non-empty str header. |
| SimpleMenu.ValidTabHeader | src/pysimpletabshellmenu/menu.py:96-99 | A tab valid for the several-tab layout has an int or non-empty str header. |
| SimpleMenu.ValidTabsSingle | src/pysimpletabshellmenu/menu.py:100-102 | In a valid one-tab configuration under `tabs`, the tab has no header, so the sanity assertion holds. |
| SimpleMenu.ParseConverts | src/pysimpletabshellmenu/menu.py:67-72 | The tabs kept are the conversions of `config_tabs`, position by position. |
| SimpleMenu.TokenTruthy | src/pysimpletabshellmenu/menu.py:89-93 | An int or non-empty str header is truthy after `int_to_str`. |
| SimpleMenu.ConvertedHeaded | src/pysimpletabshellmenu/menu.py:95-99 | Tabs with int or non-empty str headers are all headed after conversion. |
| SimpleMenu.ConvertedUnheaded | src/pysimpletabshellmenu/menu.py:100-102 | A lone unheaded tab stays unheaded after conversion. |
| SimpleMenu.BuiltParses | src/pysimpletabshellmenu/menu.py:30-35 | A built menu is the parse of the dict as `validate_all` leaves it. |
| SimpleMenu.ParsedHeaded | src/pysimpletabshellmenu/menu.py:67-75 | Several headed tabs parse into tabs that are all headed. |
| SimpleMenu.ParsedOneTab | src/pysimpletabshellmenu/menu.py:67-75 | One unheaded tab parses into one unheaded tab. |
| SimpleMenu.BuiltSelectors | src/pysimpletabshellmenu/menu.py:63-79 | For a configuration the validators accept, the selectors line up with the tabs: several tabs are all headed; otherwise there is one tab and no header. |
| SimpleMenu.BuiltFromItems | src/pysimpletabshellmenu/menu.py:67-68 | A valid configuration without `tabs` parses into one unheaded tab. |
| SimpleMenu.BuiltFromTabs | src/pysimpletabshellmenu/menu.py:69-75 | A valid several-tab configuration parses into tabs that are all headed. |
| SimpleMenu.BuiltFromOneTab | src/pysimpletabshellmenu/menu.py:69-75 | A valid one-tab configuration under `tabs` parses into one unheaded tab. |
| SimpleMenu.AnnouncementMeaning | src/pysimpletabshellmenu/menu.py:111-122 | The message is printed exactly when the new tab's choice is truthy, names that choice, and has each description part exactly when it is truthy. |
| SimpleMenu.CollectFrom | src/pysimpletabshellmenu/menu.py:128-141 | The loop reads at most the lines it has, and a reply consumes a line and needs a valid cursor. |
| SimpleMenu.FirstAccepted | src/pysimpletabshellmenu/menu.py:131-140 | The position found holds the first line the tab accepts; with none found, no line is accepted. |
| SimpleMenu.Prompts | src/pysimpletabshellmenu/menu.py:130-137 | The first prompt, then "Invalid, try again" once per rejected line. |
| SimpleMenu.PromptsStep | src/pysimpletabshellmenu/menu.py:131-138 | One more rejected line adds one more "Invalid, try again" prompt. |
| SimpleMenu.CollectMeaning | src/pysimpletabshellmenu/menu.py:128-141 | `_collect_input` returns the reply to the first line the current tab accepts, having read exactly the lines up to it with one prompt each; with no accepted line it reads them all and raises EOFError. |
| SimpleMenu.RunMeaning | src/pysimpletabshellmenu/menu.py:143-164 | The cursor ends on the start tab or a valid tab; an answer's tab number is the cursor, whose menu was printed, and its tab id is None without selectors and otherwise the selector at the cursor. |
| SimpleMenu.RunFrom | src/pysimpletabshellmenu/menu.py:143-164 | An answer carries the tab number the cursor ends on, a tab that exists and whose menu could be formatted. |
| SimpleMenu.TabIdIsHeader | src/pysimpletabshellmenu/menu.py:160-161 | When every tab is headed, the answer's tab id is the header of the tab the run ends on. |
| SimpleMenu.TabIdNone | src/pysimpletabshellmenu/menu.py:162-163 | With no tab headed, the answer's tab id is None. |
| SimpleMenu.StringifyEntries | src/pysimpletabshellmenu/menu.py:108-109 | The entries loop computes the converted entries. |
| SimpleMenu.StringifyItem | src/pysimpletabshellmenu/menu.py:104-109 | The loop body for one item computes its conversion. |
| SimpleMenu.StringifyItemList | src/pysimpletabshellmenu/menu.py:103-109 | The items loop converts the items in order, stopping at the first exception. |
| SimpleMenu.StringifyTab | src/pysimpletabshellmenu/menu.py:96-109 | One pass of the outer loop computes the tab's conversion. |
| SimpleMenu.ConvertIntToString | src/pysimpletabshellmenu/menu.py:81-109 | `_convert_int_to_string` computes every tab's conversion or the first exception. |
| SimpleMenu.MakeTabs | src/pysimpletabshellmenu/menu.py:77-79 | One tab object per tab, in order, each given the full selector list, or the first exception. |
| SimpleMenu.ParseConfig | src/pysimpletabshellmenu/menu.py:63-79 | `_parse_config` computes the parsed attributes. |
| SimpleMenu.Menu.constructor | src/pysimpletabshellmenu/menu.py:30-35 | A new menu holds the dict, the parsed attributes, the start tab, the input lines and nothing printed. |
| SimpleMenu.Menu.ChangeTab | src/pysimpletabshellmenu/menu.py:111-122 | An index outside the tabs raises IndexError and changes nothing; otherwise the new tab is announced and becomes current. |
| SimpleMenu.Menu.PrintMenu | src/pysimpletabshellmenu/menu.py:124-126 | Prints the current tab's formatted menu, or raises what formatting raises and prints nothing. |
| SimpleMenu.Menu.CollectInput | src/pysimpletabshellmenu/menu.py:128-141 | Leaves the printed events, unread lines and reply that `CollectFrom` describes, without moving the cursor. |
| SimpleMenu.Menu.Run | src/pysimpletabshellmenu/menu.py:143-164 | Leaves the cursor, printed events, unread lines and answer that `RunFrom` describes; the cursor is not reset for a later run. |
| SimpleMenu.NewMenu | src/pysimpletabshellmenu/menu.py:30-35 | The caller's dict is left as `validate_all` leaves it; a menu is built exactly when `Build` succeeds, with its state, and otherwise the same exception is raised. |
| PySorted.Sorted | src/tabbedshellmenus/validators.py:193-202 | On the ints, bools and strs the schema admits, `sorted()` succeeds exactly when there is at most one value or they are all ints and bools or all strs; it keeps them as a multiset, and otherwise raises TypeError. |
| PySorted.SortedAscending | src/tabbedshellmenus/validators.py:193-202 | What `sorted()` returns is in ascending order. |
| PySorted.MixedKindsRaise | src/tabbedshellmenus/validators.py:193-202 | An int and a str cannot be sorted together, in either order. |
| PySorted.Sort | src/tabbedshellmenus/validators.py:193-202 | The insertion sort behind `sorted()` keeps the values as a multiset. |
| PySorted.SortAscending | src/tabbedshellmenus/validators.py:193-202 | Values of one orderable kind come out of the sort in ascending order. |
| PySorted.InsertAscending | src/tabbedshellmenus/validators.py:193-202 | Inserting a value of the same kind into an ascending list keeps it ascending. |
| PySorted.LeTotal | src/tabbedshellmenus/validators.py:193-202 | Two values of one orderable kind are comparable one way or the other. |
| PySorted.LeTrans | src/tabbedshellmenus/validators.py:193-202 | The order on values of one orderable kind is transitive. |
| PyValue.StrReprRoundTrip | src/pytabby/validators.py:309 | `repr()` of a str loses nothing: reading the literal back, up to its closing quote, gives the string. |
| PyValue.PlainStrRepr | src/pytabby/validators.py:309 | A str with no quote, backslash, newline, carriage return or tab is shown between single quotes as it is. |
| PyValue.HasCharIn | src/pytabby/validators.py:309 | The character test `repr()` uses to choose its quote is membership in the string. |
| PyValue.MissingKeyText | src/tabbedshellmenus/tab.py:50-51 | The KeyError text of a missing plain key is `repr()` of the key. |
| ValidatedTables.AcceptedChecks | src/pytabby/validators.py:375-386 | A configuration `validate_all` accepts has no schema message and no input-overlap message. |
| ValidatedTables.CheckedTab | src/pytabby/validators.py:334-343 | A tab whose choices the input check finds unrepeated is normalized into complete items with no table key written twice. |
| ValidatedTables.NoCollisionOf | src/tabbedshellmenus/tab.py:44-51 | Distinct selectors, no selector among the inputs and no input shared by two items mean no key of the table is written twice. |
| ValidatedTables.TabUnrepeated | src/pytabby/validators.py:334-343 | The choices of a tab, as the normalizer writes them, are unrepeated when the validator's are. |
| ValidatedTables.ValidatedTabUnambiguous | src/pytabby/validators.py:315-343 | In an accepted and normalized configuration whose two readings agree, every tab has complete items and no key of its table is written twice. |
| ValidatedTables.ValidatedInputsResolve | src/tabbedshellmenus/tab.py:44-51 | For such a configuration every table is built, selector `i` changes to tab `i`, and an item's input returns that item's value. |
| ValidatedTables.ValidatedSelectorsNameTabs | src/pytabby/validators.py:330-333 | In the multi-tab layout of an accepted configuration every tab has a selector, and selector `i` is tab `i`'s. |
| ValidatorGaps.Accepted | src/pytabby/validators.py:375-386 | `validate_all` accepts when all three checks are silent. |
| ValidatorGaps.MixedTokensNormalized | src/pytabby/normalizer.py:84-88 | Normalizing the inputs `1` and `"1"` gives `"1"` twice. |
| ValidatorGaps.MixedTable | src/tabbedshellmenus/tab.py:49-51 | With two items listing `"1"`, the item written last holds the key. |
| ValidatorGaps.CaseSensitiveCollision | src/pytabby/validators.py:341-342 | The case-sensitive check passes `1` and `"1"`; after normalization the first item's input `1` returns the second item's value. |
| ValidatorGaps.FalsyHeaderNormalized | src/pytabby/normalizer.py:97-100 | Normalizing the header `0` gives the selector `"0"`. |
| ValidatorGaps.ZeroTable | src/tabbedshellmenus/tab.py:47-51 | When the selector `"0"` is also an item input, the item, written last, holds the key. |
| ValidatorGaps.FalsyHeaderAccepted | src/pytabby/validators.py:332 | `validate_all` accepts two tabs headed `0` and `"b"` although the first lists the input `"0"`. |
| ValidatorGaps.FalsyHeaderCollision | src/pytabby/validators.py:332 | After normalization the selectors are `"0"` and `"b"`, and in the first tab typing `0` returns the item's value instead of changing tab. |

## Left out

- Reading and writing the terminal: `input()` is a list of lines held by the menu (an exhausted list raises EOFError), and `print()` appends an event to a list.
- `safe_read_yaml` and `read_json` in both menu modules are left out: they only read a file.
- src/tabbedshellmenus/formatting.py is not part of this model: the `tabbedshellmenus` menu records a `MenuShown` event naming the current tab instead of the formatted text.
- The `tabbedshellmenus` menu is modelled with the `pytabby` validators and normalizer, whose key names (`tab_header_input`, `items`, `item_inputs`, `item_returns`) its tab table reads.
- src/pysimpletabshellmenu/tab.py is not part of this model: the `pysimpletabshellmenu` menu takes the tab constructor as a parameter (`TabMaker`), seen through the header attributes and replies it produces.
- Floats and other objects are one kind of value (`VOther`) known only by their `str()`; dict keys are strings only.
- `str.lower()` lowers ASCII letters only.
- Aliasing between the caller's dict and the menu's lists, and `deepcopy`, are not modelled: every dict or list is a value, and in-place updates of the caller's dict are modelled by reassigning the `Dict` object's entries.
- SimpleMenu.NewMenu: the int-to-str conversion done by `_convert_int_to_string` is kept in the menu's `configTabs`, not written back into the caller's dict.
- SimpleMenu.ConvertEntries: a non-empty dict under `valid_entries` raises TypeError in the model, while Python would add keys to it; the validators reject such a configuration before conversion.
- PyValue.StrRepr: characters other than quotes, backslash, newline, carriage return and tab are shown as they are; Python's `\x..` and `\u..` escapes of non-printable characters are not modelled.
- PyValue.MissingKey: the KeyError text is the key between single quotes, which is `repr()` of every key the library reads (`MissingKeyText`).
- PySorted.Sorted: only ints, bools and strs are orderable. Two or more tuples raise TypeError in the model, where Python compares them element by element, and floats are `VOther` values known only by their `str()`. Neither reaches `sorted()` through `validate_all`, whose entry schema admits only ints and strs (src/tabbedshellmenus/validators.py:47), and `validate_all` turns every exception into InvalidInputError; the difference shows only when `validate_no_input_value_overlap` is called on its own.
- LegacyOverlap.ShownMeaning: inherits the limit above; a list of two or more tuples gives TypeError instead of the overlap message.
- The texts of the schema package's errors are modelled by the key, value and lambda lines the validators read from them, not character for character.
- Each package defines its own `InvalidInputError` and `ValueOverlapError`; the model has one class of each, named with the `pytabby` module path. The only code that reads a class name, the capital-S test in `schema_is_valid`, gives the same answer for every package's name.
