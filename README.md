# te_json: the TE streaming JSON writer

This project models the JSON writer of the Test Environment (`lib/tools/te_json.h`) and
the self-test that pins down its output (`suites/selftest/ts/tools/json.c`).

The writer appends compact JSON text to a destination string. A context
`te_json_ctx_t` holds three things:

- the destination;
- a fixed stack `nesting[TE_JSON_MAX_NEST]` of levels, each a compound kind
  (TOPLEVEL, ARRAY, OBJECT, OBJECT_VALUE) with a count of the items already added;
- `current_level`, the index of the innermost level.

Every `te_json_*` call writes a separator where one is due, then its token, and
updates the stack.

The project has these files:

- `json_escape.dfy` (module `JsonEscape`): the escaper behind `te_json_add_string`.
  It writes short escapes for `"`, `\`, `/`, backspace, form feed, newline, carriage
  return and tab. It writes `\u00xx` with lower-case hexadecimal digits for every
  other control character and DEL, and copies every other character. `Unescape` is a
  decoder of string bodies after section 7 of RFC 8259 that refuses surrogate escapes.
  It is proved to undo the escaper: `Unescape(Escape(s)) == Some(s)` for every `s`
  (a left inverse only).
- `json_number.dfy` (module `JsonNumber`): the `%jd` rendering of an `intmax_t` as a
  minimal signed decimal, proved to read back as the same number.
- `json_value.dfy` (module `JsonValue`): JSON values and `Serialize`, the compact
  serializer of sections 4 to 7 of RFC 8259, except that object keys are written as
  given, without escaping (te_json.h:211). A key holding `"`, `\` or a control
  character therefore does not give RFC 8259 text. `Serialize` is the reference the
  writer is proved against.
- `json_state.dfy` (module `JsonState`): every operation as a function from context to
  context.
  - A context is the text written so far and `nesting[0..current_level]`.
  - `Valid` is an invariant that contains every stack the API can reach, and some
    stacks it cannot reach.
  - `Written(c, v)` is `c` after one complete value `v`: the text gains the
    separator and `Serialize(v)`, and the stack counts one item.
  - Each writer is proved to equal `Written` of the value it stands for. The
    array and object writers are proved equal to it whatever they hold.
- `te_json.dfy` (module `TeJson`): the context as a class.
  - It has the destination text, the array `nesting` of length 16 and `currentLevel`,
    all updated in place.
  - Every method that stands for a `te_json_*` call is proved to move the class's
    `Model()` exactly as the `JsonState` function of the same name does. The three
    helpers have contracts of their own: `Push` gives the stack with one more level,
    and the loop bodies `AddArrayStrEntry` and `AddKvpairMember` take the model from
    entry `i` to entry `i + 1` of `ArrayStrItems` and `KvpairItems`.
  - `AddArrayStr` and `AddKvpair` loop over their input, one `te_json_*` call per
    entry.
- `selftest_json.dfy` (module `JsonSelftest`): the self-test.
  - The nine drivers are methods on a `JsonContext`, with the loops of the C code.
    Each is proved to write exactly one value.
  - `CheckJson` is proved to pass exactly when the reference serializer gives the
    expected text.
  - Each test step is a method whose `ensures passed` is proved from lemmas that
    compute the expected texts.

### Decisions

- The implementation file `lib/tools/te_json.c` is not part of this model. The
  behaviour of the extern functions follows their documentation in the header and the
  texts the self-test expects.
- An item is counted in its level when it begins, after a comma is written if that
  ARRAY or OBJECT level already holds an item. An open array or object therefore
  already counts as one item of its parent.
- `te_json_add_key` writes `"key":` without escaping and pushes an OBJECT_VALUE level.
  The next complete value pops it again: a scalar right away, a compound when it is
  ended.
- `te_json_end` at TOPLEVEL changes nothing, as the header documents.
- The header says a misuse makes an assertion fire, without naming the checks. The
  model turns these misuses into `requires` clauses:
  - a value inside an object needs a key first;
  - a key needs an object;
  - an object cannot be ended while a key waits for its value;
  - no level may be pushed past the last entry of `nesting`.
- Because a waiting key takes an OBJECT_VALUE level of its own, it uses one entry of
  `nesting[]`. So `AddKey`, `AddKeyStr` and `AddKeyEnum` need one free level and
  `AddKvpair` needs two. An object at `current_level` 15 cannot take a key, and objects
  nested through keys reach at most 8 deep, not the 16 levels of `TE_JSON_MAX_NEST`.
  Every call in the self-test starts at level 0 and stays well inside these bounds.
- Several values at the top level are written one after another with no separator.
- NULL- and 0-terminated C arrays are given as the sequence of their elements before
  the terminator. The `te_kvpair_h` list is given as its pairs in list order.

## Model

| member | source | states |
|---|---|---|
| JsonEscape.EscapeChar | lib/tools/te_json.h:161-168 | a character is copied unchanged exactly when it needs no escape; `"`, `\`, `/`, backspace, form feed, newline, carriage return and tab get a two-character escape; every other control character and DEL gets the six characters `\u00` and two lower-case hexadecimal digits |
| JsonEscape.EscapeNoControl | lib/tools/te_json.h:164-166 | the escaped text of any string holds no raw C0 control character (as RFC 8259 demands) and no raw DEL (this library's choice) |
| JsonEscape.EscapePlain | lib/tools/te_json.h:161-168 | a string with nothing to escape is written as it is |
| JsonEscape.EscapeAppend | lib/tools/te_json.h:161-168 | each character is escaped on its own: the escape of two strings joined is the two escapes joined |
| JsonEscape.UnescapeEscapeChar | lib/tools/te_json.h:161-168 | reading back the escape of one character, followed by any text, gives that character back first |
| JsonEscape.UnescapeEscape | lib/tools/te_json.h:161-168 | reading back the escaped text of any string gives exactly that string: escaping loses nothing |
| JsonEscape.EscapeInjective | lib/tools/te_json.h:161-168 | two strings with the same escaped text are equal |
| JsonNumber.NatToDecimal | lib/tools/te_json.h:137-141 | the digits of a natural number have no leading zero and denote that number |
| JsonNumber.IntToDecimal | lib/tools/te_json.h:137-141 | the rendering of an integer follows the JSON integer grammar (no `+`, no leading zeros) and starts with `-` exactly when the integer is negative |
| JsonNumber.IntToDecimalRoundTrip | lib/tools/te_json.h:137-141 | parsing the rendering of any integer gives that integer back |
| JsonNumber.IntToDecimalInjective | lib/tools/te_json.h:137-141 | different integers render differently |
| JsonState.Init | lib/tools/te_json.h:80-87 | a fresh context is valid, leaves the destination text as it was, is at level 0, and level 0 is TOPLEVEL with no items |
| JsonState.ValidPush | lib/tools/te_json.h:46-55 | pushing a level below the limit of 16 keeps the stack invariant |
| JsonState.ValidClose | lib/tools/te_json.h:196-205 | closing an open array or object keeps the stack invariant and leaves the stack at least one level shorter |
| JsonState.AddSimple | lib/tools/te_json.h:89-105 | the rendered text is written as one complete value, after a comma when the level already holds items |
| JsonState.AddNull | lib/tools/te_json.h:107-116 | writes the value `null` |
| JsonState.AddBool | lib/tools/te_json.h:118-128 | writes the value `true` or `false` |
| JsonState.AddInteger | lib/tools/te_json.h:131-141 | writes the integer as one value, its text being the minimal signed decimal |
| JsonState.AddFloat | lib/tools/te_json.h:143-159 | a value that is not finite writes `null`, exactly as AddNull does; a finite one writes its rendering at the given precision |
| JsonState.AddString | lib/tools/te_json.h:161-176 | writes the string as one value: the escaped text between double quotes |
| JsonState.StartArray | lib/tools/te_json.h:178-185 | writes the separator and `[`, counts the array as an item of the enclosing level and pushes an empty ARRAY level |
| JsonState.StartObject | lib/tools/te_json.h:187-194 | writes the separator and `{`, counts the object as an item of the enclosing level and pushes an empty OBJECT level |
| JsonState.End | lib/tools/te_json.h:196-205 | at TOPLEVEL it changes neither the text nor the stack; otherwise it writes the closing bracket and pops the level, so the compound completes one value of its parent |
| JsonState.CompoundWritten | lib/tools/te_json.h:178-205 | an array or object opened, filled with any text and ended is one complete value of the enclosing level |
| JsonState.AddKey | lib/tools/te_json.h:207-214 | inside an object, writes the separator and `"key":` unescaped (a NULL key as an empty one) and then expects a value |
| JsonState.KeyThenString | lib/tools/te_json.h:225-233 | a key followed by a string adds exactly one member to the object and leaves the object innermost |
| JsonState.AddKeyStr | lib/tools/te_json.h:216-233 | with a NULL value the context and text are unchanged; otherwise exactly one member `"key":"value"` is added to the object |
| JsonState.AddKeyEnum | lib/tools/te_json.h:235-252 | a value missing from the mapping, or mapped to NULL, leaves everything unchanged; otherwise the member carries the value's name |
| JsonState.StrItems | lib/tools/te_json.h:254-266 | the values of the array are never more than the entries, and exactly as many when NULL entries are kept |
| JsonState.WriteArrayItem | lib/tools/te_json.h:49-55 | a value written into an array holding some items extends the comma-separated list of their texts by one |
| JsonState.ArrayEntryWritten | lib/tools/te_json.h:254-266 | writing one more entry of the list extends the array by that entry's value, or by nothing for a skipped NULL |
| JsonState.ArrayStrItems | lib/tools/te_json.h:254-266 | after the first n entries the array's text is the comma-separated values of those entries |
| JsonState.AddArrayStr | lib/tools/te_json.h:254-266 | writes one array whose items are the strings in order; NULL entries are dropped with `skip_null` (no slot, no comma) and are `null` otherwise |
| JsonState.WriteObjectMember | lib/tools/te_json.h:49-55 | a member written into an object holding some members extends the comma-separated list of their texts by one |
| JsonState.PairWritten | lib/tools/te_json.h:268-274 | writing one more pair extends the object by that pair's member |
| JsonState.KvpairItems | lib/tools/te_json.h:268-274 | after the first n pairs the object's text is the comma-separated members of those pairs |
| JsonState.AddKvpair | lib/tools/te_json.h:268-274 | writes one object with a string member per pair, in list order |
| JsonState.ArrayGrows | lib/tools/te_json.h:178-185 | a value written into an array holding some items gives the array holding one more item |
| JsonState.ObjectGrows | lib/tools/te_json.h:216-233 | a key with a string value written into an object holding some members gives the object holding one more member |
| JsonState.CompoundCloses | lib/tools/te_json.h:196-205 | ending an array or object that holds the texts of a value's items completes exactly that value |
| TeJson.JsonContext.constructor | lib/tools/te_json.h:75-87 | the new context is the initial context over the given destination |
| TeJson.JsonContext.AddSimple | lib/tools/te_json.h:89-105 | the context changes in place as JsonState.AddSimple says |
| TeJson.JsonContext.AddNull | lib/tools/te_json.h:107-116 | the context changes in place as JsonState.AddNull says |
| TeJson.JsonContext.AddBool | lib/tools/te_json.h:118-128 | the context changes in place as JsonState.AddBool says |
| TeJson.JsonContext.AddInteger | lib/tools/te_json.h:131-141 | the context changes in place as JsonState.AddInteger says |
| TeJson.JsonContext.AddFloat | lib/tools/te_json.h:143-159 | the context changes in place as JsonState.AddFloat says |
| TeJson.JsonContext.AddString | lib/tools/te_json.h:161-176 | the context changes in place as JsonState.AddString says |
| TeJson.JsonContext.StartArray | lib/tools/te_json.h:178-185 | the context changes in place as JsonState.StartArray says |
| TeJson.JsonContext.StartObject | lib/tools/te_json.h:187-194 | the context changes in place as JsonState.StartObject says |
| TeJson.JsonContext.End | lib/tools/te_json.h:196-205 | the context changes in place as JsonState.End says |
| TeJson.JsonContext.AddKey | lib/tools/te_json.h:207-214 | the context changes in place as JsonState.AddKey says |
| TeJson.JsonContext.AddKeyStr | lib/tools/te_json.h:216-233 | the context changes in place as JsonState.AddKeyStr says |
| TeJson.JsonContext.AddKeyEnum | lib/tools/te_json.h:235-252 | the context changes in place as JsonState.AddKeyEnum says |
| TeJson.JsonContext.AddArrayStr | lib/tools/te_json.h:254-266 | the loop over the entries changes the context as JsonState.AddArrayStr says |
| TeJson.JsonContext.AddKvpair | lib/tools/te_json.h:268-274 | the loop over the pairs changes the context as JsonState.AddKvpair says |
| JsonSelftest.DoJsonString | suites/selftest/ts/tools/json.c:26-30 | writes the string as one value |
| JsonSelftest.DoJsonInt | suites/selftest/ts/tools/json.c:32-36 | writes the integer as one value |
| JsonSelftest.DoJsonFloat | suites/selftest/ts/tools/json.c:38-42 | writes `null` for a value that is not finite, and the six-digit rendering otherwise |
| JsonSelftest.DoJsonArray | suites/selftest/ts/tools/json.c:44-55 | the loop writes one array of the strings in order |
| JsonSelftest.DoJsonMember | suites/selftest/ts/tools/json.c:69-73 | a key and then its string add one member to the object |
| JsonSelftest.DoJsonObject | suites/selftest/ts/tools/json.c:62-75 | the loop writes one object with a member per pair, in order |
| JsonSelftest.DoJsonOptkeys | suites/selftest/ts/tools/json.c:77-87 | the loop writes one object with a member for exactly the pairs that have a value |
| JsonSelftest.DoJsonKvpair | suites/selftest/ts/tools/json.c:89-101 | the pairs collected in order and written as a list give the same object as DoJsonObject |
| JsonSelftest.DoJsonIntRow | suites/selftest/ts/tools/json.c:112-119 | the inner loop writes one array of the row's integers |
| JsonSelftest.DoJsonArrayOfArrays | suites/selftest/ts/tools/json.c:103-122 | the nested loops write one array holding an array per row; each closed row counts as one item |
| JsonSelftest.DoJsonArrayOfStr | suites/selftest/ts/tools/json.c:130-136 | writes one array of the entries as `skip_null` says |
| JsonSelftest.RunDriver | suites/selftest/ts/tools/json.c:139-145 | whichever driver is called writes exactly its one value |
| JsonState.WrittenLevel | suites/selftest/ts/tools/json.c:145-148 | one complete value leaves `current_level` as it was, or one lower when it was the value of a waiting key: starts and ends balance |
| JsonSelftest.CheckJson | suites/selftest/ts/tools/json.c:138-157 | on a fresh context `current_level` is back at 0 after the driver, so the check passes exactly when the serialized value equals the expected text |
| JsonSelftest.IntegerTexts | suites/selftest/ts/tools/json.c:164-167 | 0, INT_MAX and -1 are written as `0`, `2147483647` and `-1` |
| JsonSelftest.EscapeTableText | suites/selftest/ts/tools/json.c:180-183 | the escape of the table is its pieces in order: `\u0001`, `\u0007`, `\b`, `\f`, `\n`, `\r`, `\t`, `\u000b`, `\\`, `\/`, `\"`, `\u007f` |
| JsonSelftest.EscapeTableString | suites/selftest/ts/tools/json.c:180-183 | the string of all the characters that need escaping is written as the expected quoted text |
| JsonSelftest.StringTexts | suites/selftest/ts/tools/json.c:178 | the empty string is written as `""` |
| JsonSelftest.PlainStringText | suites/selftest/ts/tools/json.c:179 | `abc def` is written unchanged in quotes |
| JsonSelftest.ArrayTexts | suites/selftest/ts/tools/json.c:186-187 | no string gives `[]` and one gives `["a"]` |
| JsonSelftest.ArrayTwoText | suites/selftest/ts/tools/json.c:188-189 | two strings give `["a","b"]`, with one comma between the items |
| JsonSelftest.ObjectTexts | suites/selftest/ts/tools/json.c:192-194 | no pair gives `{}` and one gives `{"a":"b"}` |
| JsonSelftest.ObjectTwoText | suites/selftest/ts/tools/json.c:195-198 | two pairs give `{"a":"b","c":"d"}` |
| JsonSelftest.NewlineString | suites/selftest/ts/tools/json.c:207-209 | a newline is written as `"\n"` |
| JsonSelftest.OptKeysTexts | suites/selftest/ts/tools/json.c:201-205 | no pair and a pair without a value both give `{}`, and a pair with a value gives `{"a":"b"}` |
| JsonSelftest.OptKeysNewlineText | suites/selftest/ts/tools/json.c:206-209 | two pairs with values give `{"a":"b","c":"\n"}` |
| JsonSelftest.OptKeysMissingText | suites/selftest/ts/tools/json.c:210-213 | a pair without a value vanishes and leaves no comma behind: `{"c":"\n"}` |
| JsonSelftest.ArrayOfArraysTexts | suites/selftest/ts/tools/json.c:216-220 | no row gives `[]`, the row `1` gives `[[1]]` and one empty row gives `[[]]` |
| JsonSelftest.ArrayOfRowText | suites/selftest/ts/tools/json.c:221-222 | the row `1, 2` gives `[[1,2]]` |
| JsonSelftest.ArrayOfRowsText | suites/selftest/ts/tools/json.c:223-224 | two rows give `[[1,2],[3,4]]`: a closed inner array counts as one item |
| JsonSelftest.ArrayOfStrTexts | suites/selftest/ts/tools/json.c:227-233 | no entry gives `[]` and one gives `["abc"]` |
| JsonSelftest.ArrayOfTwoStrText | suites/selftest/ts/tools/json.c:234-237 | two entries give `["abc","def"]` |
| JsonSelftest.SkipNullText | suites/selftest/ts/tools/json.c:238-241 | with `skip_null` a lone NULL gives `[]` |
| JsonSelftest.SkipNullFirstText | suites/selftest/ts/tools/json.c:242-245 | with `skip_null` a NULL before `abc` leaves no comma: `["abc"]` |
| JsonSelftest.KeepNullText | suites/selftest/ts/tools/json.c:246-249 | without `skip_null` a lone NULL gives `[null]` |
| JsonSelftest.KeepNullLastText | suites/selftest/ts/tools/json.c:250-253 | without `skip_null`, `abc` then NULL gives `["abc",null]` |
| JsonSelftest.TestIntegers | suites/selftest/ts/tools/json.c:164-167 | every check of the step passes |
| JsonSelftest.TestFloats | suites/selftest/ts/tools/json.c:174-175 | the checks of INFINITY and NAN against `null` pass |
| JsonSelftest.TestStrings | suites/selftest/ts/tools/json.c:177-183 | every check of the step passes |
| JsonSelftest.TestArrays | suites/selftest/ts/tools/json.c:185-189 | every check of the step passes |
| JsonSelftest.TestObjects | suites/selftest/ts/tools/json.c:191-198 | every check of the step passes |
| JsonSelftest.TestOptKeys | suites/selftest/ts/tools/json.c:200-213 | every check of the step passes |
| JsonSelftest.TestArraysOfArrays | suites/selftest/ts/tools/json.c:215-224 | every check of the step passes |
| JsonSelftest.TestArraysOfStr | suites/selftest/ts/tools/json.c:226-253 | every check of the step passes |
| JsonSelftest.TestKvpairs | suites/selftest/ts/tools/json.c:255-262 | every check of the step passes, with the same texts as the objects step |

## Left out

- JsonSelftest.TestFloats: the four finite checks (`0`, `0.5`, `-1`, `1e+06`) are not
  modelled. They depend on the C library's `%.*g` rendering of doubles, which the model
  keeps abstract: a finite double carries its own rendering function.
- The printf-style formatting of `te_json_add_simple` and `te_json_add_string`: the
  model takes the already rendered text. The drivers pass their strings through
  `"%s"`, which copies them.
- `te_string` storage and growth, `TE_STRING_INIT` and `te_string_free`: the destination
  is a string value. A context that shares its destination with other code (aliasing)
  is not modelled.
- The `te_kvpair_h` list (`te_kvpair_init`, `te_kvpair_add`, `te_kvpair_fini`): it is
  a sequence of pairs in insertion order.
- `te_enum_map_from_any_value`: it is a lookup in a map from integers to optional names.
- Characters are Unicode code points. No encoding, no non-ASCII handling and no NUL
  (a C string cannot hold one) are modelled. NUL would be escaped like any other
  control character.
- What happens on a misuse of the API (the header says an assertion fires): the model's preconditions exclude those calls.
- In `do_json_array_of_arrays` a row ends at its first 0, so no row the C driver is
  given can hold a 0. The model's rows are the integers before the terminator. It does
  not forbid a 0 among them, which makes it more general than the C driver.
- The test harness (`TEST_START`, `TEST_STEP`, `TEST_VERDICT`, `ERROR`, `main`, the
  cleanup label) and the logging in `check_json`: a test step is a method that returns
  whether all its checks pass.
