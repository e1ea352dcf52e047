/**
 * The JSON self-test of suites/selftest/ts/tools/json.c: the drivers that compose the
 * te_json API, `check_json`, and its test steps with their expected texts.
 *
 * A NULL- or 0-terminated C array is given as the sequence of its elements before the
 * terminator; `array_of_str` is its `skip_null` flag and its `n_strs` entries.
 * Each driver is proved to write exactly one JSON value, the one the reference
 * serializer of JsonValue gives for its input, and each test step to produce the
 * expected text with `current_level` back at 0.
 */
module JsonSelftest {
  import opened Wrappers
  import opened JsonEscape
  import opened JsonNumber
  import opened JsonValue
  import opened JsonState
  import opened TeJson

  /** C's int, the element type of the rows of do_json_array_of_arrays. */
  type CInt = x: int | -0x8000_0000 <= x < 0x8000_0000

  /** The members te_json_add_key_str writes for key/optional-value pairs: those with a value. */
  function PresentMembers(kv: seq<(string, Option<string>)>): (r: seq<Member>)
    ensures |r| <= |kv|
  {
    if kv == [] then []
    else
      var front := PresentMembers(kv[..|kv| - 1]);
      var (key, val) := kv[|kv| - 1];
      if val.Some? then front + [Member(key, Str(val.value))] else front
  }

  /** Rows of integers as an array of arrays. */
  function IntRows(rows: seq<seq<CInt>>): (r: seq<Json>)
    ensures |r| == |rows|
  {
    seq(|rows|, k requires 0 <= k < |rows| => Arr(Ints(rows[k])))
  }

  lemma IntRowsPrefix(rows: seq<seq<CInt>>, i: nat)
    requires i < |rows|
    ensures IntRows(rows[..i + 1]) == IntRows(rows[..i]) + [Arr(Ints(rows[i]))]
  {
    assert forall k :: 0 <= k <= i ==> IntRows(rows[..i + 1])[k] == (IntRows(rows[..i]) + [Arr(Ints(rows[i]))])[k];
  }

  // ---------------------------------------------------------------------------
  // The drivers

  /** do_json_string */
  method DoJsonString(ctx: JsonContext, val: string)
    requires ctx.Valid() && AcceptsValue(ctx.Model())
    modifies ctx, ctx.nesting
    ensures ctx.Valid() && ctx.Model() == Written(old(ctx.Model()), Str(val))
  {
    ctx.AddString(val);
  }

  /** do_json_int */
  method DoJsonInt(ctx: JsonContext, val: IntMax)
    requires ctx.Valid() && AcceptsValue(ctx.Model())
    modifies ctx, ctx.nesting
    ensures ctx.Valid() && ctx.Model() == Written(old(ctx.Model()), Int(val))
  {
    ctx.AddInteger(val);
  }

  /** do_json_float: six significant digits. */
  method DoJsonFloat(ctx: JsonContext, val: Double)
    requires ctx.Valid() && AcceptsValue(ctx.Model())
    modifies ctx, ctx.nesting
    ensures ctx.Valid()
    ensures ctx.Model() == Written(old(ctx.Model()), if val.Finite? then Raw(val.render(6)) else Null)
  {
    ctx.AddFloat(val, 6);
  }

  /** do_json_array */
  method DoJsonArray(ctx: JsonContext, strs: seq<string>)
    requires ctx.Valid() && AcceptsValue(ctx.Model()) && CanPush(ctx.Model())
    modifies ctx, ctx.nesting
    ensures ctx.Valid() && ctx.Model() == Written(old(ctx.Model()), Arr(Strs(strs)))
  {
    ghost var start := ctx.Model();
    ctx.StartArray();
    FilledEmpty(start, Array);
    var i := 0;
    while i < |strs|
      invariant 0 <= i <= |strs|
      invariant ctx.nesting.Length == MaxNest && ctx.currentLevel < MaxNest
      invariant ctx.Model() == Filled(start, Array, Texts(Strs(strs[..i])))
      invariant ctx.Valid()
    {
      ArrayGrows(start, Strs(strs[..i]), Str(strs[i]));
      ctx.AddString(strs[i]);
      StrsPrefix(strs, i);
      i := i + 1;
    }
    assert strs[..i] == strs;
    SerializeArr(Strs(strs));
    CompoundCloses(start, Array, Texts(Strs(strs)), Arr(Strs(strs)));
    ctx.End();
  }

  /** The body of the loop of do_json_object: te_json_add_key and then te_json_add_string. */
  method DoJsonMember(ctx: JsonContext, key: string, val: string)
    requires ctx.Valid() && Top(ctx.Model().nesting).kind == Object && CanPush(ctx.Model())
    modifies ctx, ctx.nesting
    ensures ctx.Valid() && ctx.Model() == AddKeyStr(old(ctx.Model()), Some(key), Some(val))
  {
    KeyThenString(ctx.Model(), Some(key), val);
    ctx.AddKey(Some(key));
    ctx.AddString(val);
  }

  /** do_json_object: a key and then a string value for every pair. */
  method DoJsonObject(ctx: JsonContext, kv: seq<(string, string)>)
    requires ctx.Valid() && AcceptsValue(ctx.Model())
    requires CurrentLevel(ctx.Model()) + (if |kv| == 0 then 1 else 2) < MaxNest
    modifies ctx, ctx.nesting
    ensures ctx.Valid() && ctx.Model() == Written(old(ctx.Model()), Obj(StrMembers(kv)))
  {
    ghost var start := ctx.Model();
    ctx.StartObject();
    FilledEmpty(start, Object);
    var i := 0;
    while i < |kv|
      invariant 0 <= i <= |kv|
      invariant ctx.nesting.Length == MaxNest && ctx.currentLevel < MaxNest
      invariant ctx.Model() == Filled(start, Object, MemberTexts(StrMembers(kv[..i])))
      invariant ctx.Valid()
    {
      var (key, val) := kv[i];
      ObjectGrows(start, StrMembers(kv[..i]), key, val);
      DoJsonMember(ctx, key, val);
      StrMembersPrefix(kv, i);
      i := i + 1;
    }
    assert kv[..i] == kv;
    SerializeObj(StrMembers(kv));
    CompoundCloses(start, Object, MemberTexts(StrMembers(kv)), Obj(StrMembers(kv)));
    ctx.End();
  }

  /** do_json_optkeys: te_json_add_key_str for every pair, so pairs without a value vanish. */
  method DoJsonOptkeys(ctx: JsonContext, kv: seq<(string, Option<string>)>)
    requires ctx.Valid() && AcceptsValue(ctx.Model())
    requires CurrentLevel(ctx.Model()) + (if |kv| == 0 then 1 else 2) < MaxNest
    modifies ctx, ctx.nesting
    ensures ctx.Valid() && ctx.Model() == Written(old(ctx.Model()), Obj(PresentMembers(kv)))
  {
    ghost var start := ctx.Model();
    ctx.StartObject();
    FilledEmpty(start, Object);
    var i := 0;
    while i < |kv|
      invariant 0 <= i <= |kv|
      invariant ctx.nesting.Length == MaxNest && ctx.currentLevel < MaxNest
      invariant ctx.Model() == Filled(start, Object, MemberTexts(PresentMembers(kv[..i])))
      invariant ctx.Valid()
    {
      var (key, val) := kv[i];
      assert kv[..i + 1][..i] == kv[..i];
      if val.Some? {
        ObjectGrows(start, PresentMembers(kv[..i]), key, val.value);
      }
      ctx.AddKeyStr(Some(key), val);
      i := i + 1;
    }
    assert kv[..i] == kv;
    var members := PresentMembers(kv);
    SerializeObj(members);
    CompoundCloses(start, Object, MemberTexts(members), Obj(members));
    ctx.End();
  }

  /** do_json_kvpair: the pairs are added to a list in order, and the list is written. */
  method DoJsonKvpair(ctx: JsonContext, kv: seq<(string, string)>)
    requires ctx.Valid() && AcceptsValue(ctx.Model())
    requires CurrentLevel(ctx.Model()) + (if |kv| == 0 then 1 else 2) < MaxNest
    modifies ctx, ctx.nesting
    ensures ctx.Valid() && ctx.Model() == Written(old(ctx.Model()), Obj(StrMembers(kv)))
  {
    var kvp: seq<(string, string)> := [];
    var i := 0;
    while i < |kv|
      invariant 0 <= i <= |kv| && kvp == kv[..i]
    {
      kvp := kvp + [kv[i]];
      i := i + 1;
    }
    assert kvp == kv;
    ctx.AddKvpair(kvp);
  }

  /** The inner loop of do_json_array_of_arrays: one row as an array of integers. */
  method DoJsonIntRow(ctx: JsonContext, row: seq<CInt>)
    requires ctx.Valid() && AcceptsValue(ctx.Model()) && CanPush(ctx.Model())
    modifies ctx, ctx.nesting
    ensures ctx.Valid() && ctx.Model() == Written(old(ctx.Model()), Arr(Ints(row)))
  {
    ghost var start := ctx.Model();
    ctx.StartArray();
    FilledEmpty(start, Array);
    var j := 0;
    while j < |row|
      invariant 0 <= j <= |row|
      invariant ctx.nesting.Length == MaxNest && ctx.currentLevel < MaxNest
      invariant ctx.Model() == Filled(start, Array, Texts(Ints(row[..j])))
      invariant ctx.Valid()
    {
      ArrayGrows(start, Ints(row[..j]), Int(row[j]));
      ctx.AddInteger(row[j]);
      IntsPrefix(row, j);
      j := j + 1;
    }
    assert row[..j] == row;
    SerializeArr(Ints(row));
    CompoundCloses(start, Array, Texts(Ints(row)), Arr(Ints(row)));
    ctx.End();
  }

  /** do_json_array_of_arrays */
  method DoJsonArrayOfArrays(ctx: JsonContext, rows: seq<seq<CInt>>)
    requires ctx.Valid() && AcceptsValue(ctx.Model())
    requires CurrentLevel(ctx.Model()) + (if |rows| == 0 then 1 else 2) < MaxNest
    modifies ctx, ctx.nesting
    ensures ctx.Valid() && ctx.Model() == Written(old(ctx.Model()), Arr(IntRows(rows)))
  {
    ghost var start := ctx.Model();
    ctx.StartArray();
    FilledEmpty(start, Array);
    var i := 0;
    while i < |rows|
      invariant 0 <= i <= |rows|
      invariant ctx.nesting.Length == MaxNest && ctx.currentLevel < MaxNest
      invariant ctx.Model() == Filled(start, Array, Texts(IntRows(rows[..i])))
      invariant ctx.Valid()
    {
      ArrayGrows(start, IntRows(rows[..i]), Arr(Ints(rows[i])));
      DoJsonIntRow(ctx, rows[i]);
      IntRowsPrefix(rows, i);
      i := i + 1;
    }
    assert rows[..i] == rows;
    SerializeArr(IntRows(rows));
    CompoundCloses(start, Array, Texts(IntRows(rows)), Arr(IntRows(rows)));
    ctx.End();
  }

  /** do_json_array_of_str */
  method DoJsonArrayOfStr(ctx: JsonContext, skipNull: bool, strs: seq<Option<string>>)
    requires ctx.Valid() && AcceptsValue(ctx.Model()) && CanPush(ctx.Model())
    modifies ctx, ctx.nesting
    ensures ctx.Valid() && ctx.Model() == Written(old(ctx.Model()), Arr(StrItems(skipNull, strs)))
  {
    ctx.AddArrayStr(skipNull, strs);
  }

  // ---------------------------------------------------------------------------
  // check_json and the test steps

  /** A driver of check_json together with the value it is given. */
  datatype Driver =
    | JsonString(s: string)
    | JsonInt(i: IntMax)
    | JsonFloat(d: Double)
    | JsonArray(strs: seq<string>)
    | JsonObject(pairs: seq<(string, string)>)
    | JsonOptkeys(optPairs: seq<(string, Option<string>)>)
    | JsonKvpair(kvPairs: seq<(string, string)>)
    | JsonArrayOfArrays(rows: seq<seq<CInt>>)
    | JsonArrayOfStr(skipNull: bool, entries: seq<Option<string>>)

  /** The one JSON value a driver writes. */
  function DriverValue(d: Driver): Json {
    match d
    case JsonString(s) => Str(s)
    case JsonInt(i) => Int(i)
    case JsonFloat(val) => if val.Finite? then Raw(val.render(6)) else Null
    case JsonArray(strs) => Arr(Strs(strs))
    case JsonObject(pairs) => Obj(StrMembers(pairs))
    case JsonOptkeys(optPairs) => Obj(PresentMembers(optPairs))
    case JsonKvpair(kvPairs) => Obj(StrMembers(kvPairs))
    case JsonArrayOfArrays(rows) => Arr(IntRows(rows))
    case JsonArrayOfStr(skipNull, entries) => Arr(StrItems(skipNull, entries))
  }

  /** The call check_json makes through its function argument `func`. */
  method RunDriver(ctx: JsonContext, d: Driver)
    requires ctx.Valid() && AcceptsValue(ctx.Model()) && CurrentLevel(ctx.Model()) + 2 < MaxNest
    modifies ctx, ctx.nesting
    ensures ctx.Valid() && ctx.Model() == Written(old(ctx.Model()), DriverValue(d))
  {
    match d {
      case JsonString(s) => DoJsonString(ctx, s);
      case JsonInt(i) => DoJsonInt(ctx, i);
      case JsonFloat(val) => DoJsonFloat(ctx, val);
      case JsonArray(strs) => DoJsonArray(ctx, strs);
      case JsonObject(pairs) => DoJsonObject(ctx, pairs);
      case JsonOptkeys(optPairs) => DoJsonOptkeys(ctx, optPairs);
      case JsonKvpair(kvPairs) => DoJsonKvpair(ctx, kvPairs);
      case JsonArrayOfArrays(rows) => DoJsonArrayOfArrays(ctx, rows);
      case JsonArrayOfStr(skipNull, entries) => DoJsonArrayOfStr(ctx, skipNull, entries);
    }
  }

  /**
   * check_json: runs the driver on a fresh context over an empty string and passes when
   * `current_level` is back at 0 and the text is the expected one. The first check can
   * never fail, so the verdict depends on the text alone.
   */
  method CheckJson(d: Driver, expected: string) returns (passed: bool)
    ensures passed <==> Serialize(DriverValue(d)) == expected
  {
    var ctx := new JsonContext("");
    RunDriver(ctx, d);
    WrittenLevel(Init(""), DriverValue(d));
    passed := ctx.currentLevel == 0 && ctx.dest == expected;
  }

  // Expected texts, one lemma per test step

  /** The test strings that hold nothing to escape are their own escapes. */
  lemma PlainLetters()
    ensures Escape("a") == "a" && Escape("b") == "b" && Escape("d") == "d"
  {
  }

  lemma PlainSpace()
    ensures Escape(" ") == " "
  {
  }

  lemma PlainWords()
    ensures Escape("abc") == "abc" && Escape("def") == "def"
  {
  }

  /** The sentence of the string test is its two words around a space. */
  lemma SentenceParts(a: string, b: string, c: string)
    requires a == "abc" && b == " " && c == "def"
    ensures a + b + c == "abc def"
  {
  }

  lemma PlainSentence()
    ensures Escape("abc def") == "abc def"
  {
    PlainSpace();
    PlainWords();
    SentenceParts("abc", " ", "def");
    EscapeAppend("abc", " ");
    EscapeAppend("abc" + " ", "def");
  }

  lemma QuotedSentence(e: string)
    requires e == "abc def"
    ensures "\"" + e + "\"" == "\"abc def\""
  {
  }

  /** A string that is its own escape is written as it is, in quotes. */
  lemma PlainString(s: string)
    requires Escape(s) == s
    ensures Serialize(Str(s)) == "\"" + s + "\""
  {
  }

  /** One string with nothing to escape, in an array. */
  lemma PlainArray1(x: string)
    requires Escape(x) == x
    ensures Serialize(Arr([Str(x)])) == "[" + ("\"" + x + "\"") + "]"
  {
    PlainString(x);
    SerializeArr1(Str(x));
  }

  /** Two strings with nothing to escape, in an array. */
  lemma PlainArray2(x: string, y: string)
    requires Escape(x) == x
    requires Escape(y) == y
    ensures Serialize(Arr([Str(x), Str(y)])) == "[" + ("\"" + x + "\"") + "," + ("\"" + y + "\"") + "]"
  {
    PlainString(x);
    PlainString(y);
    SerializeArr2(Str(x), Str(y));
  }

  /** One member whose value has nothing to escape, in an object. */
  lemma PlainObject1(k: string, x: string)
    requires Escape(x) == x
    ensures Serialize(Obj([Member(k, Str(x))])) == "{" + ("\"" + k + "\":" + ("\"" + x + "\"")) + "}"
  {
    PlainString(x);
    SerializeObj1(Member(k, Str(x)));
  }

  /** Two key/value pairs whose values have nothing to escape, as an object. */
  lemma PlainObject2(k: string, x: string, l: string, y: string)
    requires Escape(x) == x
    requires Escape(y) == y
    ensures Serialize(Obj(StrMembers([(k, x), (l, y)])))
              == "{" + ("\"" + k + "\":" + ("\"" + x + "\"")) + "," + ("\"" + l + "\":" + ("\"" + y + "\"")) + "}"
  {
    assert StrMembers([(k, x), (l, y)]) == [Member(k, Str(x)), Member(l, Str(y))];
    PlainString(x);
    PlainString(y);
    SerializeObj2(Member(k, Str(x)), Member(l, Str(y)));
  }

  lemma IntegerTexts()
    ensures Serialize(Int(0)) == "0"
    ensures Serialize(Int(2147483647)) == "2147483647"
    ensures Serialize(Int(-1)) == "-1"
  {
    assert NatToDecimal(2) == "2";
    assert NatToDecimal(21) == "21";
    assert NatToDecimal(214) == "214";
    assert NatToDecimal(2147) == "2147";
    assert NatToDecimal(21474) == "21474";
    assert NatToDecimal(214748) == "214748";
    assert NatToDecimal(2147483) == "2147483";
    assert NatToDecimal(21474836) == "21474836";
    assert NatToDecimal(214748364) == "214748364";
    assert NatToDecimal(2147483647) == "2147483647";
  }

  /** The characters of the escape test, in order. */
  const EscapeTable: string :=
    [1 as char, 7 as char, Backspace, FormFeed, '\n', '\r', '\t', 11 as char, '\\', '/', '"', Delete]

  lemma EscapeFrom(s: string, i: nat)
    requires i < |s|
    ensures Escape(s[i..]) == EscapeChar(s[i]) + Escape(s[i + 1..])
  {
    assert s[i..][1..] == s[i + 1..];
  }

  /** The escape of twelve characters is the escapes of each in turn. */
  lemma EscapeTwelve(t: string)
    requires |t| == 12
    ensures Escape(t) == EscapeChar(t[0]) + (EscapeChar(t[1]) + (EscapeChar(t[2]) + (EscapeChar(t[3]) + (EscapeChar(t[4]) + (EscapeChar(t[5]) + (EscapeChar(t[6]) + (EscapeChar(t[7]) + (EscapeChar(t[8]) + (EscapeChar(t[9]) + (EscapeChar(t[10]) + (EscapeChar(t[11]) + "")))))))))))
  {
    assert t[12..] == [];
    EscapeFrom(t, 11);
    EscapeFrom(t, 10);
    EscapeFrom(t, 9);
    EscapeFrom(t, 8);
    EscapeFrom(t, 7);
    EscapeFrom(t, 6);
    EscapeFrom(t, 5);
    EscapeFrom(t, 4);
    EscapeFrom(t, 3);
    EscapeFrom(t, 2);
    EscapeFrom(t, 1);
    EscapeFrom(t, 0);
    assert t[0..] == t;
  }

  /** The controls of the table without a short escape, as `\u00xx`. */
  lemma HexEscapes()
    ensures EscapeChar(1 as char) == "\\u0001"
    ensures EscapeChar(7 as char) == "\\u0007"
    ensures EscapeChar(11 as char) == "\\u000b"
    ensures EscapeChar(Delete) == "\\u007f"
  {
    assert HexDigit(0) == '0' && HexDigit(1) == '1' && HexDigit(7) == '7';
    assert HexDigit(11) == 'b' && HexDigit(15) == 'f';
  }

  /** The characters of the table with a two-character escape. */
  lemma ShortEscapes()
    ensures EscapeChar(Backspace) == "\\b" && EscapeChar(FormFeed) == "\\f"
    ensures EscapeChar('\n') == "\\n" && EscapeChar('\r') == "\\r" && EscapeChar('\t') == "\\t"
    ensures EscapeChar('\\') == "\\\\" && EscapeChar('/') == "\\/" && EscapeChar('"') == "\\\""
  {
  }

  /** The escaper's output for the table, one piece per character. */
  lemma EscapeTableText()
    ensures Escape(EscapeTable)
              == "\\u0001" + ("\\u0007" + ("\\b" + ("\\f" + ("\\n" + ("\\r" + ("\\t" + ("\\u000b" + ("\\\\" + ("\\/" + ("\\\"" + ("\\u007f" + "")))))))))))
  {
    EscapeTwelve(EscapeTable);
    HexEscapes();
    ShortEscapes();
  }

  /** The pieces in quotes spell the expected text of the escape test. */
  lemma EscapeTableQuoted(e: string)
    requires e == "\\u0001" + ("\\u0007" + ("\\b" + ("\\f" + ("\\n" + ("\\r" + ("\\t" + ("\\u000b" + ("\\\\" + ("\\/" + ("\\\"" + ("\\u007f" + "")))))))))))
    ensures "\"" + e + "\"" == "\"\\u0001\\u0007\\b\\f\\n\\r\\t\\u000b\\\\\\/\\\"\\u007f\""
  {
  }

  lemma StringTexts()
    ensures Serialize(Str("")) == "\"\""
  {
    PlainString("");
  }

  lemma PlainStringText()
    ensures Serialize(Str("abc def")) == "\"abc def\""
  {
    PlainSentence();
    PlainString("abc def");
    QuotedSentence("abc def");
  }

  /** Every character that needs escaping, in one string. */
  lemma EscapeTableString()
    ensures Serialize(Str(EscapeTable))
              == "\"\\u0001\\u0007\\b\\f\\n\\r\\t\\u000b\\\\\\/\\\"\\u007f\""
  {
    EscapeTableText();
    EscapeTableQuoted(Escape(EscapeTable));
  }

  lemma ArrayTexts()
    ensures Serialize(Arr(Strs([]))) == "[]"
    ensures Serialize(Arr(Strs(["a"]))) == "[\"a\"]"
  {
    PlainLetters();
    assert Strs([]) == [];
    assert Strs(["a"]) == [Str("a")];
    SerializeArr([]);
    PlainArray1("a");
  }

  lemma ArrayTwoText()
    ensures Serialize(Arr(Strs(["a", "b"]))) == "[\"a\",\"b\"]"
  {
    PlainLetters();
    assert Strs(["a", "b"]) == [Str("a"), Str("b")];
    PlainArray2("a", "b");
  }

  lemma ObjectTexts()
    ensures Serialize(Obj(StrMembers([]))) == "{}"
    ensures Serialize(Obj(StrMembers([("a", "b")]))) == "{\"a\":\"b\"}"
  {
    PlainLetters();
    assert StrMembers([]) == [];
    assert StrMembers([("a", "b")]) == [Member("a", Str("b"))];
    SerializeObj([]);
    PlainObject1("a", "b");
  }

  lemma ObjectTwoText()
    ensures Serialize(Obj(StrMembers([("a", "b"), ("c", "d")]))) == "{\"a\":\"b\",\"c\":\"d\"}"
  {
    PlainLetters();
    PlainObject2("a", "b", "c", "d");
  }

  /** A newline is written as its two-character escape. */
  lemma NewlineString()
    ensures Serialize(Str("\n")) == "\"\\n\""
  {
    EscapeFrom("\n", 0);
    assert "\n"[0..] == "\n" && "\n"[1..] == [];
  }

  /** An object of one string member, given the text of its value. */
  lemma Object1Text(k: string, x: string, xt: string)
    requires Serialize(Str(x)) == xt
    ensures Serialize(Obj([Member(k, Str(x))])) == "{" + ("\"" + k + "\":" + xt) + "}"
  {
    SerializeObj1(Member(k, Str(x)));
  }

  /** An object of two string members, given the texts of their values. */
  lemma Object2Text(k: string, x: string, xt: string, l: string, y: string, yt: string)
    requires Serialize(Str(x)) == xt && Serialize(Str(y)) == yt
    ensures Serialize(Obj([Member(k, Str(x)), Member(l, Str(y))])) == "{" + ("\"" + k + "\":" + xt) + "," + ("\"" + l + "\":" + yt) + "}"
  {
    SerializeObj2(Member(k, Str(x)), Member(l, Str(y)));
  }

  /** The members of two pairs are those of each pair in turn. */
  lemma PresentMembersPair(a: (string, Option<string>), b: (string, Option<string>))
    ensures PresentMembers([a, b]) == PresentMembers([a]) + PresentMembers([b])
  {
    assert [a, b][..1] == [a];
  }

  lemma OptKeysTexts()
    ensures Serialize(Obj(PresentMembers([]))) == "{}"
    ensures Serialize(Obj(PresentMembers([("a", Some("b"))]))) == "{\"a\":\"b\"}"
    ensures Serialize(Obj(PresentMembers([("c", None)]))) == "{}"
  {
    PlainLetters();
    assert PresentMembers([("a", Some("b"))]) == [Member("a", Str("b"))];
    assert PresentMembers([("c", None)]) == [];
    SerializeObj([]);
    PlainObject1("a", "b");
  }

  lemma OptKeysNewlineText()
    ensures Serialize(Obj(PresentMembers([("a", Some("b")), ("c", Some("\n"))]))) == "{\"a\":\"b\",\"c\":\"\\n\"}"
  {
    PlainLetters();
    PresentMembersPair(("a", Some("b")), ("c", Some("\n")));
    assert PresentMembers([("a", Some("b")), ("c", Some("\n"))]) == [Member("a", Str("b")), Member("c", Str("\n"))];
    PlainString("b");
    NewlineString();
    Object2Text("a", "b", "\"" + "b" + "\"", "c", "\n", "\"\\n\"");
  }

  /** A pair without a value leaves no member and no comma behind. */
  lemma OptKeysMissingText()
    ensures Serialize(Obj(PresentMembers([("a", None), ("c", Some("\n"))]))) == "{\"c\":\"\\n\"}"
  {
    PresentMembersPair(("a", None), ("c", Some("\n")));
    assert PresentMembers([("a", None), ("c", Some("\n"))]) == [Member("c", Str("\n"))];
    NewlineString();
    Object1Text("c", "\n", "\"\\n\"");
  }

  lemma ArrayOfArraysTexts()
    ensures Serialize(Arr(IntRows([]))) == "[]"
    ensures Serialize(Arr(IntRows([[1]]))) == "[[1]]"
    ensures Serialize(Arr(IntRows([[]]))) == "[[]]"
  {
    var empty, one := Arr([]), Arr([Int(1)]);
    SerializeArr([]);
    SerializeArr1(Int(1));
    SerializeArr1(empty);
    SerializeArr1(one);
    assert Ints([]) == [] && Ints([1]) == [Int(1)];
    assert IntRows([]) == [];
    assert IntRows([[1]]) == [one];
    assert IntRows([[]]) == [empty];
  }

  /** A row of two integers, as an array. */
  lemma IntPairText(a: int, b: int)
    ensures Serialize(Arr(Ints([a, b]))) == "[" + IntToDecimal(a) + "," + IntToDecimal(b) + "]"
  {
    assert Ints([a, b]) == [Int(a), Int(b)];
    SerializeArr2(Int(a), Int(b));
  }

  lemma ArrayOfRowText()
    ensures Serialize(Arr(IntRows([[1, 2]]))) == "[[1,2]]"
  {
    var oneTwo := Arr(Ints([1, 2]));
    IntPairText(1, 2);
    assert IntRows([[1, 2]]) == [oneTwo];
    SerializeArr1(oneTwo);
  }

  lemma ArrayOfRowsText()
    ensures Serialize(Arr(IntRows([[1, 2], [3, 4]]))) == "[[1,2],[3,4]]"
  {
    var oneTwo, threeFour := Arr(Ints([1, 2])), Arr(Ints([3, 4]));
    IntPairText(1, 2);
    IntPairText(3, 4);
    assert IntRows([[1, 2], [3, 4]]) == [oneTwo, threeFour];
    SerializeArr2(oneTwo, threeFour);
  }

  lemma ArrayOfStrTexts()
    ensures Serialize(Arr(StrItems(true, []))) == "[]"
    ensures Serialize(Arr(StrItems(true, [Some("abc")]))) == "[\"abc\"]"
  {
    PlainWords();
    assert StrItems(true, [Some("abc")]) == [Str("abc")];
    SerializeArr([]);
    PlainArray1("abc");
  }

  lemma ArrayOfTwoStrText()
    ensures Serialize(Arr(StrItems(true, [Some("abc"), Some("def")]))) == "[\"abc\",\"def\"]"
  {
    PlainWords();
    StrItemsPair(true, Some("abc"), Some("def"));
    assert StrItems(true, [Some("abc"), Some("def")]) == [Str("abc"), Str("def")];
    PlainArray2("abc", "def");
  }

  /** With `skip_null` a NULL entry takes no place in the array. */
  lemma SkipNullText()
    ensures Serialize(Arr(StrItems(true, [None]))) == "[]"
  {
    assert StrItems(true, [None]) == [];
    SerializeArr([]);
  }

  lemma SkipNullFirstText()
    ensures Serialize(Arr(StrItems(true, [None, Some("abc")]))) == "[\"abc\"]"
  {
    PlainWords();
    StrItemsPair(true, None, Some("abc"));
    assert StrItems(true, [None, Some("abc")]) == [Str("abc")];
    PlainArray1("abc");
  }

  /** Without `skip_null` a NULL entry is written as null. */
  lemma KeepNullText()
    ensures Serialize(Arr(StrItems(false, [None]))) == "[null]"
  {
    assert StrItems(false, [None]) == [Null];
    SerializeArr1(Null);
  }

  /** A string and then a NULL entry, kept as null. */
  lemma PlainThenNull(x: string)
    requires Escape(x) == x
    ensures Serialize(Arr(StrItems(false, [Some(x), None]))) == "[" + ("\"" + x + "\"") + "," + "null" + "]"
  {
    PlainString(x);
    StrItemsPair(false, Some(x), None);
    assert StrItems(false, [Some(x), None]) == [Str(x), Null];
    SerializeArr2(Str(x), Null);
  }

  lemma KeepNullLastText()
    ensures Serialize(Arr(StrItems(false, [Some("abc"), None]))) == "[\"abc\",null]"
  {
    PlainWords();
    PlainThenNull("abc");
  }

  /** "Checking JSON integers" */
  method TestIntegers() returns (passed: bool)
    ensures passed
  {
    IntegerTexts();
    var a := CheckJson(JsonInt(0), "0");
    var b := CheckJson(JsonInt(2147483647), "2147483647");
    var c := CheckJson(JsonInt(-1), "-1");
    passed := a && b && c;
  }

  /** "Checking JSON floats", for the values that are not finite. */
  method TestFloats() returns (passed: bool)
    ensures passed
  {
    var a := CheckJson(JsonFloat(PosInfinity), "null");
    var b := CheckJson(JsonFloat(NaN), "null");
    passed := a && b;
  }

  /** "Checking JSON string escaping" */
  method TestStrings() returns (passed: bool)
    ensures passed
  {
    StringTexts();
    PlainStringText();
    EscapeTableString();
    var a := CheckJson(JsonString(""), "\"\"");
    var b := CheckJson(JsonString("abc def"), "\"abc def\"");
    var c := CheckJson(JsonString(EscapeTable), "\"\\u0001\\u0007\\b\\f\\n\\r\\t\\u000b\\\\\\/\\\"\\u007f\"");
    passed := a && b && c;
  }

  /** "Checking JSON arrays" */
  method TestArrays() returns (passed: bool)
    ensures passed
  {
    ArrayTexts();
    ArrayTwoText();
    var a := CheckJson(JsonArray([]), "[]");
    var b := CheckJson(JsonArray(["a"]), "[\"a\"]");
    var c := CheckJson(JsonArray(["a", "b"]), "[\"a\",\"b\"]");
    passed := a && b && c;
  }

  /** "Checking JSON objects" */
  method TestObjects() returns (passed: bool)
    ensures passed
  {
    ObjectTexts();
    ObjectTwoText();
    var a := CheckJson(JsonObject([]), "{}");
    var b := CheckJson(JsonObject([("a", "b")]), "{\"a\":\"b\"}");
    var c := CheckJson(JsonObject([("a", "b"), ("c", "d")]), "{\"a\":\"b\",\"c\":\"d\"}");
    passed := a && b && c;
  }

  /** "Checking JSON objects with optional keys" */
  method TestOptKeys() returns (passed: bool)
    ensures passed
  {
    OptKeysTexts();
    OptKeysNewlineText();
    OptKeysMissingText();
    var a := CheckJson(JsonOptkeys([]), "{}");
    var b := CheckJson(JsonOptkeys([("a", Some("b"))]), "{\"a\":\"b\"}");
    var c := CheckJson(JsonOptkeys([("c", None)]), "{}");
    var d := CheckJson(JsonOptkeys([("a", Some("b")), ("c", Some("\n"))]), "{\"a\":\"b\",\"c\":\"\\n\"}");
    var e := CheckJson(JsonOptkeys([("a", None), ("c", Some("\n"))]), "{\"c\":\"\\n\"}");
    passed := a && b && c && d && e;
  }

  /** "Checking JSON arrays of arrays" */
  method TestArraysOfArrays() returns (passed: bool)
    ensures passed
  {
    ArrayOfArraysTexts();
    ArrayOfRowText();
    ArrayOfRowsText();
    var a := CheckJson(JsonArrayOfArrays([]), "[]");
    var b := CheckJson(JsonArrayOfArrays([[1]]), "[[1]]");
    var c := CheckJson(JsonArrayOfArrays([[]]), "[[]]");
    var d := CheckJson(JsonArrayOfArrays([[1, 2]]), "[[1,2]]");
    var e := CheckJson(JsonArrayOfArrays([[1, 2], [3, 4]]), "[[1,2],[3,4]]");
    passed := a && b && c && d && e;
  }

  /** "Checking JSON arrays of strings" */
  method TestArraysOfStr() returns (passed: bool)
    ensures passed
  {
    ArrayOfStrTexts();
    ArrayOfTwoStrText();
    SkipNullText();
    SkipNullFirstText();
    KeepNullText();
    KeepNullLastText();

    var a := CheckJson(JsonArrayOfStr(true, []), "[]");
    var b := CheckJson(JsonArrayOfStr(true, [Some("abc")]), "[\"abc\"]");
    var c := CheckJson(JsonArrayOfStr(true, [Some("abc"), Some("def")]), "[\"abc\",\"def\"]");
    var d := CheckJson(JsonArrayOfStr(true, [None]), "[]");
    var e := CheckJson(JsonArrayOfStr(true, [None, Some("abc")]), "[\"abc\"]");
    var f := CheckJson(JsonArrayOfStr(false, [None]), "[null]");
    var g := CheckJson(JsonArrayOfStr(false, [Some("abc"), None]), "[\"abc\",null]");
    passed := a && b && c && d && e && f && g;
  }

  /** "Checking conversion of kvpairs" */
  method TestKvpairs() returns (passed: bool)
    ensures passed
  {
    ObjectTexts();
    ObjectTwoText();
    var a := CheckJson(JsonKvpair([]), "{}");
    var b := CheckJson(JsonKvpair([("a", "b")]), "{\"a\":\"b\"}");
    var c := CheckJson(JsonKvpair([("a", "b"), ("c", "d")]), "{\"a\":\"b\",\"c\":\"d\"}");
    passed := a && b && c;
  }
}
