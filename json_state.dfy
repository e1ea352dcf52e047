/**
 * The JSON writer of lib/tools/te_json.h as a state machine over values.
 *
 * A context is the text written to the destination so far together with the live
 * part of the nesting stack, `nesting[0..current_level]`. Every te_json_* operation
 * is a function from context to context here; the class in te_json.dfy performs the
 * same steps in place and is proved equal to these functions.
 *
 * How a level moves:
 *  - an item (a value, a nested compound, or a key) is counted in the enclosing
 *    level when it begins, after a comma is written if that ARRAY or OBJECT level
 *    already holds an item; an open compound therefore already counts as one item
 *    of its parent;
 *  - te_json_add_key writes `"key":` and pushes an OBJECT_VALUE level, which the
 *    next complete value (a scalar, or a compound once it is ended) pops again;
 *  - te_json_end at TOPLEVEL does nothing.
 * The header leaves a misuse of the API to an assertion without naming the checks;
 * the model turns the misuses into `requires` clauses: a value needs a key first
 * inside an object, a key needs an object, an object cannot be closed while a key
 * waits for its value, and no level may be pushed past the last entry of
 * `nesting[TE_JSON_MAX_NEST]`.
 */
module JsonState {
  import opened Wrappers
  import opened JsonEscape
  import opened JsonNumber
  import opened JsonValue

  /** TE_JSON_MAX_NEST: the number of entries in the nesting stack. */
  const MaxNest: nat := 16

  /** te_json_compound */
  datatype Compound = Toplevel | Array | Object | ObjectValue

  /** te_json_level_t: the kind of compound and the number of items already added. */
  datatype Level = Level(kind: Compound, nItems: nat)

  /** te_json_ctx_t: the destination text and nesting[0..current_level]. */
  datatype Ctx = Ctx(dest: string, nesting: seq<Level>)

  /** A C double as far as the writer cares: finite, rendered by `%.*g` at a given precision, or not. */
  datatype Double = Finite(render: nat -> string) | PosInfinity | NegInfinity | NaN

  function Top(n: seq<Level>): Level
    requires |n| > 0
  {
    n[|n| - 1]
  }

  function CurrentLevel(c: Ctx): int {
    |c.nesting| - 1
  }

  /** The stack without its top level. */
  function Pop(n: seq<Level>): seq<Level>
    requires |n| > 0
  {
    n[..|n| - 1]
  }

  /** The stack with one more item counted at its top level. */
  function Bump(n: seq<Level>): seq<Level>
    requires |n| > 0
  {
    Pop(n) + [Level(Top(n).kind, Top(n).nItems + 1)]
  }

  /** The stack once the value a key was waiting for is complete. */
  function Settle(n: seq<Level>): seq<Level>
    requires |n| > 0
  {
    if Top(n).kind == ObjectValue then Pop(n) else n
  }

  /** The stack once one more complete value has been written at its top. */
  function AfterValue(n: seq<Level>): seq<Level>
    requires |n| > 0
  {
    if Top(n).kind == ObjectValue then Pop(n) else Bump(n)
  }

  /** An invariant of the stack: it holds of every stack the API can reach, and of some others. */
  predicate ValidNesting(n: seq<Level>) {
    && 1 <= |n| <= MaxNest
    && n[0].kind == Toplevel
    && (forall i :: 1 <= i < |n| ==> n[i].kind != Toplevel)
    // a key is only ever waiting directly inside an object, and every open object level
    // below the top has a key waiting for the compound that is open above it
    && (forall i :: 1 <= i < |n| ==> (n[i].kind == ObjectValue <==> n[i - 1].kind == Object))
    // every level below the top holds at least the compound that is open above it
    && (forall i :: 0 <= i < |n| - 1 ==> n[i].nItems > 0)
    && (Top(n).kind == ObjectValue ==> Top(n).nItems == 0)
  }

  predicate Valid(c: Ctx) {
    ValidNesting(c.nesting)
  }

  /** A value (scalar or compound) may be written here: anywhere but directly in an object. */
  predicate AcceptsValue(c: Ctx)
    requires |c.nesting| > 0
  {
    Top(c.nesting).kind != Object
  }

  /** One more level fits into nesting[TE_JSON_MAX_NEST]. */
  predicate CanPush(c: Ctx) {
    |c.nesting| < MaxNest
  }

  /** What precedes a new item at level `l`: a comma between items of an array or object. */
  function Separator(l: Level): string {
    if l.nItems > 0 && (l.kind == Array || l.kind == Object) then "," else ""
  }

  /** The context once the complete value `v` has been written in `c`. */
  function Written(c: Ctx, v: Json): Ctx
    requires |c.nesting| > 0
  {
    Ctx(c.dest + Separator(Top(c.nesting)) + Serialize(v), AfterValue(c.nesting))
  }

  /**
   * One complete value leaves the nesting depth as it was, except that a key waiting for
   * it is done: starts and ends of compounds balance.
   */
  lemma WrittenLevel(c: Ctx, v: Json)
    requires |c.nesting| > 0
    ensures Top(c.nesting).kind != ObjectValue ==> CurrentLevel(Written(c, v)) == CurrentLevel(c)
    ensures Top(c.nesting).kind == ObjectValue ==> CurrentLevel(Written(c, v)) == CurrentLevel(c) - 1
  {
  }

  /** TE_JSON_INIT_STR(&dest): nothing written yet, one TOPLEVEL level with no items. */
  function Init(dest: string): (c: Ctx)
    ensures Valid(c) && c.dest == dest
    ensures CurrentLevel(c) == 0 && c.nesting[0] == Level(Toplevel, 0)
  {
    Ctx(dest, [Level(Toplevel, 0)])
  }

  // ---------------------------------------------------------------------------
  // The steps every operation is made of

  /** Starts an item at the top level: writes the separator and counts the item. */
  function BeginItem(c: Ctx): Ctx
    requires |c.nesting| > 0
  {
    Ctx(c.dest + Separator(Top(c.nesting)), Bump(c.nesting))
  }

  /** Ends a value: if it was the value of a key, the OBJECT_VALUE level goes. */
  function FinishValue(c: Ctx): Ctx
    requires |c.nesting| > 0
  {
    Ctx(c.dest, Settle(c.nesting))
  }

  function OpenBracket(kind: Compound): char
    requires kind == Array || kind == Object
  {
    if kind == Array then '[' else '{'
  }

  function CloseBracket(kind: Compound): char
    requires kind == Array || kind == Object
  {
    if kind == Array then ']' else '}'
  }

  /** The key text written by te_json_add_key: NULL is written as an empty key. */
  function KeyText(key: Option<string>): string {
    if key.Some? then key.value else ""
  }

  lemma AppendAssoc(a: string, b: string, c: string)
    ensures a + b + c == a + (b + c)
  {
  }

  lemma ValidAfterValue(n: seq<Level>)
    requires ValidNesting(n) && Top(n).kind != Object
    ensures ValidNesting(AfterValue(n))
  {
    if Top(n).kind == ObjectValue {
      assert n[|n| - 2].kind == Object;
    }
  }

  lemma ValidPush(n: seq<Level>, kind: Compound, k: nat)
    requires ValidNesting(n) && |n| < MaxNest
    requires kind != Toplevel
    requires kind == ObjectValue <==> Top(n).kind == Object
    requires kind == ObjectValue ==> k == 0
    ensures ValidNesting(Bump(n) + [Level(kind, k)])
  {
    var m := Bump(n) + [Level(kind, k)];
    assert forall i :: 0 <= i < |n| - 1 ==> m[i] == n[i];
  }

  lemma ValidClose(n: seq<Level>)
    requires ValidNesting(n) && (Top(n).kind == Array || Top(n).kind == Object)
    ensures |n| >= 2 && ValidNesting(Settle(Pop(n)))
  {
    var p := Pop(n);
    assert forall i :: 0 <= i < |p| ==> p[i] == n[i];
    if Top(p).kind == ObjectValue {
      assert p[|p| - 2].kind == Object;
    }
  }

  // ---------------------------------------------------------------------------
  // The operations of te_json.h

  /** te_json_add_simple: writes already rendered text as one value. */
  function AddSimple(c: Ctx, text: string): (r: Ctx)
    requires Valid(c) && AcceptsValue(c)
    ensures Valid(r) && r == Written(c, Raw(text))
  {
    ValidAfterValue(c.nesting);
    var b := BeginItem(c);
    FinishValue(Ctx(b.dest + text, b.nesting))
  }

  /** te_json_add_null */
  function AddNull(c: Ctx): (r: Ctx)
    requires Valid(c) && AcceptsValue(c)
    ensures Valid(r) && r == Written(c, Null)
  {
    AddSimple(c, "null")
  }

  /** te_json_add_bool */
  function AddBool(c: Ctx, val: bool): (r: Ctx)
    requires Valid(c) && AcceptsValue(c)
    ensures Valid(r) && r == Written(c, Bool(val))
  {
    AddSimple(c, if val then "true" else "false")
  }

  /** te_json_add_integer: `%jd` of an intmax_t. */
  function AddInteger(c: Ctx, val: IntMax): (r: Ctx)
    requires Valid(c) && AcceptsValue(c)
    ensures Valid(r) && r == Written(c, Int(val))
  {
    AddSimple(c, IntToDecimal(val))
  }

  /** te_json_add_float: infinities and NaN are written as null, finite values as `%.*g`. */
  function AddFloat(c: Ctx, val: Double, precision: nat): (r: Ctx)
    requires Valid(c) && AcceptsValue(c)
    ensures Valid(r)
    ensures !val.Finite? ==> r == Written(c, Null)
    ensures val.Finite? ==> r == Written(c, Raw(val.render(precision)))
  {
    if !val.Finite? then AddNull(c) else AddSimple(c, val.render(precision))
  }

  /** te_json_add_string: the escaped text in double quotes. */
  function AddString(c: Ctx, s: string): (r: Ctx)
    requires Valid(c) && AcceptsValue(c)
    ensures Valid(r) && r == Written(c, Str(s))
  {
    AddSimple(c, Quote(s))
  }

  /** The common part of te_json_start_array and te_json_start_object. */
  function StartCompound(c: Ctx, kind: Compound): (r: Ctx)
    requires Valid(c) && AcceptsValue(c) && CanPush(c)
    requires kind == Array || kind == Object
    ensures Valid(r) && CurrentLevel(r) == CurrentLevel(c) + 1
    ensures r.dest == c.dest + Separator(Top(c.nesting)) + [OpenBracket(kind)]
    ensures r.nesting == Bump(c.nesting) + [Level(kind, 0)]
  {
    ValidPush(c.nesting, kind, 0);
    var b := BeginItem(c);
    Ctx(b.dest + [OpenBracket(kind)], b.nesting + [Level(kind, 0)])
  }

  /** te_json_start_array */
  function StartArray(c: Ctx): (r: Ctx)
    requires Valid(c) && AcceptsValue(c) && CanPush(c)
    ensures Valid(r) && CurrentLevel(r) == CurrentLevel(c) + 1
    ensures r.dest == c.dest + Separator(Top(c.nesting)) + "["
    ensures r.nesting == Bump(c.nesting) + [Level(Array, 0)]
  {
    StartCompound(c, Array)
  }

  /** te_json_start_object */
  function StartObject(c: Ctx): (r: Ctx)
    requires Valid(c) && AcceptsValue(c) && CanPush(c)
    ensures Valid(r) && CurrentLevel(r) == CurrentLevel(c) + 1
    ensures r.dest == c.dest + Separator(Top(c.nesting)) + "{"
    ensures r.nesting == Bump(c.nesting) + [Level(Object, 0)]
  {
    StartCompound(c, Object)
  }

  /** Closing a compound pushed on `n` leaves the stack as one complete value would. */
  lemma CloseNesting(n: seq<Level>, kind: Compound, k: nat)
    requires |n| > 0 && Top(n).kind != Object
    ensures Settle(Pop(Bump(n) + [Level(kind, k)])) == AfterValue(n)
  {
    assert Pop(Bump(n) + [Level(kind, k)]) == Bump(n);
    if Top(n).kind == ObjectValue {
      assert Pop(Bump(n)) == Pop(n);
    }
  }

  /** The bracket, the items and the closing bracket after the separator are the value's text. */
  lemma CloseText(c: Ctx, kind: Compound, inner: string, v: Json)
    requires Valid(c) && AcceptsValue(c) && CanPush(c) && (kind == Array || kind == Object)
    requires Serialize(v) == [OpenBracket(kind)] + inner + [CloseBracket(kind)]
    ensures StartCompound(c, kind).dest + inner + [CloseBracket(kind)] == c.dest + Separator(Top(c.nesting)) + Serialize(v)
  {
    var sep := Separator(Top(c.nesting));
    assert StartCompound(c, kind).dest == c.dest + sep + [OpenBracket(kind)];
    AppendAssoc(c.dest + sep, [OpenBracket(kind)] + inner, [CloseBracket(kind)]);
    AppendAssoc(c.dest + sep, [OpenBracket(kind)], inner);
  }

  /**
   * An array or object opened in `c`, filled with `inner` (holding `k` items) and closed
   * is one complete value of `c`, whatever it contains.
   */
  lemma CompoundWritten(c: Ctx, kind: Compound, k: nat, inner: string, v: Json)
    requires Valid(c) && AcceptsValue(c) && CanPush(c) && (kind == Array || kind == Object)
    requires Serialize(v) == [OpenBracket(kind)] + inner + [CloseBracket(kind)]
    ensures var m := Ctx(StartCompound(c, kind).dest + inner, Bump(c.nesting) + [Level(kind, k)]);
            Valid(m) && Top(m.nesting).kind == kind && End(m) == Written(c, v)
  {
    ValidPush(c.nesting, kind, k);
    CloseNesting(c.nesting, kind, k);
    CloseText(c, kind, inner, v);
  }

  /**
   * te_json_end: closes the innermost array or object, which then counts as one
   * complete value of its parent; at TOPLEVEL it changes nothing.
   */
  function End(c: Ctx): (r: Ctx)
    requires Valid(c) && Top(c.nesting).kind != ObjectValue
    ensures Valid(r)
    ensures Top(c.nesting).kind == Toplevel ==> r == c
    ensures Top(c.nesting).kind != Toplevel ==>
              && CurrentLevel(r) < CurrentLevel(c)
              && r.dest == c.dest + [CloseBracket(Top(c.nesting).kind)]
              && r.nesting == Settle(Pop(c.nesting))
  {
    var top := Top(c.nesting);
    if top.kind == Toplevel then c
    else
      ValidClose(c.nesting);
      FinishValue(Ctx(c.dest + [CloseBracket(top.kind)], Pop(c.nesting)))
  }

  /** te_json_add_key: `"key":`, written as it is; a NULL key is an empty one. */
  function AddKey(c: Ctx, key: Option<string>): (r: Ctx)
    requires Valid(c) && Top(c.nesting).kind == Object && CanPush(c)
    ensures Valid(r) && CurrentLevel(r) == CurrentLevel(c) + 1
    ensures !AcceptsValue(c) && AcceptsValue(r)
    ensures r.dest == c.dest + Separator(Top(c.nesting)) + KeyPrefix(KeyText(key))
    ensures r.nesting == Bump(c.nesting) + [Level(ObjectValue, 0)]
  {
    ValidPush(c.nesting, ObjectValue, 0);
    var b := BeginItem(c);
    Ctx(b.dest + KeyPrefix(KeyText(key)), b.nesting + [Level(ObjectValue, 0)])
  }

  /** A key followed by a string value adds one member to the object and leaves the object on top. */
  lemma KeyThenString(c: Ctx, key: Option<string>, val: string)
    requires Valid(c) && Top(c.nesting).kind == Object && CanPush(c)
    ensures AddString(AddKey(c, key), val)
              == Ctx(c.dest + Separator(Top(c.nesting)) + MemberText(Member(KeyText(key), Str(val))), Bump(c.nesting))
  {
    var k := AddKey(c, key);
    var r := AddString(k, val);
    assert Pop(k.nesting) == Bump(c.nesting);
    assert r.nesting == Bump(c.nesting);
    var before := c.dest + Separator(Top(c.nesting));
    assert r.dest == k.dest + Quote(val);
    AppendAssoc(before, KeyPrefix(KeyText(key)), Quote(val));
  }

  /**
   * te_json_add_key_str: a member with a string value, or nothing at all when the
   * value is NULL.
   */
  function AddKeyStr(c: Ctx, key: Option<string>, val: Option<string>): (r: Ctx)
    requires Valid(c)
    requires val.Some? ==> Top(c.nesting).kind == Object && CanPush(c)
    ensures Valid(r)
    ensures val.None? ==> r == c
    ensures val.Some? ==>
              r == Ctx(c.dest + Separator(Top(c.nesting)) + MemberText(Member(KeyText(key), Str(val.value))),
                       Bump(c.nesting))
  {
    if val.None? then c
    else
      KeyThenString(c, key, val.value);
      AddString(AddKey(c, key), val.value)
  }

  /** te_enum_map_from_any_value(map, val, NULL): the name of `val`, NULL when there is none. */
  function EnumName(enumMap: map<int, Option<string>>, val: int): Option<string> {
    if val in enumMap then enumMap[val] else None
  }

  /** te_json_add_key_enum: a member named by the mapping, omitted when the value has no name. */
  function AddKeyEnum(c: Ctx, enumMap: map<int, Option<string>>, key: Option<string>, val: int): (r: Ctx)
    requires Valid(c)
    requires EnumName(enumMap, val).Some? ==> Top(c.nesting).kind == Object && CanPush(c)
    ensures Valid(r)
    ensures (val !in enumMap || enumMap[val].None?) ==> r == c
    ensures val in enumMap && enumMap[val].Some? ==>
              r == Ctx(c.dest + Separator(Top(c.nesting)) + MemberText(Member(KeyText(key), Str(enumMap[val].value))),
                       Bump(c.nesting))
  {
    AddKeyStr(c, key, EnumName(enumMap, val))
  }

  // ---------------------------------------------------------------------------
  // te_json_add_array_str

  /** The values te_json_add_array_str writes: a NULL entry is dropped with `skipNull`, and is null otherwise. */
  function StrItems(skipNull: bool, strs: seq<Option<string>>): (r: seq<Json>)
    ensures |r| <= |strs|
    ensures !skipNull ==> |r| == |strs|
  {
    if strs == [] then []
    else
      var front := StrItems(skipNull, strs[..|strs| - 1]);
      match strs[|strs| - 1]
      case Some(s) => front + [Str(s)]
      case None => if skipNull then front else front + [Null]
  }

  /** The items of a list of two entries are those of each entry in turn. */
  lemma StrItemsPair(skipNull: bool, x: Option<string>, y: Option<string>)
    ensures StrItems(skipNull, [x, y]) == StrItems(skipNull, [x]) + StrItems(skipNull, [y])
  {
    assert [x, y][..1] == [x];
  }

  /** Writing one more value into an array that holds `items` so far extends the comma-separated list. */
  lemma WriteArrayItem(c: Ctx, base: string, items: seq<Json>, v: Json)
    requires |c.nesting| > 0 && Top(c.nesting) == Level(Array, |items|)
    requires c.dest == base + Join(Texts(items))
    ensures Written(c, v).dest == base + Join(Texts(items + [v]))
    ensures Written(c, v).nesting == Pop(c.nesting) + [Level(Array, |items| + 1)]
  {
    TextsSnoc(items, v);
    JoinSnoc(Texts(items), Serialize(v));
    var sep := if |items| > 0 then "," else "";
    assert Written(c, v).dest == base + Join(Texts(items)) + sep + Serialize(v);
    AppendAssoc(base, Join(Texts(items)), sep);
    AppendAssoc(base, Join(Texts(items)) + sep, Serialize(v));
  }

  /** What one entry of the list writes: the string, or for NULL nothing or `null`. */
  function AddArrayEntry(c: Ctx, skipNull: bool, entry: Option<string>): (r: Ctx)
    requires Valid(c) && AcceptsValue(c)
    ensures Valid(r)
  {
    match entry
    case Some(s) => AddString(c, s)
    case None => if skipNull then c else AddNull(c)
  }

  /** Entry `n - 1` of the list extends the array holding the items of the entries before it. */
  lemma ArrayEntryWritten(p: Ctx, base: string, front: seq<Level>, skipNull: bool, strs: seq<Option<string>>, n: nat)
    requires 0 < n <= |strs|
    requires Valid(p) && p.nesting == front + [Level(Array, |StrItems(skipNull, strs[..n - 1])|)]
    requires p.dest == base + Join(Texts(StrItems(skipNull, strs[..n - 1])))
    ensures AddArrayEntry(p, skipNull, strs[n - 1]).dest == base + Join(Texts(StrItems(skipNull, strs[..n])))
    ensures AddArrayEntry(p, skipNull, strs[n - 1]).nesting == front + [Level(Array, |StrItems(skipNull, strs[..n])|)]
  {
    var items := StrItems(skipNull, strs[..n - 1]);
    assert strs[..n][..n - 1] == strs[..n - 1];
    assert Pop(p.nesting) == front;
    match strs[n - 1]
    case Some(s) =>
      assert StrItems(skipNull, strs[..n]) == items + [Str(s)];
      WriteArrayItem(p, base, items, Str(s));
    case None =>
      if skipNull {
        assert StrItems(skipNull, strs[..n]) == items;
        assert AddArrayEntry(p, skipNull, strs[n - 1]) == p;
      } else {
        assert StrItems(skipNull, strs[..n]) == items + [Null];
        WriteArrayItem(p, base, items, Null);
      }
  }

  /** The first `n` entries of the list written one after another into the freshly opened array `c`. */
  function ArrayStrItems(c: Ctx, skipNull: bool, strs: seq<Option<string>>, n: nat): (r: Ctx)
    requires Valid(c) && Top(c.nesting) == Level(Array, 0) && n <= |strs|
    ensures Valid(r)
    ensures r.dest == c.dest + Join(Texts(StrItems(skipNull, strs[..n])))
    ensures r.nesting == Pop(c.nesting) + [Level(Array, |StrItems(skipNull, strs[..n])|)]
  {
    if n == 0 then
      assert c.nesting == Pop(c.nesting) + [Level(Array, 0)];
      c
    else
      var p := ArrayStrItems(c, skipNull, strs, n - 1);
      ArrayEntryWritten(p, c.dest, Pop(c.nesting), skipNull, strs, n);
      AddArrayEntry(p, skipNull, strs[n - 1])
  }

  /** te_json_add_array_str: one array holding the strings, NULL entries handled as `skipNull` says. */
  function AddArrayStr(c: Ctx, skipNull: bool, strs: seq<Option<string>>): (r: Ctx)
    requires Valid(c) && AcceptsValue(c) && CanPush(c)
    ensures Valid(r) && r == Written(c, Arr(StrItems(skipNull, strs)))
  {
    var begun := StartArray(c);
    var filled := ArrayStrItems(begun, skipNull, strs, |strs|);
    assert strs[..|strs|] == strs;
    var items := StrItems(skipNull, strs);
    assert Pop(begun.nesting) == Bump(c.nesting);
    SerializeArr(items);
    CompoundWritten(c, Array, |items|, Join(Texts(items)), Arr(items));
    End(filled)
  }

  /** Once every entry is written, the array is on top and closing it completes te_json_add_array_str. */
  lemma ArrayStrClosing(c: Ctx, skipNull: bool, strs: seq<Option<string>>)
    requires Valid(c) && AcceptsValue(c) && CanPush(c)
    ensures var filled := ArrayStrItems(StartArray(c), skipNull, strs, |strs|);
            Top(filled.nesting).kind == Array && End(filled) == AddArrayStr(c, skipNull, strs)
  {
  }

  // ---------------------------------------------------------------------------
  // te_json_add_kvpair

  /** Writing one more string member into an object that holds `members` so far extends the list. */
  lemma WriteObjectMember(c: Ctx, base: string, members: seq<Member>, key: string, val: string)
    requires Valid(c) && Top(c.nesting) == Level(Object, |members|) && CanPush(c)
    requires c.dest == base + Join(MemberTexts(members))
    ensures AddKeyStr(c, Some(key), Some(val)).dest == base + Join(MemberTexts(members + [Member(key, Str(val))]))
    ensures AddKeyStr(c, Some(key), Some(val)).nesting == Pop(c.nesting) + [Level(Object, |members| + 1)]
  {
    var m := Member(key, Str(val));
    MemberTextsSnoc(members, m);
    JoinSnoc(MemberTexts(members), MemberText(m));
    var sep := if |members| > 0 then "," else "";
    assert AddKeyStr(c, Some(key), Some(val)).dest == base + Join(MemberTexts(members)) + sep + MemberText(m);
    AppendAssoc(base, Join(MemberTexts(members)), sep);
    AppendAssoc(base, Join(MemberTexts(members)) + sep, MemberText(m));
  }

  /** Pair `n - 1` extends the object holding the members of the pairs before it. */
  lemma PairWritten(p: Ctx, base: string, front: seq<Level>, pairs: seq<(string, string)>, n: nat)
    requires 0 < n <= |pairs|
    requires Valid(p) && p.nesting == front + [Level(Object, n - 1)] && CanPush(p)
    requires p.dest == base + Join(MemberTexts(StrMembers(pairs[..n - 1])))
    ensures AddKeyStr(p, Some(pairs[n - 1].0), Some(pairs[n - 1].1)).dest == base + Join(MemberTexts(StrMembers(pairs[..n])))
    ensures AddKeyStr(p, Some(pairs[n - 1].0), Some(pairs[n - 1].1)).nesting == front + [Level(Object, n)]
  {
    assert Pop(p.nesting) == front;
    StrMembersPrefix(pairs, n - 1);
    WriteObjectMember(p, base, StrMembers(pairs[..n - 1]), pairs[n - 1].0, pairs[n - 1].1);
  }

  /** The members of the first `n` pairs written one after another into the freshly opened object `c`. */
  function KvpairItems(c: Ctx, pairs: seq<(string, string)>, n: nat): (r: Ctx)
    requires Valid(c) && Top(c.nesting) == Level(Object, 0) && n <= |pairs|
    requires n > 0 ==> CanPush(c)
    ensures Valid(r)
    ensures r.dest == c.dest + Join(MemberTexts(StrMembers(pairs[..n])))
    ensures r.nesting == Pop(c.nesting) + [Level(Object, n)]
  {
    if n == 0 then
      assert c.nesting == Pop(c.nesting) + [Level(Object, 0)];
      c
    else
      var p := KvpairItems(c, pairs, n - 1);
      PairWritten(p, c.dest, Pop(c.nesting), pairs, n);
      AddKeyStr(p, Some(pairs[n - 1].0), Some(pairs[n - 1].1))
  }

  /** te_json_add_kvpair: one object with a string member per pair, in list order. */
  function AddKvpair(c: Ctx, pairs: seq<(string, string)>): (r: Ctx)
    requires Valid(c) && AcceptsValue(c)
    requires CurrentLevel(c) + (if |pairs| == 0 then 1 else 2) < MaxNest
    ensures Valid(r) && r == Written(c, Obj(StrMembers(pairs)))
  {
    var begun := StartObject(c);
    var filled := KvpairItems(begun, pairs, |pairs|);
    assert pairs[..|pairs|] == pairs;
    var members := StrMembers(pairs);
    assert Pop(begun.nesting) == Bump(c.nesting);
    SerializeObj(members);
    CompoundWritten(c, Object, |pairs|, Join(MemberTexts(members)), Obj(members));
    End(filled)
  }

  /** Once every pair is written, the object is on top and closing it completes te_json_add_kvpair. */
  lemma KvpairClosing(c: Ctx, pairs: seq<(string, string)>)
    requires Valid(c) && AcceptsValue(c)
    requires CurrentLevel(c) + (if |pairs| == 0 then 1 else 2) < MaxNest
    ensures var filled := KvpairItems(StartObject(c), pairs, |pairs|);
            Top(filled.nesting).kind == Object && End(filled) == AddKvpair(c, pairs)
  {
  }

  // ---------------------------------------------------------------------------
  // Writing an array or object item by item

  /** The array or object opened in `c` once items with the texts `texts` have been written into it. */
  function Filled(c: Ctx, kind: Compound, texts: seq<string>): (r: Ctx)
    requires Valid(c) && AcceptsValue(c) && CanPush(c) && (kind == Array || kind == Object)
    ensures Valid(r) && Top(r.nesting) == Level(kind, |texts|) && CurrentLevel(r) == CurrentLevel(c) + 1
  {
    ValidPush(c.nesting, kind, |texts|);
    Ctx(StartCompound(c, kind).dest + Join(texts), Bump(c.nesting) + [Level(kind, |texts|)])
  }

  /** A compound just opened holds no items. */
  lemma FilledEmpty(c: Ctx, kind: Compound)
    requires Valid(c) && AcceptsValue(c) && CanPush(c) && (kind == Array || kind == Object)
    ensures Filled(c, kind, []) == StartCompound(c, kind)
  {
    assert StartCompound(c, kind).dest + Join([]) == StartCompound(c, kind).dest;
  }

  /** Writing a value into an array holding `items` gives the array holding one more item. */
  lemma ArrayGrows(c: Ctx, items: seq<Json>, v: Json)
    requires Valid(c) && AcceptsValue(c) && CanPush(c)
    ensures Written(Filled(c, Array, Texts(items)), v) == Filled(c, Array, Texts(items + [v]))
  {
    var f := Filled(c, Array, Texts(items));
    WriteArrayItem(f, StartCompound(c, Array).dest, items, v);
    assert Pop(f.nesting) == Bump(c.nesting);
  }

  /** te_json_add_key_str with a value, in an object holding `members`, adds one member. */
  lemma ObjectGrows(c: Ctx, members: seq<Member>, key: string, val: string)
    requires Valid(c) && AcceptsValue(c) && |c.nesting| + 1 < MaxNest
    ensures AddKeyStr(Filled(c, Object, MemberTexts(members)), Some(key), Some(val))
              == Filled(c, Object, MemberTexts(members + [Member(key, Str(val))]))
  {
    var f := Filled(c, Object, MemberTexts(members));
    WriteObjectMember(f, StartCompound(c, Object).dest, members, key, val);
    assert Pop(f.nesting) == Bump(c.nesting);
  }

  /** Closing a filled array or object completes the value whose text it holds. */
  lemma CompoundCloses(c: Ctx, kind: Compound, texts: seq<string>, v: Json)
    requires Valid(c) && AcceptsValue(c) && CanPush(c) && (kind == Array || kind == Object)
    requires Serialize(v) == [OpenBracket(kind)] + Join(texts) + [CloseBracket(kind)]
    ensures End(Filled(c, kind, texts)) == Written(c, v)
  {
    CompoundWritten(c, kind, |texts|, Join(texts), v);
  }
}
