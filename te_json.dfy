/**
 * The JSON serialization context of lib/tools/te_json.h as it is kept in memory:
 * the destination text, the fixed array `nesting[TE_JSON_MAX_NEST]` of levels and
 * `current_level`, all updated in place by the te_json_* calls.
 *
 * `Model()` reads the live part of the stack, `nesting[0..current_level]`, and every
 * method is proved to move `Model()` exactly as the function of the same name in
 * JsonState does; what those functions write is proved there.
 */
module TeJson {
  import opened Wrappers
  import opened JsonEscape
  import opened JsonNumber
  import opened JsonValue
  import opened JsonState

  /** te_json_ctx_t */
  class JsonContext {
    /** The text of the destination te_string. */
    var dest: string
    /** te_json_level_t nesting[TE_JSON_MAX_NEST] */
    const nesting: array<Level>
    /** current_level: the index of the innermost level in use. */
    var currentLevel: nat

    ghost predicate Valid()
      reads this, nesting
    {
      nesting.Length == MaxNest && currentLevel < MaxNest && JsonState.Valid(Model())
    }

    /** The context as a value: the destination text and nesting[0..current_level]. */
    ghost function Model(): Ctx
      reads this, nesting
      requires currentLevel < nesting.Length
    {
      Ctx(dest, nesting[..currentLevel + 1])
    }

    /** TE_JSON_INIT_STR(str): the unused entries of `nesting` are zero, as in the C initializer. */
    constructor (str: string)
      ensures Valid() && Model() == Init(str)
      ensures fresh(nesting)
    {
      dest := str;
      nesting := new Level[MaxNest](_ => Level(Toplevel, 0));
      currentLevel := 0;
      new;
      assert nesting[..1] == [Level(Toplevel, 0)];
    }

    /** Writes the separator the innermost level needs before a new item and counts the item. */
    method BeginItem()
      requires Valid()
      modifies this`dest, nesting
      ensures currentLevel == old(currentLevel) && nesting.Length == MaxNest
      ensures Model() == JsonState.BeginItem(old(Model()))
    {
      var level := nesting[currentLevel];
      if level.nItems > 0 && (level.kind == Array || level.kind == Object) {
        dest := dest + ",";
      }
      nesting[currentLevel] := Level(level.kind, level.nItems + 1);
      assert nesting[..currentLevel + 1] == old(nesting[..currentLevel]) + [nesting[currentLevel]];
    }

    /** Completes a value: when it was the value of a key, the OBJECT_VALUE level is left. */
    method FinishValue()
      requires nesting.Length == MaxNest && currentLevel < MaxNest
      requires nesting[0].kind == Toplevel
      modifies this`currentLevel
      ensures currentLevel < MaxNest
      ensures Model() == JsonState.FinishValue(old(Model()))
    {
      if nesting[currentLevel].kind == ObjectValue {
        currentLevel := currentLevel - 1;
      }
    }

    /** Enters a new innermost level of the given kind, with no items yet. */
    method Push(kind: Compound)
      requires nesting.Length == MaxNest && currentLevel + 1 < MaxNest
      modifies this`currentLevel, nesting
      ensures currentLevel == old(currentLevel) + 1
      ensures Model() == Ctx(dest, old(Model()).nesting + [Level(kind, 0)])
    {
      currentLevel := currentLevel + 1;
      nesting[currentLevel] := Level(kind, 0);
      assert nesting[..currentLevel] == old(nesting[..currentLevel + 1]);
    }

    /** te_json_add_simple */
    method AddSimple(text: string)
      requires Valid() && AcceptsValue(Model())
      modifies this, nesting
      ensures Valid() && Model() == JsonState.AddSimple(old(Model()), text)
    {
      BeginItem();
      dest := dest + text;
      FinishValue();
      assert Model() == JsonState.AddSimple(old(Model()), text);
    }

    /** te_json_add_null */
    method AddNull()
      requires Valid() && AcceptsValue(Model())
      modifies this, nesting
      ensures Valid() && Model() == JsonState.AddNull(old(Model()))
    {
      AddSimple("null");
    }

    /** te_json_add_bool */
    method AddBool(val: bool)
      requires Valid() && AcceptsValue(Model())
      modifies this, nesting
      ensures Valid() && Model() == JsonState.AddBool(old(Model()), val)
    {
      AddSimple(if val then "true" else "false");
    }

    /** te_json_add_integer */
    method AddInteger(val: IntMax)
      requires Valid() && AcceptsValue(Model())
      modifies this, nesting
      ensures Valid() && Model() == JsonState.AddInteger(old(Model()), val)
    {
      AddSimple(IntToDecimal(val));
    }

    /** te_json_add_float */
    method AddFloat(val: Double, precision: nat)
      requires Valid() && AcceptsValue(Model())
      modifies this, nesting
      ensures Valid() && Model() == JsonState.AddFloat(old(Model()), val, precision)
    {
      if !val.Finite? {
        AddNull();
      } else {
        AddSimple(val.render(precision));
      }
    }

    /** te_json_add_string */
    method AddString(s: string)
      requires Valid() && AcceptsValue(Model())
      modifies this, nesting
      ensures Valid() && Model() == JsonState.AddString(old(Model()), s)
    {
      AddSimple(Quote(s));
    }

    /** The common part of te_json_start_array and te_json_start_object. */
    method StartCompound(kind: Compound)
      requires Valid() && AcceptsValue(Model()) && CanPush(Model())
      requires kind == Array || kind == Object
      modifies this, nesting
      ensures Valid() && Model() == JsonState.StartCompound(old(Model()), kind)
    {
      BeginItem();
      dest := dest + [OpenBracket(kind)];
      Push(kind);
      assert Model() == JsonState.StartCompound(old(Model()), kind);
    }

    /** te_json_start_array */
    method StartArray()
      requires Valid() && AcceptsValue(Model()) && CanPush(Model())
      modifies this, nesting
      ensures Valid() && Model() == JsonState.StartArray(old(Model()))
    {
      StartCompound(Array);
    }

    /** te_json_start_object */
    method StartObject()
      requires Valid() && AcceptsValue(Model()) && CanPush(Model())
      modifies this, nesting
      ensures Valid() && Model() == JsonState.StartObject(old(Model()))
    {
      StartCompound(Object);
    }

    /** te_json_end */
    method End()
      requires Valid() && Top(Model().nesting).kind != ObjectValue
      modifies this
      ensures Valid() && Model() == JsonState.End(old(Model()))
    {
      ghost var before := Model();
      var kind := nesting[currentLevel].kind;
      if kind == Toplevel {
        return;
      }
      ValidClose(before.nesting);
      dest := dest + [CloseBracket(kind)];
      currentLevel := currentLevel - 1;
      assert Model() == Ctx(before.dest + [CloseBracket(kind)], Pop(before.nesting));
      FinishValue();
      assert Model() == JsonState.End(before);
    }

    /** te_json_add_key */
    method AddKey(key: Option<string>)
      requires Valid() && Top(Model().nesting).kind == Object && CanPush(Model())
      modifies this, nesting
      ensures Valid() && Model() == JsonState.AddKey(old(Model()), key)
    {
      BeginItem();
      dest := dest + KeyPrefix(KeyText(key));
      Push(ObjectValue);
      assert Model() == JsonState.AddKey(old(Model()), key);
    }

    /** te_json_add_key_str */
    method AddKeyStr(key: Option<string>, val: Option<string>)
      requires Valid()
      requires val.Some? ==> Top(Model().nesting).kind == Object && CanPush(Model())
      modifies this, nesting
      ensures Valid() && Model() == JsonState.AddKeyStr(old(Model()), key, val)
    {
      if val.Some? {
        AddKey(key);
        AddString(val.value);
      }
    }

    /** te_json_add_key_enum */
    method AddKeyEnum(enumMap: map<int, Option<string>>, key: Option<string>, val: int)
      requires Valid()
      requires EnumName(enumMap, val).Some? ==> Top(Model().nesting).kind == Object && CanPush(Model())
      modifies this, nesting
      ensures Valid() && Model() == JsonState.AddKeyEnum(old(Model()), enumMap, key, val)
    {
      AddKeyStr(key, EnumName(enumMap, val));
    }

    /** One entry of the list given to te_json_add_array_str. */
    method AddArrayEntry(skipNull: bool, entry: Option<string>)
      requires Valid() && AcceptsValue(Model())
      modifies this, nesting
      ensures Valid() && Model() == JsonState.AddArrayEntry(old(Model()), skipNull, entry)
    {
      match entry {
        case Some(s) => AddString(s);
        case None =>
          if !skipNull {
            AddNull();
          }
      }
    }

    /** Writes entry `i` of the list, after those before it. */
    method AddArrayStrEntry(ghost begun: Ctx, skipNull: bool, strs: seq<Option<string>>, i: nat)
      requires JsonState.Valid(begun) && Top(begun.nesting) == Level(Array, 0) && i < |strs|
      requires nesting.Length == MaxNest && currentLevel < MaxNest
      requires Model() == ArrayStrItems(begun, skipNull, strs, i)
      modifies this, nesting
      ensures nesting.Length == MaxNest && currentLevel < MaxNest
      ensures Model() == ArrayStrItems(begun, skipNull, strs, i + 1)
    {
      AddArrayEntry(skipNull, strs[i]);
    }

    /** te_json_add_array_str */
    method AddArrayStr(skipNull: bool, strs: seq<Option<string>>)
      requires Valid() && AcceptsValue(Model()) && CanPush(Model())
      modifies this, nesting
      ensures Valid() && Model() == JsonState.AddArrayStr(old(Model()), skipNull, strs)
    {
      ghost var start := Model();
      StartArray();
      ghost var begun := Model();
      var i := 0;
      while i < |strs|
        invariant 0 <= i <= |strs|
        invariant nesting.Length == MaxNest && currentLevel < MaxNest
        invariant Model() == ArrayStrItems(begun, skipNull, strs, i)
      {
        AddArrayStrEntry(begun, skipNull, strs, i);
        i := i + 1;
      }
      assert Model() == ArrayStrItems(begun, skipNull, strs, |strs|);
      ArrayStrClosing(start, skipNull, strs);
      End();
    }

    /** Writes the member of pair `i`, after those of the pairs before it. */
    method AddKvpairMember(ghost begun: Ctx, pairs: seq<(string, string)>, i: nat)
      requires JsonState.Valid(begun) && Top(begun.nesting) == Level(Object, 0) && CanPush(begun) && i < |pairs|
      requires nesting.Length == MaxNest && currentLevel < MaxNest
      requires Model() == KvpairItems(begun, pairs, i)
      modifies this, nesting
      ensures nesting.Length == MaxNest && currentLevel < MaxNest
      ensures Model() == KvpairItems(begun, pairs, i + 1)
    {
      AddKeyStr(Some(pairs[i].0), Some(pairs[i].1));
    }

    /** te_json_add_kvpair: the list is given as its pairs in list order. */
    method AddKvpair(pairs: seq<(string, string)>)
      requires Valid() && AcceptsValue(Model())
      requires CurrentLevel(Model()) + (if |pairs| == 0 then 1 else 2) < MaxNest
      modifies this, nesting
      ensures Valid() && Model() == JsonState.AddKvpair(old(Model()), pairs)
    {
      ghost var start := Model();
      StartObject();
      ghost var begun := Model();
      var i := 0;
      while i < |pairs|
        invariant 0 <= i <= |pairs|
        invariant nesting.Length == MaxNest && currentLevel < MaxNest
        invariant Model() == KvpairItems(begun, pairs, i)
      {
        AddKvpairMember(begun, pairs, i);
        i := i + 1;
      }
      KvpairClosing(start, pairs);
      End();
    }
  }
}
