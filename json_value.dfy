/**
 * A JSON document as a value, and its compact text (RFC 8259: objects in section 4,
 * arrays in section 5, numbers in section 6, strings in section 7) with no whitespace
 * between tokens. This is the reference that the streaming writer is proved against:
 * each te_json_add_* call writes the text of exactly one such value.
 *
 * Object keys are written as they are, without escaping, because te_json_add_key
 * assumes its key needs none.
 */
module JsonValue {
  import opened JsonEscape
  import opened JsonNumber

  datatype Json =
    | Null
    | Bool(b: bool)
    | Int(i: int)
    | Raw(text: string)       // text rendered by the caller (te_json_add_simple, finite floats)
    | Str(s: string)
    | Arr(items: seq<Json>)
    | Obj(members: seq<Member>)

  datatype Member = Member(key: string, value: Json)

  /** The parts separated by single commas. */
  function Join(parts: seq<string>): string {
    if |parts| == 0 then ""
    else Join(parts[..|parts| - 1]) + (if |parts| > 1 then "," else "") + parts[|parts| - 1]
  }

  /** The compact JSON text of `v`. */
  function Serialize(v: Json): string
    decreases v
  {
    match v
    case Null => "null"
    case Bool(b) => if b then "true" else "false"
    case Int(i) => IntToDecimal(i)
    case Raw(text) => text
    case Str(s) => Quote(s)
    case Arr(items) =>
      "[" + Join(seq(|items|, k requires 0 <= k < |items| => Serialize(items[k]))) + "]"
    case Obj(members) =>
      "{" + Join(seq(|members|, k requires 0 <= k < |members| =>
                   KeyPrefix(members[k].key) + Serialize(members[k].value))) + "}"
  }

  /** The texts of a sequence of values, one per value. */
  function Texts(items: seq<Json>): (r: seq<string>)
    ensures |r| == |items|
  {
    seq(|items|, k requires 0 <= k < |items| => Serialize(items[k]))
  }

  /** What precedes a member's value: the key in quotes and a colon. */
  function KeyPrefix(key: string): string {
    "\"" + key + "\":"
  }

  /** The text of one object member. */
  function MemberText(m: Member): string {
    KeyPrefix(m.key) + Serialize(m.value)
  }

  function MemberTexts(members: seq<Member>): (r: seq<string>)
    ensures |r| == |members|
  {
    seq(|members|, k requires 0 <= k < |members| => MemberText(members[k]))
  }

  /** Strings as JSON string values. */
  function Strs(strs: seq<string>): (r: seq<Json>)
    ensures |r| == |strs|
  {
    seq(|strs|, k requires 0 <= k < |strs| => Str(strs[k]))
  }

  /** Integers as JSON numbers. */
  function Ints(row: seq<int>): (r: seq<Json>)
    ensures |r| == |row|
  {
    seq(|row|, k requires 0 <= k < |row| => Int(row[k]))
  }

  /** Key/value string pairs as object members with string values. */
  function StrMembers(pairs: seq<(string, string)>): (r: seq<Member>)
    ensures |r| == |pairs|
  {
    seq(|pairs|, k requires 0 <= k < |pairs| => Member(pairs[k].0, Str(pairs[k].1)))
  }

  /** Appending one part adds a comma exactly when something was there before. */
  lemma JoinSnoc(parts: seq<string>, x: string)
    ensures Join(parts + [x]) == Join(parts) + (if |parts| > 0 then "," else "") + x
  {
    assert (parts + [x])[..|parts|] == parts;
  }

  lemma SerializeArr(items: seq<Json>)
    ensures Serialize(Arr(items)) == "[" + Join(Texts(items)) + "]"
  {
    assert Texts(items) == seq(|items|, k requires 0 <= k < |items| => Serialize(items[k]));
  }

  lemma SerializeObj(members: seq<Member>)
    ensures Serialize(Obj(members)) == "{" + Join(MemberTexts(members)) + "}"
  {
    assert MemberTexts(members) == seq(|members|, k requires 0 <= k < |members| =>
                                         KeyPrefix(members[k].key) + Serialize(members[k].value));
  }

  /** A single part is joined without a comma; two parts get one. */
  lemma JoinSmall(x: string, y: string)
    ensures Join([x]) == x
    ensures Join([x, y]) == x + "," + y
  {
    JoinSnoc([], x);
    JoinSnoc([x], y);
  }

  /** An array of one value. */
  lemma SerializeArr1(v: Json)
    ensures Serialize(Arr([v])) == "[" + Serialize(v) + "]"
  {
    SerializeArr([v]);
    assert Texts([v]) == [Serialize(v)];
    JoinSmall(Serialize(v), "");
  }

  /** An array of two values. */
  lemma SerializeArr2(v: Json, w: Json)
    ensures Serialize(Arr([v, w])) == "[" + Serialize(v) + "," + Serialize(w) + "]"
  {
    SerializeArr([v, w]);
    assert Texts([v, w]) == [Serialize(v), Serialize(w)];
    JoinSmall(Serialize(v), Serialize(w));
  }

  /** An object of one member. */
  lemma SerializeObj1(m: Member)
    ensures Serialize(Obj([m])) == "{" + MemberText(m) + "}"
  {
    SerializeObj([m]);
    assert MemberTexts([m]) == [MemberText(m)];
    JoinSmall(MemberText(m), "");
  }

  /** An object of two members. */
  lemma SerializeObj2(m: Member, n: Member)
    ensures Serialize(Obj([m, n])) == "{" + MemberText(m) + "," + MemberText(n) + "}"
  {
    SerializeObj([m, n]);
    assert MemberTexts([m, n]) == [MemberText(m), MemberText(n)];
    JoinSmall(MemberText(m), MemberText(n));
  }

  lemma TextsSnoc(items: seq<Json>, v: Json)
    ensures Texts(items + [v]) == Texts(items) + [Serialize(v)]
  {
  }

  lemma StrsPrefix(strs: seq<string>, i: nat)
    requires i < |strs|
    ensures Strs(strs[..i + 1]) == Strs(strs[..i]) + [Str(strs[i])]
  {
    assert forall k :: 0 <= k <= i ==> Strs(strs[..i + 1])[k] == (Strs(strs[..i]) + [Str(strs[i])])[k];
  }

  lemma IntsPrefix(row: seq<int>, i: nat)
    requires i < |row|
    ensures Ints(row[..i + 1]) == Ints(row[..i]) + [Int(row[i])]
  {
    assert forall k :: 0 <= k <= i ==> Ints(row[..i + 1])[k] == (Ints(row[..i]) + [Int(row[i])])[k];
  }

  lemma StrMembersPrefix(pairs: seq<(string, string)>, i: nat)
    requires i < |pairs|
    ensures StrMembers(pairs[..i + 1]) == StrMembers(pairs[..i]) + [Member(pairs[i].0, Str(pairs[i].1))]
  {
    assert forall k :: 0 <= k <= i ==>
      StrMembers(pairs[..i + 1])[k] == (StrMembers(pairs[..i]) + [Member(pairs[i].0, Str(pairs[i].1))])[k];
  }

  lemma MemberTextsSnoc(members: seq<Member>, m: Member)
    ensures MemberTexts(members + [m]) == MemberTexts(members) + [MemberText(m)]
  {
  }
}
