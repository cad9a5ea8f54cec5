/**
 * JSON values (RFC 8259) as serde produces them for the client's types, and
 * their compact textual form (serde_json::to_string).
 *
 * A Rust struct serialises to an object whose keys come in field-declaration
 * order: `JObj` keeps its members as a sequence. A hash map serialises to an
 * object whose key order is unspecified: `JDict` keeps a Dafny map. An `f64`
 * is carried as its bit pattern (`JFloat`), never computed with.
 */
module Json {
  import opened Wrappers

  /** Rust's u128, the width of the numeric filter operands. */
  type uint128 = x: nat | x < 0x1_0000_0000_0000_0000_0000_0000_0000_0000

  /** Rust's u32. */
  type uint32 = x: nat | x < 0x1_0000_0000

  /** An IEEE-754 double, kept as its 64 bits. */
  datatype F64 = F64(bits: bv64)

  datatype Json =
    | JNull
    | JBool(b: bool)
    | JNum(n: nat)
    | JFloat(f: F64)
    | JStr(s: string)
    | JArr(items: seq<Json>)
    | JObj(members: seq<(string, Json)>)
    | JDict(entries: map<string, Json>)

  /** The keys of an object's members, in order. */
  function Keys(ms: seq<(string, Json)>): seq<string>
  {
    seq(|ms|, i requires 0 <= i < |ms| => ms[i].0)
  }

  /** `j` is an object that has a member named `k`. */
  ghost predicate Emits(j: Json, k: string)
  {
    j.JObj? && exists v :: (k, v) in j.members
  }

  // Member builders, one per serde field rule.

  /** A field that is always serialised. */
  function Field(key: string, v: Json): seq<(string, Json)>
  {
    [(key, v)]
  }

  /** `skip_serializing_if = "Option::is_none"` on an already encoded value. */
  function Opt(key: string, v: Option<Json>): (ms: seq<(string, Json)>)
    ensures v.Some? && Textual(v.value) ==> forall m :: m in ms ==> Textual(m.1)
    ensures forall m :: m in ms ==> m.0 == key
    ensures v.None? ==> ms == []
  {
    if v.Some? then [(key, v.value)] else []
  }

  function OptStr(key: string, o: Option<string>): (ms: seq<(string, Json)>)
    ensures forall m :: m in ms ==> Textual(m.1)
  {
    if o.Some? then [(key, JStr(o.value))] else []
  }

  function OptBool(key: string, o: Option<bool>): (ms: seq<(string, Json)>)
    ensures forall m :: m in ms ==> Textual(m.1)
  {
    if o.Some? then [(key, JBool(o.value))] else []
  }

  function OptNum(key: string, o: Option<uint128>): (ms: seq<(string, Json)>)
    ensures forall m :: m in ms ==> Textual(m.1)
  {
    if o.Some? then [(key, JNum(o.value))] else []
  }

  /** `skip_serializing_if = "String::is_empty"`. */
  function NonEmptyStr(key: string, s: string): (ms: seq<(string, Json)>)
    ensures forall m :: m in ms ==> Textual(m.1)
  {
    if s == "" then [] else [(key, JStr(s))]
  }

  /** `skip_serializing_if = "std::ops::Not::not"`: a flag that appears only when true. */
  function IfTrue(key: string, b: bool): (ms: seq<(string, Json)>)
    ensures forall m :: m in ms ==> Textual(m.1)
  {
    if b then [(key, JBool(true))] else []
  }

  /** An `Option<String>` serialised without a skip rule: `None` becomes `null`. */
  function Nullable(o: Option<string>): Json
  {
    if o.Some? then JStr(o.value) else JNull
  }

  /** A string-to-string hash map. */
  function StrDict(m: map<string, string>): Json
  {
    JDict(map k | k in m :: JStr(m[k]))
  }

  // Text form.

  /** JSON that has a textual form in this model: no hash map (unordered) and no float. */
  predicate Textual(j: Json)
  {
    match j
    case JFloat(_) => false
    case JDict(_) => false
    case JArr(items) => forall x :: x in items ==> Textual(x)
    case JObj(ms) => forall m :: m in ms ==> Textual(m.1)
    case _ => true
  }

  function Digit(d: nat): char
    requires d < 10
  {
    "0123456789"[d]
  }

  function NatToString(n: nat): string
  {
    if n < 10 then [Digit(n)] else NatToString(n / 10) + [Digit(n % 10)]
  }

  /** A quoted string; character escaping is not modelled. */
  function Quote(s: string): string
  {
    "\"" + s + "\""
  }

  /** serde_json's compact form: no whitespace, members in sequence order. */
  function Render(j: Json): string
    requires Textual(j)
  {
    match j
    case JNull => "null"
    case JBool(b) => if b then "true" else "false"
    case JNum(n) => NatToString(n)
    case JStr(s) => Quote(s)
    case JArr(items) => "[" + RenderItems(items) + "]"
    case JObj(ms) => "{" + RenderMembers(j, ms) + "}"
  }

  /** Array elements separated by commas. */
  function RenderItems(items: seq<Json>): string
    requires forall i :: 0 <= i < |items| ==> Textual(items[i])
  {
    if items == [] then ""
    else Render(items[0]) + (if |items| == 1 then "" else "," + RenderItems(items[1..]))
  }

  /** Object members `"key":value` separated by commas; `parent` is the object they belong to. */
  function RenderMembers(ghost parent: Json, ms: seq<(string, Json)>): string
    requires forall i :: 0 <= i < |ms| ==> ms[i].1 < parent && Textual(ms[i].1)
    decreases parent, |ms|
  {
    if ms == [] then ""
    else Quote(ms[0].0) + ":" + Render(ms[0].1) + (if |ms| == 1 then "" else "," + RenderMembers(parent, ms[1..]))
  }

  /** The text of a one-member object. */
  lemma RenderOne(k: string, v: Json)
    requires Textual(v)
    ensures Textual(JObj([(k, v)]))
    ensures Render(JObj([(k, v)])) == ("{" + Quote(k) + ":") + Render(v) + "}"
  {
  }

  /** The text of a two-member object. */
  lemma RenderTwo(k1: string, v1: Json, k2: string, v2: Json)
    requires Textual(v1) && Textual(v2)
    ensures Textual(JObj([(k1, v1), (k2, v2)]))
    ensures Render(JObj([(k1, v1), (k2, v2)]))
      == ("{" + Quote(k1) + ":") + Render(v1) + ("," + Quote(k2) + ":") + Render(v2) + "}"
  {
    var j := JObj([(k1, v1), (k2, v2)]);
    assert j.members[1..] == [(k2, v2)];
    assert RenderMembers(j, j.members[1..]) == Quote(k2) + ":" + Render(v2);
  }

  /** The text of a two-element array. */
  lemma RenderArrTwo(a: Json, b: Json)
    requires Textual(a) && Textual(b)
    ensures Textual(JArr([a, b]))
    ensures Render(JArr([a, b])) == "[" + Render(a) + "," + Render(b) + "]"
  {
    assert [a, b][1..] == [b];
    assert RenderItems([b]) == Render(b);
    assert RenderItems([a, b]) == Render(a) + ("," + Render(b));
  }

  /** The text of a three-element array. */
  lemma RenderArrThree(a: Json, b: Json, c: Json)
    requires Textual(a) && Textual(b) && Textual(c)
    ensures Textual(JArr([a, b, c]))
    ensures Render(JArr([a, b, c])) == "[" + Render(a) + "," + Render(b) + "," + Render(c) + "]"
  {
    assert [a, b, c][1..] == [b, c];
    assert [b, c][1..] == [c];
    assert RenderItems([c]) == Render(c);
    assert RenderItems([b, c]) == Render(b) + ("," + Render(c));
    var ra, rb, rc := Render(a), Render(b), Render(c);
    assert RenderItems([a, b, c]) == ra + ("," + (rb + ("," + rc)));
    calc {
      "[" + (ra + ("," + (rb + ("," + rc))));
      { Assoc("[", ra, "," + (rb + ("," + rc))); }
      ("[" + ra) + ("," + (rb + ("," + rc)));
      { Assoc("[" + ra, ",", rb + ("," + rc)); }
      ("[" + ra + ",") + (rb + ("," + rc));
      { Assoc("[" + ra + ",", rb, "," + rc); }
      ("[" + ra + "," + rb) + ("," + rc);
      { Assoc("[" + ra + "," + rb, ",", rc); }
      "[" + ra + "," + rb + "," + rc;
    }
  }

  lemma Assoc(a: string, b: string, c: string)
    ensures a + (b + c) == a + b + c
  {
  }
}
