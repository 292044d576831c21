/** The JSON values that cross the system's boundaries (Twilio events, the
    transcription server's replies, the dialogue model's output, the call
    context), with the JavaScript rules the source relies on: truthiness,
    property access and `a || b`. Numbers are integers here. */
module Json {
  import opened Wrappers
  import Text

  datatype Value =
    | Null
    | Bool(b: bool)
    | Num(n: int)
    | Str(s: string)
    | Arr(items: seq<Value>)
    | Obj(fields: map<string, Value>)

  /** A plain JavaScript object: own keys to values. */
  type Object = map<string, Value>

  /** JavaScript `ToBoolean`. */
  predicate Truthy(v: Value)
  {
    match v
    case Null => false
    case Bool(b) => b
    case Num(n) => n != 0
    case Str(s) => s != ""
    case Arr(_) => true
    case Obj(_) => true
  }

  /** `undefined` is falsy too. */
  predicate TruthyOpt(v: Option<Value>)
  {
    v.Some? && Truthy(v.value)
  }

  /** `v.key` (or `v?.key`) on a value that is not null: objects yield their own
      key, every other value has no such property (`undefined`, here `None`). */
  function Get(v: Value, key: string): (r: Option<Value>)
    ensures r.Some? <==> v.Obj? && key in v.fields
  {
    if v.Obj? && key in v.fields then Some(v.fields[key]) else None
  }

  /** The assignment `o.key = v`. An `undefined` value (`None`) is kept as an
      absent key: reading the key back gives `undefined` either way, and
      `JSON.stringify` leaves such a key out. */
  function SetProp(o: Object, key: string, v: Option<Value>): (r: Object)
    ensures Get(Obj(r), key) == v
    ensures forall k :: k in o && k != key ==> k in r && r[k] == o[k]
    ensures forall k :: k in r && k != key ==> k in o
  {
    if v.Some? then o[key := v.value] else o - {key}
  }

  /** `a || b` where `a` may be undefined. */
  function Or(a: Option<Value>, b: Value): (r: Value)
    ensures TruthyOpt(a) ==> r == a.value
    ensures !TruthyOpt(a) ==> r == b
  {
    if TruthyOpt(a) then a.value else b
  }

  /** Object spread `{ ...v }`: an object contributes its own keys, an array
      its elements and a string its characters under the index keys "0",
      "1", …; `null`, `undefined`, numbers and booleans contribute nothing. */
  function Spread(v: Option<Value>): (r: Object)
    ensures v.Some? && v.value.Obj? ==> r == v.value.fields
    ensures v.Some? && v.value.Arr? ==> r == Indexed(v.value.items)
    ensures v.Some? && v.value.Str? ==> r == Indexed(Chars(v.value.s))
    ensures v.None? || v.value.Null? || v.value.Bool? || v.value.Num? ==> r == map[]
  {
    if v.None? then map[]
    else match v.value
      case Obj(fields) => fields
      case Arr(items) => Indexed(items)
      case Str(s) => Indexed(Chars(s))
      case _ => map[]
  }

  /** A string's characters as one-character strings. */
  function Chars(s: string): (r: seq<Value>)
    ensures |r| == |s| && forall i :: 0 <= i < |s| ==> r[i] == Str([s[i]])
  {
    seq(|s|, i requires 0 <= i < |s| => Str([s[i]]))
  }

  /** The elements of a sequence under their index keys. */
  function Indexed(items: seq<Value>): Object
  {
    if items == [] then map[]
    else Indexed(items[..|items| - 1])[Text.NatToString(|items| - 1) := items[|items| - 1]]
  }

  /** The keys of `Indexed(items)` are exactly the rendered indices, and each
      holds its element. */
  lemma {:induction false} SpreadIndices(items: seq<Value>)
    ensures forall i :: 0 <= i < |items| ==> Text.NatToString(i) in Indexed(items)
                                             && Indexed(items)[Text.NatToString(i)] == items[i]
    ensures forall k :: k in Indexed(items) ==> exists i :: 0 <= i < |items| && k == Text.NatToString(i)
  {
    if items != [] {
      var n := |items| - 1;
      var init := items[..n];
      SpreadIndices(init);
      forall i | 0 <= i < |items|
        ensures Text.NatToString(i) in Indexed(items) && Indexed(items)[Text.NatToString(i)] == items[i]
      {
        Text.NatToStringInjective(i, n);
        if i < n {
          assert init[i] == items[i];
        }
      }
    }
  }

  /** Spreading the string "ab" adds the keys "0" and "1". */
  lemma SpreadString()
    ensures Spread(Some(Str("ab"))) == map["0" := Str("a"), "1" := Str("b")]
  {
    var c := Chars("ab");
    assert c == [Str("a"), Str("b")];
    assert c[..1] == [Str("a")] && c[..1][..0] == [];
    assert Text.NatToString(0) == "0" && Text.NatToString(1) == "1";
    assert Indexed(c[..1][..0]) == map[];
    assert Indexed(c[..1]) == map["0" := Str("a")];
    assert Indexed(c) == map["0" := Str("a")]["1" := Str("b")];
  }
}
