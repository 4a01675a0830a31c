/** The JSON tagging of typed arrays used to persist the stores
    (`replacer`, `reviver`, `serialize`, `deserialize`; the same code appears in
    app/stores/IndexedDbStore.ts and app/stores/spectrogram/use-store.ts and is
    modelled once). A JSON document is modelled as its value tree; turning
    the tree into text and back is left to the caller (`parse`). */
module Persistence {
  import opened Wrappers

  /** JavaScript values as they appear while a state is stringified or parsed.
      `F32` is a Float32Array. */
  datatype Value =
    | Null
    | Undefined
    | Bool(b: bool)
    | Num(n: real)
    | Str(s: string)
    | Arr(items: seq<Value>)
    | Obj(fields: map<string, Value>)
    | F32(data: seq<real>)

  const TypeKey: string := "__type"
  const DataKey: string := "data"
  const TypeTag: string := "Float32Array"

  /** The tagged object `{__type: 'Float32Array', data: [...]}`. */
  function Tagged(data: seq<real>): (r: Value)
    ensures r.Obj? && r.fields.Keys == {TypeKey, DataKey}
    ensures r.fields[TypeKey] == Str(TypeTag)
    ensures r.fields[DataKey].Arr? && |r.fields[DataKey].items| == |data|
    ensures forall i :: 0 <= i < |data| ==> r.fields[DataKey].items[i] == Num(data[i])
  {
    Obj(map[TypeKey := Str(TypeTag), DataKey := Arr(seq(|data|, i requires 0 <= i < |data| => Num(data[i])))])
  }

  /** A non-null object whose `__type` is `'Float32Array'` and whose `data` is an array. */
  predicate IsTagged(v: Value)
  {
    v.Obj? && TypeKey in v.fields && v.fields[TypeKey] == Str(TypeTag)
    && DataKey in v.fields && v.fields[DataKey].Arr?
  }

  /** A Float32Array becomes its tagged object; every other value is unchanged. */
  function Replacer(value: Value): (r: Value)
    ensures value.F32? ==> r == Tagged(value.data)
    ensures !value.F32? ==> r == value
    ensures !r.F32?
  {
    if value.F32? then Tagged(value.data) else value
  }

  /** The number an array element becomes in `new Float32Array(data)`:
      numbers stay, booleans and null convert, and the conversion of any
      other value (strings, objects) is left to `toNumber`. */
  function ElementNumber(toNumber: Value -> real, v: Value): real
  {
    match v
    case Num(n) => n
    case Bool(b) => if b then 1.0 else 0.0
    case Null => 0.0
    case _ => toNumber(v)
  }

  /** A tagged object becomes a Float32Array of its `data`; every other value,
      including null and arrays, is unchanged. */
  function Reviver(toNumber: Value -> real, value: Value): (r: Value)
    ensures IsTagged(value) ==> r.F32? && |r.data| == |value.fields[DataKey].items|
    ensures IsTagged(value) ==> forall i :: 0 <= i < |r.data| ==>
      r.data[i] == ElementNumber(toNumber, value.fields[DataKey].items[i])
    ensures !IsTagged(value) ==> r == value
  {
    if IsTagged(value) then
      var items := value.fields[DataKey].items;
      F32(seq(|items|, i requires 0 <= i < |items| => ElementNumber(toNumber, items[i])))
    else value
  }

  /** Reviving a replaced Float32Array gives back the same elements. */
  lemma ReviveReplaced(toNumber: Value -> real, data: seq<real>)
    ensures Reviver(toNumber, Replacer(F32(data))) == F32(data)
  {
    var r := Reviver(toNumber, Replacer(F32(data)));
    assert IsTagged(Tagged(data));
    assert r.data == data;
  }

  /** `JSON.stringify(value, replacer)` as a tree: the replacer sees each value
      before its children are visited, and only arrays and objects are left
      unchanged by it. The children of a tagged typed array are numbers,
      which the replacer returns unchanged, so that object is final. An
      object member whose value is `undefined` is omitted, and an `undefined`
      array element is written as `null`. The result holds only JSON values:
      no typed arrays, and no `undefined` below the top level. */
  function DeepReplace(value: Value): (r: Value)
    ensures NoTypedArrays(r)
    ensures !value.Undefined? ==> NoUndefined(r)
  {
    match value
    case F32(data) =>
      var t := Tagged(data);
      assert forall i :: 0 <= i < |data| ==> NoTypedArrays(t.fields[DataKey].items[i]) && NoUndefined(t.fields[DataKey].items[i]);
      t
    case Arr(items) => Arr(seq(|items|, i requires 0 <= i < |items| =>
                             if items[i].Undefined? then Null else DeepReplace(items[i])))
    case Obj(fields) => Obj(map k | k in fields && !fields[k].Undefined? :: DeepReplace(fields[k]))
    case other => Replacer(other)
  }

  /** `JSON.parse(text, reviver)` as a tree: the reviver sees each value after
      its children have been revived. A tree with no object that looks like
      a tagged typed array comes back unchanged. */
  function DeepRevive(toNumber: Value -> real, value: Value): (r: Value)
    ensures NoTagLookalikes(value) ==> r == value
  {
    match value
    case Arr(items) =>
      var revived := seq(|items|, i requires 0 <= i < |items| => DeepRevive(toNumber, items[i]));
      assert NoTagLookalikes(value) ==> revived == items;
      Reviver(toNumber, Arr(revived))
    case Obj(fields) =>
      var revived := map k | k in fields :: DeepRevive(toNumber, fields[k]);
      assert NoTagLookalikes(value) ==> revived == fields;
      Reviver(toNumber, Obj(revived))
    case other => Reviver(toNumber, other)
  }

  /** No typed array anywhere in the tree. */
  predicate NoTypedArrays(value: Value)
  {
    match value
    case F32(_) => false
    case Arr(items) => forall i :: 0 <= i < |items| ==> NoTypedArrays(items[i])
    case Obj(fields) => forall k :: k in fields ==> NoTypedArrays(fields[k])
    case _ => true
  }

  /** No `undefined` anywhere in the tree. */
  predicate NoUndefined(value: Value)
  {
    match value
    case Undefined => false
    case Arr(items) => forall i :: 0 <= i < |items| ==> NoUndefined(items[i])
    case Obj(fields) => forall k :: k in fields ==> NoUndefined(fields[k])
    case _ => true
  }

  /** No object in the tree already looks like a tagged typed array. */
  predicate NoTagLookalikes(value: Value)
  {
    match value
    case Arr(items) => forall i :: 0 <= i < |items| ==> NoTagLookalikes(items[i])
    case Obj(fields) => !IsTagged(value) && forall k :: k in fields ==> NoTagLookalikes(fields[k])
    case _ => true
  }

  /** Round trip: reviving the stringified tree restores every typed array,
      as long as the state holds no `undefined` (which stringifying drops or
      turns into `null`) and no object of it already looked like a tagged one. */
  lemma {:induction false} RoundTrip(toNumber: Value -> real, value: Value)
    requires NoTagLookalikes(value) && NoUndefined(value)
    ensures DeepRevive(toNumber, DeepReplace(value)) == value
  {
    match value
    case F32(data) =>
      RoundTripTyped(toNumber, data);
    case Arr(items) =>
      forall i | 0 <= i < |items|
        ensures DeepRevive(toNumber, DeepReplace(items[i])) == items[i]
      {
        RoundTrip(toNumber, items[i]);
      }
      RoundTripArr(toNumber, items);
    case Obj(fields) =>
      forall k | k in fields
        ensures DeepRevive(toNumber, DeepReplace(fields[k])) == fields[k]
      {
        RoundTrip(toNumber, fields[k]);
      }
      RoundTripObj(toNumber, fields);
    case _ =>
  }

  /** The array step of the round trip, given that every element round-trips. */
  lemma RoundTripArr(toNumber: Value -> real, items: seq<Value>)
    requires forall i :: 0 <= i < |items| ==> !items[i].Undefined?
    requires forall i :: 0 <= i < |items| ==> DeepRevive(toNumber, DeepReplace(items[i])) == items[i]
    ensures DeepRevive(toNumber, DeepReplace(Arr(items))) == Arr(items)
  {
    var replaced := seq(|items|, i requires 0 <= i < |items| => DeepReplace(items[i]));
    assert DeepReplace(Arr(items)) == Arr(replaced);
    var revived := seq(|replaced|, i requires 0 <= i < |replaced| => DeepRevive(toNumber, replaced[i]));
    assert revived == items;
  }

  /** The object step of the round trip, given that every member round-trips
      and that the object does not look like a tagged typed array. */
  lemma RoundTripObj(toNumber: Value -> real, fields: map<string, Value>)
    requires !IsTagged(Obj(fields))
    requires forall k :: k in fields ==> !fields[k].Undefined?
    requires forall k :: k in fields ==> DeepRevive(toNumber, DeepReplace(fields[k])) == fields[k]
    ensures DeepRevive(toNumber, DeepReplace(Obj(fields))) == Obj(fields)
  {
    var replaced := map k | k in fields :: DeepReplace(fields[k]);
    ReplaceKeepsMembers(fields);
    ReviveMembers(toNumber, replaced, fields);
  }

  /** Stringifying an object without `undefined` members keeps every member. */
  lemma ReplaceKeepsMembers(fields: map<string, Value>)
    requires forall k :: k in fields ==> !fields[k].Undefined?
    ensures DeepReplace(Obj(fields)) == Obj(map k | k in fields :: DeepReplace(fields[k]))
  {
    assert (map k | k in fields && !fields[k].Undefined? :: DeepReplace(fields[k]))
        == (map k | k in fields :: DeepReplace(fields[k]));
  }

  /** Reviving members that each revive to the original members gives the original object. */
  lemma ReviveMembers(toNumber: Value -> real, replaced: map<string, Value>, fields: map<string, Value>)
    requires !IsTagged(Obj(fields))
    requires replaced.Keys == fields.Keys
    requires forall k :: k in replaced ==> DeepRevive(toNumber, replaced[k]) == fields[k]
    ensures DeepRevive(toNumber, Obj(replaced)) == Obj(fields)
  {
    var revived := map k | k in replaced :: DeepRevive(toNumber, replaced[k]);
    assert revived == fields;
  }

  /** A typed array comes back from its tagged object: the tag's fields are
      numbers and strings, which the reviver passes through, so only the
      object itself is revived. */
  lemma RoundTripTyped(toNumber: Value -> real, data: seq<real>)
    ensures DeepRevive(toNumber, DeepReplace(F32(data))) == F32(data)
  {
    var t := Tagged(data);
    assert DeepReplace(F32(data)) == t;
    var items := t.fields[DataKey].items;
    var revivedItems := seq(|items|, i requires 0 <= i < |items| => DeepRevive(toNumber, items[i]));
    assert revivedItems == items;
    var revivedFields := map k | k in t.fields :: DeepRevive(toNumber, t.fields[k]);
    assert revivedFields == t.fields;
    ReviveReplaced(toNumber, data);
  }

  /** `serialize`: the stringified tree of the stored value. */
  function Serialize(storageValue: Value): (r: Value)
    ensures NoTypedArrays(r)
    ensures storageValue.Obj? ==> r.Obj? && NoUndefined(r)
    ensures storageValue.Obj? && "state" in storageValue.fields && !storageValue.fields["state"].Undefined? ==>
      "state" in r.fields
  {
    DeepReplace(storageValue)
  }

  /** `deserialize`: throws on an empty string, when `JSON.parse` throws, or
      when the revived value is not an object with a `state` key. */
  function Deserialize(parse: string -> Outcome<Value>, toNumber: Value -> real, persistedString: string): (r: Outcome<Value>)
    ensures persistedString == [] ==> r.Threw?
    ensures r.Returned? ==> r.value.Obj? && "state" in r.value.fields
    ensures r.Returned? ==>
      parse(persistedString).Returned? && r.value == DeepRevive(toNumber, parse(persistedString).value)
  {
    if persistedString == [] then Threw
    else
      match parse(persistedString)
      case Threw => Threw
      case Returned(document) =>
        var parsedValue := DeepRevive(toNumber, document);
        if parsedValue.Obj? && "state" in parsedValue.fields then Returned(parsedValue) else Threw
  }

  /** A stored state comes back intact when the text round-trips through
      `JSON.parse`: serialize, then deserialize, is the identity. */
  lemma SerializeDeserialize(parse: string -> Outcome<Value>, toNumber: Value -> real, text: string, storageValue: Value)
    requires storageValue.Obj? && "state" in storageValue.fields
    requires NoTagLookalikes(storageValue) && NoUndefined(storageValue)
    requires text != [] && parse(text) == Returned(Serialize(storageValue))
    ensures Deserialize(parse, toNumber, text) == Returned(storageValue)
  {
    RoundTrip(toNumber, storageValue);
  }

  /** A member holding `undefined` does not survive: `{state: {x: undefined}}`
      comes back as `{state: {}}`. */
  lemma UndefinedMemberIsLost(toNumber: Value -> real)
    ensures var stored := Obj(map["state" := Obj(map["x" := Undefined])]);
      DeepRevive(toNumber, Serialize(stored)) == Obj(map["state" := Obj(map[])])
  {
    StateOfUndefinedMember();
    var expected := Obj(map["state" := Obj(map[])]);
    assert NoTagLookalikes(expected);
  }

  lemma StateOfUndefinedMember()
    ensures DeepReplace(Obj(map["state" := Obj(map["x" := Undefined])])) == Obj(map["state" := Obj(map[])])
  {
    UndefinedMemberDropped();
    var outer: map<string, Value> := map["state" := Obj(map["x" := Undefined])];
    assert (map k | k in outer && !outer[k].Undefined? :: DeepReplace(outer[k])) == map["state" := Obj(map[])];
  }

  lemma UndefinedMemberDropped()
    ensures DeepReplace(Obj(map["x" := Undefined])) == Obj(map[])
  {
    var inner: map<string, Value> := map["x" := Undefined];
    assert (map k | k in inner && !inner[k].Undefined? :: DeepReplace(inner[k])) == map[];
  }

  /** A parsed value without a `state` key is rejected. */
  lemma DeserializeRejectsStateless(parse: string -> Outcome<Value>, toNumber: Value -> real, text: string)
    requires parse(text).Returned?
    requires var v := DeepRevive(toNumber, parse(text).value); !(v.Obj? && "state" in v.fields)
    ensures Deserialize(parse, toNumber, text).Threw?
  {
  }
}
