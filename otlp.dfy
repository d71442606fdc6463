/** The OpenTelemetry protocol (OTLP) messages as the gRPC adapters receive
    them, and the conversions the metrics, traces and logs adapters share:
    each of the three Go files carries an identical copy of
    `extractServiceName`, `convertAttributes` and `convertAttributeValue`. */
module Otlp {
  import opened Wrappers
  import opened Assoc

  /** A `*commonpb.AnyValue` as decoded from the wire. `Nil` is a nil
      pointer, `Unset` a message whose value oneof is empty, and `NilArray` /
      `NilKvlist` an array or kvlist case whose inner message pointer is nil. */
  datatype AnyValue =
    | Nil
    | Unset
    | StringValue(s: string)
    | BoolValue(b: bool)
    | IntValue(i: int)
    | DoubleValue(d: real)
    | ArrayValue(values: seq<AnyValue>)
    | NilArray
    | KvlistValue(entries: seq<KeyValue>)
    | NilKvlist

  /** A `*commonpb.KeyValue`; its `value` may be `Nil`. */
  datatype KeyValue = KeyValue(key: string, value: AnyValue)

  /** The Go value `convertAttributeValue` builds (`interface{}`): `Null` is
      Go's `nil`, arrays are `[]interface{}` and kvlists `map[string]interface{}`. */
  datatype AttrValue =
    | Null
    | Str(s: string)
    | Bool(b: bool)
    | Int(i: int)
    | Double(d: real)
    | Array(items: seq<AttrValue>)
    | KvList(entries: map<string, AttrValue>)

  /** A resource; `None` in an `Option<Resource>` is a nil pointer. */
  datatype Resource = Resource(attributes: seq<KeyValue>)

  /** The `Value` oneof of a `NumberDataPoint`. */
  datatype NumberValue = NoValue | AsDouble(d: real) | AsInt(i: int)

  /** A byte of an id field (`[]byte`). */
  type Byte = b: int | 0 <= b < 256

  /** `string(bytes)`: one character per byte. */
  function BytesToString(b: seq<Byte>): (s: string)
    ensures |s| == |b|
    ensures forall i :: 0 <= i < |b| ==> s[i] as int == b[i]
  {
    seq(|b|, i requires 0 <= i < |b| => b[i] as char)
  }

  /** The partial-success part of every export response: the number of
      rejected items and an error message. */
  datatype PartialSuccess = PartialSuccess(rejected: int, errorMessage: string)

  /** A gRPC status error. */
  datatype GrpcError = InvalidArgument(message: string)

  const ServiceNameKey: string := "service.name"
  const UnknownService: string := "unknown"

  /** `GetStringValue()`: the string of a string value, "" for anything else
      including a nil pointer. */
  function StringOf(v: AnyValue): (r: string)
    ensures v.StringValue? ==> r == v.s
    ensures !v.StringValue? ==> r == ""
  {
    if v.StringValue? then v.s else ""
  }

  /** The attribute-value conversion, recursive over arrays and kvlists. */
  function ConvertAttributeValue(v: AnyValue): (r: AttrValue)
    ensures r.Null? <==> v.Nil? || v.Unset? || v.NilArray? || v.NilKvlist?
    ensures v.ArrayValue? ==> r.Array? && |r.items| == |v.values|
    ensures v.KvlistValue? ==> r.KvList? && forall k :: k in r.entries <==> exists i :: 0 <= i < |v.entries| && v.entries[i].key == k
  {
    match v
    case Nil => Null
    case Unset => Null
    case StringValue(s) => Str(s)
    case BoolValue(b) => Bool(b)
    case IntValue(i) => Int(i)
    case DoubleValue(d) => Double(d)
    case ArrayValue(values) => Array(seq(|values|, i requires 0 <= i < |values| => ConvertAttributeValue(values[i])))
    case NilArray => Null
    case KvlistValue(entries) =>
      var es := KvEntries(v, entries);
      forall k ensures k in Assign(es) <==> exists i :: 0 <= i < |entries| && entries[i].key == k {
        AssignKeys(es, k);
        if k in Assign(es) {
          var i :| 0 <= i < |es| && PutsKey(es[i], k);
          assert entries[i].key == k;
        } else {
          forall i | 0 <= i < |entries| ensures entries[i].key != k {
            assert PutsKey(es[i], entries[i].key);
          }
        }
      }
      KvList(Assign(es))
    case NilKvlist => Null
  }

  /** The kvlist loop's assignments: every entry is stored, a nil value as
      `Null`, and a later duplicate key overwrites an earlier one. */
  function KvEntries(v: AnyValue, entries: seq<KeyValue>): (es: seq<Entry<AttrValue>>)
    requires v.KvlistValue? && entries == v.entries
    ensures |es| == |entries|
    ensures forall i :: 0 <= i < |entries| ==> es[i] == Put(entries[i].key, ConvertAttributeValue(entries[i].value))
    decreases v, 0
  {
    seq(|entries|, i requires 0 <= i < |entries| => Put(entries[i].key, ConvertAttributeValue(entries[i].value)))
  }

  /** Array elements convert one by one, in order, nil elements included. */
  lemma ArrayElements(v: AnyValue, i: nat)
    requires v.ArrayValue? && i < |v.values|
    ensures ConvertAttributeValue(v).items[i] == ConvertAttributeValue(v.values[i])
  {
  }

  /** Scalars are carried over unchanged. */
  lemma ScalarsKept(v: AnyValue)
    requires v.StringValue? || v.BoolValue? || v.IntValue? || v.DoubleValue?
    ensures var r := ConvertAttributeValue(v);
      (v.StringValue? ==> r == Str(v.s)) && (v.BoolValue? ==> r == Bool(v.b))
      && (v.IntValue? ==> r == Int(v.i)) && (v.DoubleValue? ==> r == Double(v.d))
  {
  }

  /** One attribute of the `convertAttributes` loop: nil entries and entries
      whose value converts to nil are skipped, the rest assign their key. */
  function AttributeEntry(attr: Option<KeyValue>): (e: Entry<AttrValue>)
    ensures e.Put? <==> attr.Some? && !ConvertAttributeValue(attr.value.value).Null?
  {
    match attr
    case None => Skip
    case Some(kv) =>
      var value := ConvertAttributeValue(kv.value);
      if value.Null? then Skip else Put(kv.key, value)
  }

  function AttributeEntries(attrs: seq<Option<KeyValue>>): (es: seq<Entry<AttrValue>>)
    ensures |es| == |attrs|
    ensures forall i :: 0 <= i < |attrs| ==> es[i] == AttributeEntry(attrs[i])
  {
    seq(|attrs|, i requires 0 <= i < |attrs| => AttributeEntry(attrs[i]))
  }

  /** `convertAttributes` before JSON encoding: the map its loop builds. An
      empty list gives the empty map, which encodes as `{}`. */
  function Attributes(attrs: seq<Option<KeyValue>>): map<string, AttrValue>
  {
    Assign(AttributeEntries(attrs))
  }

  /** The loop of `convertAttributes`. */
  method ConvertAttributes(attrs: seq<Option<KeyValue>>) returns (m: map<string, AttrValue>)
    ensures m == Attributes(attrs)
  {
    m := map[];
    var i := 0;
    while i < |attrs|
      invariant 0 <= i <= |attrs|
      invariant m == Assign(AttributeEntries(attrs)[..i])
    {
      var es := AttributeEntries(attrs);
      assert es[..i + 1] == es[..i] + [es[i]];
      AssignSnoc(es[..i], es[i]);
      if attrs[i].Some? {
        var kv := attrs[i].value;
        var value := ConvertAttributeValue(kv.value);
        if !value.Null? {
          m := m[kv.key := value];
        }
      }
      i := i + 1;
    }
    assert AttributeEntries(attrs)[..i] == AttributeEntries(attrs);
  }

  /** A key is present exactly when some non-nil entry with a non-nil value
      names it. */
  lemma AttributesKeys(attrs: seq<Option<KeyValue>>, k: string)
    ensures k in Attributes(attrs) <==>
      exists i :: 0 <= i < |attrs| && attrs[i].Some? && attrs[i].value.key == k
        && !ConvertAttributeValue(attrs[i].value.value).Null?
  {
    var es := AttributeEntries(attrs);
    AssignKeys(es, k);
    if k in Attributes(attrs) {
      var i :| 0 <= i < |es| && PutsKey(es[i], k);
      assert attrs[i].Some? && attrs[i].value.key == k;
    }
    if exists i :: 0 <= i < |attrs| && attrs[i].Some? && attrs[i].value.key == k
        && !ConvertAttributeValue(attrs[i].value.value).Null? {
      var i :| 0 <= i < |attrs| && attrs[i].Some? && attrs[i].value.key == k
        && !ConvertAttributeValue(attrs[i].value.value).Null?;
      assert PutsKey(es[i], k);
    }
  }

  /** The last stored entry for a key wins. */
  lemma AttributesLastWins(attrs: seq<Option<KeyValue>>, i: nat)
    requires i < |attrs| && AttributeEntry(attrs[i]).Put?
    requires forall j :: i < j < |attrs| ==> !PutsKey(AttributeEntry(attrs[j]), attrs[i].value.key)
    ensures var kv := attrs[i].value;
      kv.key in Attributes(attrs) && Attributes(attrs)[kv.key] == ConvertAttributeValue(kv.value)
  {
    AssignLastWins(AttributeEntries(attrs), i);
  }

  /** The position of the first `service.name` attribute with a non-empty
      string value, or the number of attributes when there is none. */
  function FirstServiceName(attrs: seq<KeyValue>): (i: nat)
    ensures i <= |attrs|
    ensures forall j :: 0 <= j < i ==> !(attrs[j].key == ServiceNameKey && StringOf(attrs[j].value) != "")
    ensures i < |attrs| ==> attrs[i].key == ServiceNameKey && StringOf(attrs[i].value) != ""
  {
    if attrs == [] then 0
    else if attrs[0].key == ServiceNameKey && StringOf(attrs[0].value) != "" then 0
    else 1 + FirstServiceName(attrs[1..])
  }

  /** `extractServiceName` of the gRPC adapters: "unknown" for a nil
      resource; otherwise the first `service.name` attribute whose string
      value is non-empty, and "unknown" when there is none. */
  function ExtractServiceName(resource: Option<Resource>): (name: string)
    ensures resource.None? ==> name == UnknownService
    ensures resource.Some? ==> var attrs := resource.value.attributes; var i := FirstServiceName(attrs);
      name == if i < |attrs| then StringOf(attrs[i].value) else UnknownService
  {
    match resource
    case None => UnknownService
    case Some(r) => ServiceNameIn(r.attributes)
  }

  function ServiceNameIn(attrs: seq<KeyValue>): (name: string)
    ensures var i := FirstServiceName(attrs);
      name == if i < |attrs| then StringOf(attrs[i].value) else UnknownService
  {
    if attrs == [] then UnknownService
    else if attrs[0].key == ServiceNameKey && StringOf(attrs[0].value) != "" then StringOf(attrs[0].value)
    else ServiceNameIn(attrs[1..])
  }

  /** The extracted name is never empty. */
  lemma ServiceNameNonEmpty(resource: Option<Resource>)
    ensures ExtractServiceName(resource) != ""
  {
  }

  /** `getNumericValue`: a double as is, an integer converted, and 0 when
      the value is unset. */
  function NumericValue(v: NumberValue): (r: real)
    ensures v.AsDouble? ==> r == v.d
    ensures v.AsInt? ==> r == v.i as real
    ensures v.NoValue? ==> r == 0.0
  {
    match v
    case NoValue => 0.0
    case AsDouble(d) => d
    case AsInt(i) => i as real
  }

  /** A value as `json.Unmarshal` into `map[string]interface{}` returns it:
      no integers anywhere, because every JSON number decodes to `float64`. */
  predicate JsonDecoded(v: AttrValue)
  {
    match v
    case Int(_) => false
    case Array(items) => forall i :: 0 <= i < |items| ==> JsonDecoded(items[i])
    case KvList(entries) => forall k :: k in entries ==> JsonDecoded(entries[k])
    case _ => true
  }

  /** A value after a `json.Marshal` / `json.Unmarshal` round trip, as
      `addBucketLabel` and `addQuantileLabel` put the attributes through:
      integers become doubles, at every depth. */
  function ThroughJson(v: AttrValue): (r: AttrValue)
    ensures JsonDecoded(r)
    ensures r.Null? <==> v.Null?
    ensures v.Int? ==> r == Double(v.i as real)
    ensures v.Array? ==> r.Array? && |r.items| == |v.items|
    ensures v.KvList? ==> r.KvList? && r.entries.Keys == v.entries.Keys
  {
    match v
    case Int(i) => Double(i as real)
    case Array(items) => Array(seq(|items|, i requires 0 <= i < |items| => ThroughJson(items[i])))
    case KvList(entries) => KvList(map k | k in entries :: ThroughJson(entries[k]))
    case _ => v
  }

  /** Values already in decoded form survive the round trip unchanged, so a
      second round trip changes nothing. */
  lemma {:induction false} ThroughJsonDecoded(v: AttrValue)
    requires JsonDecoded(v)
    ensures ThroughJson(v) == v
  {
    match v
    case Array(items) =>
      forall i | 0 <= i < |items| ensures ThroughJson(items[i]) == items[i] {
        ThroughJsonDecoded(items[i]);
      }
      assert ThroughJson(v).items == items;
    case KvList(entries) =>
      forall k | k in entries ensures ThroughJson(entries[k]) == entries[k] {
        ThroughJsonDecoded(entries[k]);
      }
      assert ThroughJson(v).entries == entries;
    case _ =>
  }

  lemma ThroughJsonIdempotent(v: AttrValue)
    ensures ThroughJson(ThroughJson(v)) == ThroughJson(v)
  {
    ThroughJsonDecoded(ThroughJson(v));
  }

  /** `addBucketLabel` / `addQuantileLabel` on the decoded attributes: the
      attributes through a JSON round trip, with `key` set to `bound`. */
  function AddLabel(attrs: map<string, AttrValue>, key: string, bound: real): (r: map<string, AttrValue>)
  {
    (map k | k in attrs :: ThroughJson(attrs[k]))[key := Double(bound)]
  }

  /** The label is set or overwritten, every other key is kept with its
      value through the round trip, and no key is added. */
  lemma AddLabelKeeps(attrs: map<string, AttrValue>, key: string, bound: real)
    ensures var r := AddLabel(attrs, key, bound);
      r.Keys == attrs.Keys + {key} && r[key] == Double(bound)
      && forall k :: k in attrs && k != key ==> r[k] == ThroughJson(attrs[k])
  {
  }

  const BucketLabel: string := "le"
  const QuantileLabel: string := "quantile"
}
