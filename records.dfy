/** JSON-like values and the sensor records that both dashboards store. */
module Records {

  datatype Option<T> = None | Some(value: T)

  /** A value as the JSON parser produces it, plus `Time`, the in-memory
      datetime object that the dashboards store under the key "datetime".
      Python distinguishes `int` from `float`, so the model does too. */
  datatype Value =
    | Null
    | Bool(b: bool)
    | Int(i: int)
    | Float(x: real)
    | Str(s: string)
    | Arr(items: seq<Value>)
    | Obj(fields: map<string, Value>)
    | Time(instant: int)

  /** One reading: a dictionary from field name to value. */
  type Record = map<string, Value>

  const TimestampKey := "timestamp"
  const DatetimeKey := "datetime"

  /** Python truthiness: `not v` holds exactly for these values. */
  predicate Falsy(v: Value) {
    match v
    case Null => true
    case Bool(b) => !b
    case Int(i) => i == 0
    case Float(x) => x == 0.0
    case Str(s) => |s| == 0
    case Arr(items) => |items| == 0
    case Obj(fields) => |fields| == 0
    case Time(_) => false
  }

  /** Adds the human-readable `timestamp` and the sortable `datetime` to a
      reading, overwriting payload keys of the same names. */
  function Stamp(payload: Record, timestamp: string, instant: int): (r: Record)
    ensures r.Keys == payload.Keys + {TimestampKey, DatetimeKey}
    ensures r[TimestampKey] == Str(timestamp) && r[DatetimeKey] == Time(instant)
    ensures forall k :: k in payload && k != TimestampKey && k != DatetimeKey ==> r[k] == payload[k]
  {
    payload[TimestampKey := Str(timestamp)][DatetimeKey := Time(instant)]
  }

  /** The dictionary comprehension `{k: v for k, v in r.items() if k != 'datetime'}`,
      which is also what copying a record and deleting its `datetime` yields. */
  function WithoutDatetime(r: Record): (d: Record)
    ensures d.Keys == r.Keys - {DatetimeKey}
    ensures forall k :: k in d ==> d[k] == r[k]
  {
    map k | k in r && k != DatetimeKey :: r[k]
  }

  /** `isinstance(v, (int, float))`; a Python `bool` is an `int`. */
  predicate IsNumber(v: Value) {
    v.Int? || v.Float? || v.Bool?
  }

  /** The numeric fields of a reading other than `datetime`, shown as metrics. */
  function NumericFields(r: Record): (n: Record)
    ensures n.Keys <= r.Keys && DatetimeKey !in n
    ensures forall k :: k in r ==> (k in n <==> IsNumber(r[k]) && k != DatetimeKey)
    ensures forall k :: k in n ==> n[k] == r[k]
  {
    map k | k in r && IsNumber(r[k]) && k != DatetimeKey :: r[k]
  }

  /** What a stamped reading shows once its `datetime` is stripped: the payload's
      fields (less any `datetime` of its own) and the new `timestamp`. */
  lemma StampThenStrip(payload: Record, timestamp: string, instant: int)
    ensures WithoutDatetime(Stamp(payload, timestamp, instant))
         == WithoutDatetime(payload)[TimestampKey := Str(timestamp)]
  {
    var lhs := WithoutDatetime(Stamp(payload, timestamp, instant));
    var rhs := WithoutDatetime(payload)[TimestampKey := Str(timestamp)];
    assert lhs.Keys == rhs.Keys;
    forall k | k in lhs ensures lhs[k] == rhs[k] {
      if k == TimestampKey {
      } else {
        assert k != DatetimeKey;
      }
    }
  }
}
