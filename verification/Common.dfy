/** Types shared by every layer. */
module Common {

  type byte = value: int | 0 <= value < 256

  type Bytes = seq<byte>

  datatype Option<+T> = None | Some(value: T)

  datatype Result<+T, +E> = Success(value: T) | Failure(error: E)

  /** The kinds of frame, in the order of their codes, which start at 1. */
  datatype Kind =
    | HELLO | HELLO_ACK | OPEN | OPEN_RESULT | DATA | WINDOW_UPDATE | HALF_CLOSE | CLOSE
    | LISTEN | LISTEN_RESULT | PING | PONG

  function Min(a: int, b: int): int { if a <= b then a else b }

  function Max(a: int, b: int): int { if a >= b then a else b }

  /** The pieces of a sequence of sequences, joined in order. */
  function Concat<T>(parts: seq<seq<T>>): seq<T> {
    if parts == [] then [] else parts[0] + Concat(parts[1..])
  }

  lemma {:induction false} ConcatAppend<T>(parts: seq<seq<T>>, more: seq<seq<T>>)
    ensures Concat(parts + more) == Concat(parts) + Concat(more)
  {
    if parts == [] {
      assert parts + more == more;
    } else {
      assert (parts + more)[0] == parts[0] && (parts + more)[1..] == parts[1..] + more;
      ConcatAppend(parts[1..], more);
    }
  }

  lemma ConcatOne<T>(parts: seq<seq<T>>, last: seq<T>)
    ensures Concat(parts + [last]) == Concat(parts) + last
  {
    ConcatAppend(parts, [last]);
    assert [last][1..] == [] && Concat([last]) == last + [];
  }
}

/** Decoded JSON. The text itself is not modelled. */
module Json {
  import opened Common

  datatype Value =
    | Null
    | Bool(flag: bool)
    | Int(number: int)
    | Float(mantissa: int, exponent: int) // mantissa * 2^exponent, the mantissa odd or zero
    | Text(text: string)
    | List(items: seq<Value>)
    | Dict(entries: Object)

  type Object = map<string, Value>

  /** `object.get(key, default)`; without a default Python answers None, which is JSON null. */
  function Get(obj: Object, key: string, default: Value := Null): Value {
    if key in obj then obj[key] else default
  }

  /** Python's `value == 1`, which also holds of True and 1.0. */
  predicate EqualsOne(value: Value) {
    value == Int(1) || value == Bool(true) || value == Float(1, 0)
  }
}
