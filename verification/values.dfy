/** Values a resource can hold or be written with, 32-bit integer arithmetic,
    and the error kinds the registry and the resources return. */
module Values {

  const MinInt32: int := -0x8000_0000
  const MaxInt32: int := 0x7FFF_FFFF
  const TwoTo32: int := 0x1_0000_0000

  /** Go's int32. */
  type Int32 = x: int | MinInt32 <= x <= MaxInt32

  /** Two's complement wrap-around of Go's int32 `+=` and `-=`. */
  function Wrap32(x: int): (r: Int32)
    ensures MinInt32 <= x <= MaxInt32 ==> r == x
    ensures (x - r) % TwoTo32 == 0
  {
    (x - MinInt32) % TwoTo32 + MinInt32
  }

  /** Wrapping an intermediate sum does not change the wrapped total. */
  lemma WrapAdd(x: int, y: int)
    ensures Wrap32(Wrap32(x) + y) == Wrap32(x + y)
  {
    var q := (x - MinInt32) / TwoTo32;
    assert Wrap32(x) == x - TwoTo32 * q;
    ModShift(x + y - MinInt32, q);
  }

  lemma ModShift(a: int, q: int)
    ensures (a - TwoTo32 * q) % TwoTo32 == a % TwoTo32
  {
    var r := a % TwoTo32;
    var d := a / TwoTo32;
    assert a == TwoTo32 * d + r;
    assert a - TwoTo32 * q == TwoTo32 * (d - q) + r;
  }

  /** The occurrences of `x` in a non-empty sequence: its head's, then its tail's. */
  lemma CountFirst<T>(s: seq<T>, x: T)
    requires s != []
    ensures multiset(s)[x] == multiset(s[1..])[x] + (if s[0] == x then 1 else 0)
  {
    assert s == [s[0]] + s[1..];
  }

  datatype Option<+T> = None | Some(value: T)

  /** The three value types a resource may hold (storage.Supported). */
  datatype Kind = Int32Kind | Float32Kind | BoolKind

  /** A dynamically typed Go value (`any`) as it crosses the registry.
      Float32 values are opaque bit patterns: no float arithmetic is modelled. */
  datatype Value =
    | I32(i: Int32)
    | F32(bits: bv32)
    | Bool(b: bool)
    | Nil
    | OtherType(typeName: string)

  function KindOf(v: Value): (k: Option<Kind>)
    ensures k.Some? <==> (v.I32? || v.F32? || v.Bool?)
  {
    match v
    case I32(_) => Some(Int32Kind)
    case F32(_) => Some(Float32Kind)
    case Bool(_) => Some(BoolKind)
    case Nil => None
    case OtherType(_) => None
  }

  /** The Go type assertion `value.(T)` for the resource type `T`. */
  predicate HasKind(v: Value, k: Kind) {
    KindOf(v) == Some(k)
  }

  /** Go's zero value `*new(T)`. */
  function Zero(k: Kind): (v: Value)
    ensures HasKind(v, k)
    ensures v == I32(0) || v == F32(0) || v == Bool(false)
  {
    match k
    case Int32Kind => I32(0)
    case Float32Kind => F32(0)
    case BoolKind => Bool(false)
  }

  /** The registry's and the resources' error values. The registry wraps a
      resource's own error with the failing operation and name (errors.Join). */
  datatype Error =
    | ReadFailed(resource: string, cause: Error)
    | WriteFailed(resource: string, cause: Error)
    | ResourceNotReadable
    | ResourceNotWritable
    | MismatchedTypes(expected: Kind, got: Value)
    | NotNumeric(got: Value)
    | Foreign(message: string)

  /** `(value, error)` pairs: an error comes with a nil value. */
  datatype Result<+T> = Ok(value: T) | Err(error: Error)

  /** A snapshot of the registry's readable values at one moment. */
  type Snapshot = map<string, Value>
}
