/**
 JavaScript values as far as the engine observes them: the result of `typeof`,
 truthiness (what `||` and `!` test), and the own enumerable properties that
 object spread (`{...v}`) copies. Property reads (`v.k`, `const {k} = v`) are
 modelled as reading those same properties; an ordinary read would also see
 inherited and non-enumerable ones.
 */
module JsValue {

  /** A JavaScript value.
      - `Num` carries an integer: the engine only tests numbers for truthiness,
        and the integers already cover the falsy number 0.
      - `Fn` is a function, known by identity.
      - `Obj` and `Arr` are plain objects and arrays, known by their contents
        (the engine never compares them by identity).
      - `Ref` is an instance of a class this model does not unfold (an engine,
        a sheet, a rule), known by identity; its own properties are supplied
        by the environment as a `HostProps`. */
  datatype Value =
    | Undefined
    | Null
    | Bool(b: bool)
    | Num(n: int)
    | Str(s: string)
    | Fn(fid: nat)
    | Obj(props: map<string, Value>)
    | Arr(elems: seq<Value>)
    | Ref(rid: nat)

  /** The own enumerable properties of each host object, by identity. */
  type HostProps = nat -> map<string, Value>

  /** The string `typeof v` evaluates to. Note that `typeof null` is "object". */
  function TypeOf(v: Value): string {
    match v
    case Undefined => "undefined"
    case Bool(_) => "boolean"
    case Num(_) => "number"
    case Str(_) => "string"
    case Fn(_) => "function"
    case _ => "object"
  }

  /** The values `if (v)` takes: everything except undefined, null, false, 0 and "". */
  predicate IsTruthy(v: Value) {
    match v
    case Undefined => false
    case Null => false
    case Bool(b) => b
    case Num(n) => n != 0
    case Str(s) => s != ""
    case _ => true
  }

  /** `a || b`. */
  function Or(a: Value, b: Value): Value {
    if IsTruthy(a) then a else b
  }

  /** Decimal digit `d` as a character. */
  function Digit(d: nat): (c: char)
    requires d < 10
    ensures '0' <= c <= '9'
  {
    (48 + d) as char
  }

  predicate IsDigits(k: string) {
    forall i :: 0 <= i < |k| ==> '0' <= k[i] <= '9'
  }

  /** The property key of array or string index `n`: its decimal spelling. */
  function DecimalKey(n: nat): (k: string)
    ensures 1 <= |k|
    ensures IsDigits(k)
    ensures n < 10 <==> |k| == 1
  {
    if n < 10 then [Digit(n)] else DecimalKey(n / 10) + [Digit(n % 10)]
  }

  /** Distinct indices have distinct keys, so spreading an array never lets
      one element overwrite another. */
  lemma {:induction false} DecimalKeyInjective(a: nat, b: nat)
    requires DecimalKey(a) == DecimalKey(b)
    ensures a == b
    decreases a
  {
    if 10 <= a && 10 <= b {
      var ka, kb := DecimalKey(a / 10), DecimalKey(b / 10);
      assert DecimalKey(a) == ka + [Digit(a % 10)];
      assert DecimalKey(b) == kb + [Digit(b % 10)];
      assert |ka| == |kb|;
      assert ka == DecimalKey(a)[..|ka|];
      assert kb == DecimalKey(b)[..|kb|];
      DecimalKeyInjective(a / 10, b / 10);
      assert Digit(a % 10) == DecimalKey(a)[|ka|] == Digit(b % 10);
    }
  }

  /** The own enumerable properties of an array-like holding `vals`:
      index keys "0", "1", … mapped to the elements. */
  function IndexedProps(vals: seq<Value>): (m: map<string, Value>)
    ensures forall k :: k in m ==> IsDigits(k)
    ensures forall i :: 0 <= i < |vals| ==> DecimalKey(i) in m && m[DecimalKey(i)] == vals[i]
  {
    if vals == [] then map[]
    else
      var n := |vals| - 1;
      EarlierIndexKeysDiffer(n);
      IndexedProps(vals[..n])[DecimalKey(n) := vals[n]]
  }

  /** Helper for `IndexedProps`: adding index `n` leaves the earlier entries alone. */
  lemma EarlierIndexKeysDiffer(n: nat)
    ensures forall i :: 0 <= i < n ==> DecimalKey(i) != DecimalKey(n)
  {
    forall i | 0 <= i < n
      ensures DecimalKey(i) != DecimalKey(n)
    {
      if DecimalKey(i) == DecimalKey(n) {
        DecimalKeyInjective(i, n);
      }
    }
  }

  /** The own enumerable properties of `v`: what `{...v}` copies. Primitives
      other than strings, `undefined`, `null` and functions contribute none;
      a string contributes one key per character. */
  function OwnProps(host: HostProps, v: Value): map<string, Value> {
    match v
    case Obj(p) => p
    case Arr(es) => IndexedProps(es)
    case Str(s) => IndexedProps(seq(|s|, i requires 0 <= i < |s| => Str([s[i]])))
    case Ref(id) => host(id)
    case _ => map[]
  }

  /** Reading property `key` of `v`, for the keys the engine reads
      (`Renderer`, `generateClassName`, `plugins`): none of them lives on a
      built-in prototype, so the value is the own property or undefined.
      Properties a class instance inherits from its own prototype, and
      non-enumerable own properties, are not seen here. */
  function Prop(host: HostProps, v: Value, key: string): Value {
    var own := OwnProps(host, v);
    if key in own then own[key] else Undefined
  }
}
