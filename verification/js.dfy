/**
 * The slice of JavaScript semantics the client relies on: the values it
 * receives, truthiness, `||`, property reads, string conversion, and the
 * `Array.prototype.join(',')` / `String.prototype.split(',')` pair.
 */
module Js {
  import opened Wrappers
  import opened Decimal
  import opened LitecoreTypes

  /** Exceptions the core throws or lets escape. */
  datatype Error =
    | TypeError            // a property read on undefined or null
    | SyntaxError          // JSON.parse on malformed text
    | InvalidArgument      // litecore's errors.InvalidArgument, thrown by $.checkArgument
    | OtherError(name: string)

  /**
   * A JavaScript value. Numbers are integers (NaN, infinities and fractions are
   * not modelled); the last three cases are instances of litecore classes.
   */
  datatype Value =
    | Undefined
    | Null
    | Bool(b: bool)
    | Num(n: int)
    | Str(s: string)
    | Arr(elems: seq<Value>)
    | Obj(props: map<string, Value>)
    | Net(network: Network)
    | Addr(address: Address)
    | Tx(tx: Transaction)

  predicate IsNullish(v: Value) {
    v.Undefined? || v.Null?
  }

  /** JavaScript's ToBoolean. */
  predicate Truthy(v: Value) {
    match v
    case Undefined => false
    case Null => false
    case Bool(b) => b
    case Num(n) => n != 0
    case Str(s) => s != ""
    case _ => true
  }

  /** `a || b`: the first operand when it is truthy, the second otherwise. */
  function Or(a: Value, b: Value): (r: Value)
    ensures Truthy(r) <==> Truthy(a) || Truthy(b)
    ensures r == a || r == b
  {
    if Truthy(a) then a else b
  }

  /**
   * `v[key]` on a value that is not undefined or null. The core only reads keys
   * (`address`, `addresses`, `minconf`, `from`, `to`, `txid`, Insight's field
   * names) that strings, arrays and litecore objects do not carry.
   */
  function FieldOf(v: Value, key: string): Value {
    if v.Obj? && key in v.props then v.props[key] else Undefined
  }

  /** `v.key`, which throws a TypeError on undefined and null. */
  function Prop(v: Value, key: string): (r: Result<Value, Error>)
    ensures r.Failure? <==> IsNullish(v)
    ensures r.Failure? ==> r.error == TypeError
    ensures r.Success? ==> r.value == FieldOf(v, key)
  {
    if IsNullish(v) then Failure(TypeError) else Success(FieldOf(v, key))
  }

  /** JavaScript's String(v), as `+` applies it to the non-string operand. */
  function ToString(v: Value): string
    decreases v
  {
    match v
    case Undefined => "undefined"
    case Null => "null"
    case Bool(b) => if b then "true" else "false"
    case Num(n) => IntToString(n)
    case Str(s) => s
    case Arr(elems) =>
      Join(seq(|elems|, i requires 0 <= i < |elems| =>
        if IsNullish(elems[i]) then "" else ToString(elems[i])))
    case Obj(_) => "[object Object]"
    case Net(network) => network.name
    case Addr(address) => address.text
    case Tx(tx) => tx.hex
  }

  /** `parts.join(',')`. */
  function Join(parts: seq<string>): (s: string)
    ensures |parts| == 0 ==> s == ""
    ensures |parts| > 0 ==> |s| >= |parts| - 1
  {
    if |parts| == 0 then ""
    else if |parts| == 1 then parts[0]
    else parts[0] + "," + Join(parts[1..])
  }

  /** Index of the first comma in `s`, or `|s|` when there is none. */
  function CommaIndex(s: string): (k: nat)
    ensures k <= |s|
    ensures forall j :: 0 <= j < k ==> s[j] != ','
    ensures k < |s| ==> s[k] == ','
  {
    if s == [] || s[0] == ',' then 0 else 1 + CommaIndex(s[1..])
  }

  /** `s.split(',')`. */
  function Split(s: string): (parts: seq<string>)
    ensures |parts| > 0
    ensures forall i :: 0 <= i < |parts| ==> ',' !in parts[i]
    decreases |s|
  {
    var k := CommaIndex(s);
    if k == |s| then [s] else [s[..k]] + Split(s[k + 1..])
  }

  lemma {:induction false} CommaIndexOf(a: string, b: string)
    requires ',' !in a
    requires b == [] || b[0] == ','
    ensures CommaIndex(a + b) == |a|
    decreases |a|
  {
    if a != [] {
      assert (a + b)[1..] == a[1..] + b;
      CommaIndexOf(a[1..], b);
    }
  }

  /** Splitting a comma-join of comma-free strings gives the strings back. */
  lemma {:induction false} SplitJoin(parts: seq<string>)
    requires |parts| > 0
    requires forall i :: 0 <= i < |parts| ==> ',' !in parts[i]
    ensures Split(Join(parts)) == parts
    decreases |parts|
  {
    if |parts| == 1 {
      CommaIndexOf(parts[0], []);
      assert parts[0] + [] == parts[0];
    } else {
      var rest := Join(parts[1..]);
      var s := parts[0] + "," + rest;
      assert s == parts[0] + ("," + rest);
      CommaIndexOf(parts[0], "," + rest);
      assert s[..|parts[0]|] == parts[0];
      assert s[|parts[0]| + 1..] == rest;
      SplitJoin(parts[1..]);
      assert [parts[0]] + parts[1..] == parts;
    }
  }

  /**
   * `_.map(xs, f)` with an iteratee that may throw: the elements are visited in
   * order and the first exception escapes.
   */
  function MapThrowing<A, B>(f: A -> Result<B, Error>, xs: seq<A>): (r: Result<seq<B>, Error>)
    ensures r.Success? <==> forall i :: 0 <= i < |xs| ==> f(xs[i]).Success?
    ensures r.Success? ==> |r.value| == |xs| && forall i :: 0 <= i < |xs| ==> f(xs[i]) == Success(r.value[i])
    ensures r.Failure? ==>
      exists i :: 0 <= i < |xs| && f(xs[i]) == Failure(r.error) && forall j :: 0 <= j < i ==> f(xs[j]).Success?
    decreases |xs|
  {
    if xs == [] then Success([])
    else match f(xs[0])
      case Failure(e) => Failure(e)
      case Success(y) =>
        match MapThrowing(f, xs[1..])
        case Failure(e) =>
          assert forall j :: 1 <= j < |xs| ==> xs[j] == xs[1..][j - 1];
          Failure(e)
        case Success(ys) => Success([y] + ys)
  }
}
