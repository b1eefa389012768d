/** The JavaScript values the contacts service handles (decoded JSON bodies,
    arguments, results), with the operators it applies to them: truthiness,
    `||`, `??`, property reads, object spread and template-literal text. */
module Js {
  import opened Text

  /** A JavaScript value. Numbers are integers; `Undefined` also stands for
      an absent property. */
  datatype Value =
    | Undefined
    | Null
    | Bool(b: bool)
    | Num(n: int)
    | Str(s: string)
    | Arr(elems: seq<Value>)
    | Obj(props: map<string, Value>)

  /** What a call can throw. */
  datatype Exception =
    | TypeError(property: string)  // reading `property` of null or undefined
    | Error(message: string)       // `new Error(message)`
    | Transport(cause: string)     // whatever the HTTP client rejects with
    | ToPrimitiveTypeError         // a TypeError converting an object to text

  /** The settled state of a promise: fulfilled with a value or rejected. */
  datatype Result<T> = Ok(value: T) | Err(error: Exception)

  datatype Option<T> = None | Some(value: T)

  /** `false`, `0`, `""`, `null` and `undefined` are falsy; every array and object is truthy. */
  predicate Falsy(v: Value) {
    match v
    case Undefined => true
    case Null => true
    case Bool(b) => !b
    case Num(n) => n == 0
    case Str(s) => s == ""
    case _ => false
  }

  predicate Truthy(v: Value) {
    !Falsy(v)
  }

  predicate Nullish(v: Value) {
    v.Undefined? || v.Null?
  }

  /** `a || b` */
  function Or(a: Value, b: Value): Value {
    if Truthy(a) then a else b
  }

  /** `a ?? b` */
  function Coalesce(a: Value, b: Value): Value {
    if Nullish(a) then b else a
  }

  /** Entries keyed "0", "1", … for the elements of `a`, in the way arrays
      and strings expose their indices. */
  function Indexed(a: seq<Value>): (m: map<string, Value>)
    ensures forall k :: k in m ==> AllDigits(k)
    ensures forall i :: 0 <= i < |a| ==> NatText(i) in m && m[NatText(i)] == a[i]
  {
    if a == [] then map[]
    else
      var m := Indexed(a[..|a| - 1]);
      assert forall i :: 0 <= i < |a| - 1 ==> NatText(i) != NatText(|a| - 1) by {
        forall i | 0 <= i < |a| - 1 ensures NatText(i) != NatText(|a| - 1) {
          ParseNatText(i);
          ParseNatText(|a| - 1);
        }
      }
      m[NatText(|a| - 1) := a[|a| - 1]]
  }

  /** The one-character strings of `s`, as string indexing yields them. */
  function Chars(s: string): (r: seq<Value>)
    ensures |r| == |s| && forall i :: 0 <= i < |s| ==> r[i] == Str([s[i]])
  {
    seq(|s|, i requires 0 <= i < |s| => Str([s[i]]))
  }

  /** The own enumerable properties of `v`: what `{...v}` copies and what a
      property read finds. Primitives other than strings, and null and
      undefined, contribute none. */
  function Props(v: Value): map<string, Value> {
    match v
    case Obj(m) => m
    case Arr(a) => Indexed(a)
    case Str(s) => Indexed(Chars(s))
    case _ => map[]
  }

  /** Property `k` of `v`, or undefined when `v` has no such property.
      Only meaningful when `v` is not null or undefined (see `Get`). */
  function Prop(v: Value, k: string): Value {
    if k in Props(v) then Props(v)[k] else Undefined
  }

  /** `v.k`: throws a TypeError when `v` is null or undefined. */
  function Get(v: Value, k: string): (r: Result<Value>)
    ensures r.Err? <==> Nullish(v)
    ensures r.Err? ==> r.error == TypeError(k)
    ensures r.Ok? && k in Props(v) ==> r.value == Props(v)[k]
    ensures r.Ok? && k !in Props(v) ==> r.value == Undefined
  {
    if Nullish(v) then Err(TypeError(k)) else Ok(Prop(v, k))
  }

  /** `{...v, [k]: x}`: the properties of `v` with `k` set to `x`. */
  function SpreadWith(v: Value, k: string, x: Value): (r: Value)
    ensures r.Obj? && Prop(r, k) == x
    ensures forall j :: j != k ==> Prop(r, j) == Prop(v, j)
  {
    Obj(Props(v)[k := x])
  }

  /** Whether `String(v)` succeeds. An object converts through its
      `toString`; a decoded JSON object with an own `toString` key holds
      a value that cannot be called there, the inherited `valueOf` returns
      the object itself, and the conversion throws. An array converts
      through `join`, which converts every element that is not null or
      undefined. */
  predicate Printable(v: Value)
    decreases v
  {
    match v
    case Obj(m) => "toString" !in m
    case Arr(a) => forall i :: 0 <= i < |a| ==> Printable(a[i])
    case _ => true
  }

  /** `String(v)`, the text a template literal interpolates. Numbers are
      rendered in plain decimal. It throws exactly when `v` is not
      printable. */
  function TemplateText(v: Value): (r: Result<string>)
    ensures r.Ok? <==> Printable(v)
    ensures r.Err? ==> r.error == ToPrimitiveTypeError
    decreases v
  {
    match v
    case Undefined => Ok("undefined")
    case Null => Ok("null")
    case Bool(b) => Ok(if b then "true" else "false")
    case Num(n) => Ok(IntText(n))
    case Str(s) => Ok(s)
    case Arr(a) => JoinText(a, v)
    case Obj(m) => if "toString" in m then Err(ToPrimitiveTypeError) else Ok("[object Object]")
  }

  /** `a.join(",")` for the elements of the array `whole`, where null and
      undefined elements contribute nothing; the first element that cannot
      be converted makes it throw. */
  function JoinText(a: seq<Value>, ghost whole: Value): (r: Result<string>)
    requires forall x :: x in a ==> x < whole
    ensures r.Ok? <==> forall i :: 0 <= i < |a| ==> Printable(a[i])
    ensures r.Err? ==> r.error == ToPrimitiveTypeError
    decreases whole, |a|
  {
    if a == [] then Ok("")
    else
      assert a[0] in a;
      assert forall x :: x in a[1..] ==> x in a;
      var first := if Nullish(a[0]) then Ok("") else TemplateText(a[0]);
      match first
      case Err(e) => Err(e)
      case Ok(f) =>
        if |a| == 1 then Ok(f)
        else
          match JoinText(a[1..], whole)
          case Err(e) => Err(e)
          case Ok(rest) => Ok(f + "," + rest)
  }
}
