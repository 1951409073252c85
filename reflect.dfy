/**
 The part of Go's run-time type information that the call adapter looks at,
 made explicit: type descriptors, tagged values, the `error` capability and
 Go's conversion rules restricted to the modelled types.
 */
module Reflect {

  datatype Option<+T> = None | Some(value: T)

  /** A type descriptor (what `reflect.Type` describes). */
  datatype Ty =
    | IntTy
    | Float64Ty
    | BoolTy
    | StringTy
    | SliceTy(elem: Ty)
    | MapTy(key: Ty, elem: Ty)
    | AnyTy                                // interface{}
    | ErrorTy                              // the predeclared `error` interface
    | FuncTy(ins: seq<Ty>, outs: seq<Ty>)  // a non-variadic function type

  /**
   A run-time value together with its type. `AnyV` and `ErrV` are values whose
   static type is an interface (what `reflect.Value` holds for an interface-typed
   parameter or result): `None` is the nil interface; a non-nil error is known
   by the text its `Error()` method returns. The elements of a slice or map are
   stored as their dynamic values, as `Interface()` hands them out, so the
   `[]interface{}` holding 1, 2, 3 is `SliceV(AnyTy, [IntV(1), IntV(2), IntV(3)])`;
   the element type is recorded and not checked against the elements.
   */
  datatype Value =
    | IntV(i: int)
    | FloatV(f: real)
    | BoolV(b: bool)
    | StrV(s: string)
    | SliceV(elemTy: Ty, items: seq<Value>)
    | MapV(keyTy: Ty, elemTy: Ty, entries: seq<(Value, Value)>)
    | AnyV(dyn: Option<Value>)
    | ErrV(text: Option<string>)

  /** `reflect.Value.Type()` */
  function TypeOf(v: Value): Ty {
    match v
    case IntV(_) => IntTy
    case FloatV(_) => Float64Ty
    case BoolV(_) => BoolTy
    case StrV(_) => StringTy
    case SliceV(e, _) => SliceTy(e)
    case MapV(k, e, _) => MapTy(k, e)
    case AnyV(_) => AnyTy
    case ErrV(_) => ErrorTy
  }

  /** Each value of `vs` has the corresponding type of `ts`. */
  predicate Typed(vs: seq<Value>, ts: seq<Ty>) {
    |vs| == |ts| && forall i :: 0 <= i < |vs| ==> TypeOf(vs[i]) == ts[i]
  }

  /**
   `t.Implements(errorInterface)`: the type has the method `Error() string`.
   Among the modelled types only the `error` interface itself has it.
   */
  predicate ImplementsError(t: Ty) {
    t == ErrorTy
  }

  /** `reflect.Value.IsNil()`, defined on the nilable interface values. */
  predicate IsNil(v: Value)
    requires v.AnyV? || v.ErrV?
  {
    if v.AnyV? then v.dyn.None? else v.text.None?
  }

  predicate IsNumeric(t: Ty) {
    t == IntTy || t == Float64Ty
  }

  /**
   `from.ConvertibleTo(to)`: Go's conversion rules for the modelled types --
   identical types, between numeric types, integer to string, and any type
   to an interface type it implements.
   */
  predicate ConvertibleTo(from: Ty, to: Ty): (b: bool)
    ensures to == AnyTy ==> b
    ensures from == BoolTy ==> (b <==> to == BoolTy || to == AnyTy)
    ensures from == StringTy ==> (b <==> to == StringTy || to == AnyTy)
    ensures b && to == IntTy ==> IsNumeric(from)
    ensures b && to == StringTy ==> from == StringTy || from == IntTy
  {
    || from == to
    || (IsNumeric(from) && IsNumeric(to))
    || (from == IntTy && to == StringTy)
    || to == AnyTy
    || (to == ErrorTy && ImplementsError(from))
  }

  /** Go's float-to-integer conversion: the fraction is discarded (rounding toward zero). */
  function Trunc(r: real): (n: int)
    ensures 0.0 <= r ==> n as real <= r < n as real + 1.0
    ensures r < 0.0 ==> n as real - 1.0 < r <= n as real
  {
    if 0.0 <= r then r.Floor else -((-r).Floor)
  }

  /** The truncation of `r` equals `r` exactly when `r` is a whole number. */
  lemma TruncExact(r: real)
    ensures (Trunc(r) as real == r) <==> (r == r.Floor as real)
  {
    if r < 0.0 && r == r.Floor as real {
      assert (-r).Floor == -r.Floor;
    }
  }

  /** Go's `string(rune(i))`: one code point, or U+FFFD when `i` is not a Unicode scalar value. */
  function RuneString(i: int): (s: string)
    ensures |s| == 1
    ensures (0 <= i < 0xD800 || 0xE000 <= i < 0x11_0000) ==> s[0] as int == i
    ensures !(0 <= i < 0xD800 || 0xE000 <= i < 0x11_0000) ==> s == "\U{FFFD}"
  {
    if 0 <= i < 0xD800 || 0xE000 <= i < 0x11_0000 then [i as char] else "\U{FFFD}"
  }

  /** `v.Convert(t)`: defined exactly when `ConvertibleTo(TypeOf(v), t)`, and yields a value of type `t`. */
  function Convert(v: Value, t: Ty): (r: Value)
    requires ConvertibleTo(TypeOf(v), t)
    ensures TypeOf(r) == t
    ensures TypeOf(v) == t ==> r == v
    ensures t == Float64Ty && v.IntV? ==> r == FloatV(v.i as real)
    ensures t == IntTy && v.FloatV? ==> r == IntV(Trunc(v.f))
  {
    if TypeOf(v) == t then v
    else if t == AnyTy then AnyV(Some(v))
    else match v
      case IntV(i) => if t == Float64Ty then FloatV(i as real) else StrV(RuneString(i))
      case FloatV(f) => IntV(Trunc(f))
  }

  /** `reflect.Type.String()` */
  function TypeString(t: Ty): (s: string)
    ensures |s| > 0
    ensures t.FuncTy? <==> |s| >= 5 && s[..5] == "func("
    ensures t.SliceTy? <==> s[0] == '['
    decreases t
  {
    match t
    case IntTy => "int"
    case Float64Ty => assert "float64"[..5][1] != "func("[1]; "float64"
    case BoolTy => "bool"
    case StringTy => assert "string"[..5][0] != "func("[0]; "string"
    case SliceTy(e) => "[]" + TypeString(e)
    case MapTy(k, e) => "map[" + TypeString(k) + "]" + TypeString(e)
    case AnyTy => "interface {}"
    case ErrorTy => "error"
    case FuncTy(ins, outs) =>
      "func(" + TypeList(ins) + ")" +
      (if |outs| == 0 then ""
       else if |outs| == 1 then " " + TypeString(outs[0])
       else " (" + TypeList(outs) + ")")
  }

  /** The types of `ts`, separated by ", ". */
  function TypeList(ts: seq<Ty>): (s: string)
    ensures s == "" <==> |ts| == 0
    ensures |ts| > 0 ==> TypeString(ts[0]) <= s
    decreases ts
  {
    if |ts| == 0 then ""
    else if |ts| == 1 then TypeString(ts[0])
    else TypeString(ts[0]) + ", " + TypeList(ts[1..])
  }
}
