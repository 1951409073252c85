/**
 The reflective call adapter: check that a handler is a function, check the
 argument count, adapt each argument to its declared parameter type, call the
 function, and apply the trailing-error convention to its results.
 */
module Cumin {
  import opened Reflect
  import opened Errors
  import opened Names

  /**
   A function value as the adapter sees it: the symbol name the run time
   associates with it, its declared parameter and result types, and what it
   computes from its (already adapted) arguments.
   */
  datatype Callable = Callable(symbol: string, ins: seq<Ty>, outs: seq<Ty>, body: seq<Value> -> seq<Value>)

  /** The `fn interface{}` handed to the adapter: a function, or a value of some other kind. */
  datatype Handler = Func(f: Callable) | NonFunc(v: Value)

  /** `reflect.TypeOf(fn)` for a function. */
  function Signature(f: Callable): Ty {
    FuncTy(f.ins, f.outs)
  }

  /** Called with arguments of the declared types, the function returns results of the declared types. */
  ghost predicate WellFormed(f: Callable) {
    forall args :: Typed(args, f.ins) ==> Typed(f.body(args), f.outs)
  }

  /**
   `GetValueOf`: a float64 holding a whole number (as JSON decoding produces
   for integers) becomes an int of the same value; every other value is kept.
   */
  function GetValueOf(x: Value): (r: Value)
    ensures x.FloatV? && x.f == x.f.Floor as real ==> r == IntV(x.f.Floor)
    ensures !(x.FloatV? && x.f == x.f.Floor as real) ==> r == x
  {
    if x.FloatV? then
      var asint := Trunc(x.f);
      TruncExact(x.f);
      if asint as real == x.f then IntV(asint) else x
    else x
  }

  /**
   One step of the argument ladder: the normalised argument itself when its
   type is the parameter type, else its conversion when convertible, else nothing.
   */
  function AdaptArg(param: Ty, arg: Value): (r: Option<Value>)
    ensures r.Some? ==> TypeOf(r.value) == param
    ensures r.None? <==> !ConvertibleTo(TypeOf(GetValueOf(arg)), param)
    ensures TypeOf(GetValueOf(arg)) == param ==> r == Some(GetValueOf(arg))
  {
    var a := GetValueOf(arg);
    if param == TypeOf(a) then Some(a)
    else if ConvertibleTo(TypeOf(a), param) then Some(Convert(a, param))
    else None
  }

  /**
   An argument whose normalised type differs from the parameter type but
   converts to it is adapted to its conversion.
   */
  lemma AdaptArgConverts(param: Ty, arg: Value)
    requires TypeOf(GetValueOf(arg)) != param && ConvertibleTo(TypeOf(GetValueOf(arg)), param)
    ensures AdaptArg(param, arg) == Some(Convert(GetValueOf(arg), param))
  {
  }

  /** The error for argument `i` that the ladder rejects. */
  function MismatchAt(sig: Ty, args: seq<Value>, i: nat): CallError
    requires sig.FuncTy? && i < |sig.ins| == |args|
  {
    TypeMismatch(sig.ins[i], i, sig, TypeOf(GetValueOf(args[i])))
  }

  /**
   The loop over the first `n` parameters of `sig`: the adapted values, or the
   error for the first argument that cannot be adapted.
   */
  function AdaptPrefix(sig: Ty, args: seq<Value>, n: nat): (r: Outcome)
    requires sig.FuncTy? && n <= |sig.ins| == |args|
    ensures r.Ok? ==> |r.values| == n
    ensures r.Err? ==> r.error.TypeMismatch? && r.error.index < n && r.error.signature == sig
  {
    if n == 0 then Ok([])
    else
      match AdaptPrefix(sig, args, n - 1)
      case Err(e) => Err(e)
      case Ok(vs) =>
        match AdaptArg(sig.ins[n - 1], args[n - 1])
        case None => Err(MismatchAt(sig, args, n - 1))
        case Some(v) => Ok(vs + [v])
  }

  /**
   The trailing-error convention applied to the raw results of a call, decided
   by the declared type of the last result: when it is `error`, a non-nil error
   value replaces every result, and anything else in that slot (for a
   well-formed function, only the nil error) is dropped.
   */
  function Extract(outs: seq<Ty>, results: seq<Value>): (r: Outcome)
    ensures r.Err? ==> && r.error.Raised?
                       && |outs| > 0 && ImplementsError(outs[|outs| - 1])
                       && |results| > 0 && results[|results| - 1] == ErrV(Some(r.error.text))
    ensures r.Ok? ==> r.values <= results && |results| <= |r.values| + 1
    ensures r.Ok? && Typed(results, outs) ==> Typed(r.values, Visible(outs))
    ensures !(|outs| > 0 && ImplementsError(outs[|outs| - 1])) ==> r == Ok(results)
  {
    if |results| > 0 && |outs| > 0 && ImplementsError(outs[|outs| - 1]) then
      var e := results[|results| - 1];
      if e.ErrV? && !IsNil(e) then Err(Raised(e.text.value)) else Ok(results[..|results| - 1])
    else Ok(results)
  }

  /** The whole pipeline for a function: arity gate, argument ladder, call, result extraction. */
  function Call(f: Callable, args: seq<Value>): (r: Outcome)
    ensures (r.Err? && r.error.ArityMismatch?) <==> |args| != |f.ins|
    ensures r.Err? && r.error.TypeMismatch? ==> r.error.index < |args| && r.error.signature == Signature(f)
    ensures r.Err? ==> !r.error.NotAFunction?
  {
    var sig := Signature(f);
    if |f.ins| != |args| then Err(ArityMismatch(|f.ins|, sig, |args|))
    else
      match AdaptPrefix(sig, args, |args|)
      case Err(e) => Err(e)
      case Ok(values) => Extract(f.outs, f.body(values))
  }

  /** What `Cumin(fn, args)` returns. */
  function Dispatch(h: Handler, args: seq<Value>): (r: Outcome)
    ensures r == Err(NotAFunction) <==> h.NonFunc?
  {
    match h
    case NonFunc(_) => Err(NotAFunction)
    case Func(f) => Call(f, args)
  }

  // ---------------------------------------------------------------------------
  // Properties of the argument ladder

  /** Once the ladder has failed, later parameters do not change the outcome. */
  lemma {:induction false} AdaptPrefixErrPersists(sig: Ty, args: seq<Value>, n: nat, m: nat)
    requires sig.FuncTy? && n <= m <= |sig.ins| == |args|
    requires AdaptPrefix(sig, args, n).Err?
    ensures AdaptPrefix(sig, args, m) == AdaptPrefix(sig, args, n)
    decreases m - n
  {
    if n < m {
      AdaptPrefixErrPersists(sig, args, n, m - 1);
    }
  }

  /**
   The ladder succeeds exactly when every argument can be adapted, and then
   entry `j` is argument `j` adapted to parameter `j`.
   */
  lemma {:induction false} AdaptPrefixOk(sig: Ty, args: seq<Value>, n: nat)
    requires sig.FuncTy? && n <= |sig.ins| == |args|
    ensures AdaptPrefix(sig, args, n).Ok? <==> forall j :: 0 <= j < n ==> AdaptArg(sig.ins[j], args[j]).Some?
    ensures AdaptPrefix(sig, args, n).Ok? ==>
              forall j :: 0 <= j < n ==> AdaptArg(sig.ins[j], args[j]) == Some(AdaptPrefix(sig, args, n).values[j])
  {
    if n > 0 {
      AdaptPrefixOk(sig, args, n - 1);
    }
  }

  /**
   The ladder fails with the error of the first argument that cannot be
   adapted, whatever the arguments after it are.
   */
  lemma {:induction false} AdaptPrefixFirstMismatch(sig: Ty, args: seq<Value>, n: nat, k: nat)
    requires sig.FuncTy? && k < n <= |sig.ins| == |args|
    requires forall j :: 0 <= j < k ==> AdaptArg(sig.ins[j], args[j]).Some?
    requires AdaptArg(sig.ins[k], args[k]).None?
    ensures AdaptPrefix(sig, args, n) == Err(MismatchAt(sig, args, k))
  {
    AdaptPrefixOk(sig, args, k);
    AdaptPrefixErrPersists(sig, args, k + 1, n);
  }

  /** A successful ladder yields exactly one value per parameter, each of the parameter's type. */
  lemma AdaptedArgsTyped(sig: Ty, args: seq<Value>)
    requires sig.FuncTy? && |sig.ins| == |args|
    requires AdaptPrefix(sig, args, |args|).Ok?
    ensures Typed(AdaptPrefix(sig, args, |args|).values, sig.ins)
  {
    AdaptPrefixOk(sig, args, |args|);
  }

  // ---------------------------------------------------------------------------
  // Properties of the whole call

  /**
   A function with the wrong number of arguments fails with the arity error
   before anything else: neither the arguments nor the function body matter.
   */
  lemma ArityCheckedFirst(f: Callable, g: Callable, args: seq<Value>, args': seq<Value>)
    requires f.ins == g.ins && f.outs == g.outs && |args| == |args'| != |f.ins|
    ensures Call(f, args) == Call(g, args') == Err(ArityMismatch(|f.ins|, Signature(f), |args|))
  {
  }

  /**
   The first argument the ladder rejects decides the outcome: the arguments
   after it and the function body play no part, so the function is not called.
   */
  lemma FirstMismatchDecides(f: Callable, g: Callable, args: seq<Value>, args': seq<Value>, k: nat)
    requires f.ins == g.ins && f.outs == g.outs && |args| == |args'| == |f.ins|
    requires k < |args| && args[..k + 1] == args'[..k + 1]
    requires forall j :: 0 <= j < k ==> AdaptArg(f.ins[j], args[j]).Some?
    requires AdaptArg(f.ins[k], args[k]).None?
    ensures Call(f, args) == Call(g, args') == Err(TypeMismatch(f.ins[k], k, Signature(f), TypeOf(GetValueOf(args[k]))))
  {
    var sig := Signature(f);
    assert forall j :: 0 <= j <= k ==> args[j] == args'[j] by {
      forall j | 0 <= j <= k ensures args[j] == args'[j] {
        assert args[..k + 1][j] == args'[..k + 1][j];
      }
    }
    AdaptPrefixFirstMismatch(sig, args, |args|, k);
    AdaptPrefixFirstMismatch(sig, args', |args|, k);
  }

  /** The declared results a successful call hands back: all of them, less a trailing `error`. */
  function Visible(outs: seq<Ty>): seq<Ty> {
    if |outs| > 0 && ImplementsError(outs[|outs| - 1]) then outs[..|outs| - 1] else outs
  }

  /**
   The trailing-error convention in terms of the declared result types: when
   the last declared result is an `error`, a nil error is dropped and the
   other results are returned in order, while a non-nil error discards every
   result and becomes the error, with its text unchanged; otherwise all
   results are returned unchanged.
   */
  lemma {:induction false} TrailingError(f: Callable, args: seq<Value>)
    requires WellFormed(f)
    requires |args| == |f.ins| && AdaptPrefix(Signature(f), args, |args|).Ok?
    ensures var res := f.body(AdaptPrefix(Signature(f), args, |args|).values);
            && Typed(res, f.outs)
            && (|f.outs| > 0 && ImplementsError(f.outs[|f.outs| - 1]) ==>
                 || (res[|res| - 1] == ErrV(None) && Call(f, args) == Ok(res[..|res| - 1]))
                 || (exists t :: res[|res| - 1] == ErrV(Some(t)) && Call(f, args) == Err(Raised(t))))
            && (!(|f.outs| > 0 && ImplementsError(f.outs[|f.outs| - 1])) ==> Call(f, args) == Ok(res))
  {
    var values := AdaptPrefix(Signature(f), args, |args|).values;
    AdaptedArgsTyped(Signature(f), args);
    var res := f.body(values);
    assert Typed(res, f.outs);
    if |f.outs| > 0 && ImplementsError(f.outs[|f.outs| - 1]) {
      assert TypeOf(res[|res| - 1]) == ErrorTy;
      if res[|res| - 1].text.Some? {
        assert Call(f, args) == Err(Raised(res[|res| - 1].text.value));
      }
    }
  }

  /**
   A call that succeeds returns exactly the function's visible declared
   results, in declared order and of the declared types; a forwarded error
   comes from a non-nil trailing `error`.
   */
  lemma SuccessfulCall(f: Callable, args: seq<Value>)
    requires WellFormed(f)
    ensures Call(f, args).Ok? ==> Typed(Call(f, args).values, Visible(f.outs))
    ensures Call(f, args).Err? && Call(f, args).error.Raised? ==>
              |f.outs| > 0 && ImplementsError(f.outs[|f.outs| - 1])
  {
    if |args| == |f.ins| && AdaptPrefix(Signature(f), args, |args|).Ok? {
      TrailingError(f, args);
      var res := f.body(AdaptPrefix(Signature(f), args, |args|).values);
      if Call(f, args).Ok? && |f.outs| > 0 && ImplementsError(f.outs[|f.outs| - 1]) {
        assert Call(f, args).values == res[..|res| - 1];
      }
    }
  }

  /**
   Go's conversion from float64 to int discards the fraction, so a fractional
   number passed for an int parameter is adapted, to its truncation.
   */
  lemma FractionalFloatTruncated(r: real)
    requires r != r.Floor as real
    ensures GetValueOf(FloatV(r)) == FloatV(r)
    ensures AdaptArg(IntTy, FloatV(r)) == Some(IntV(Trunc(r)))
  {
  }

  // ---------------------------------------------------------------------------
  // The imperative code

  /**
   The shared body of `Cumin` and `Curry.Invoke`: given the function's type
   `sig`, check the argument count, fill `values` index by index (stopping at
   the first argument that cannot be adapted), call, and unpack the results.
   */
  method Apply(sig: Ty, f: Callable, args: seq<Value>) returns (r: Outcome)
    requires sig == Signature(f)
    ensures r == Call(f, args)
  {
    if |sig.ins| != |args| {
      return Err(ArityMismatch(|sig.ins|, sig, |args|));
    }

    var values := new Value[|args|];
    for i := 0 to |sig.ins|
      invariant AdaptPrefix(sig, args, i) == Ok(values[..i])
    {
      var param := sig.ins[i];
      var arg := GetValueOf(args[i]);
      if param == TypeOf(arg) {
        values[i] := arg;
      } else if ConvertibleTo(TypeOf(arg), param) {
        values[i] := Convert(arg, param);
      } else {
        assert AdaptPrefix(sig, args, i + 1) == Err(MismatchAt(sig, args, i));
        AdaptPrefixErrPersists(sig, args, i + 1, |args|);
        return Err(TypeMismatch(param, i, sig, TypeOf(arg)));
      }
      assert values[..i + 1] == values[..i] + [values[i]];
    }
    assert values[..] == values[..|args|];

    var result := f.body(values[..]);

    if |result| > 0 && |sig.outs| > 0 && ImplementsError(sig.outs[|sig.outs| - 1]) {
      var e := result[|result| - 1];
      if e.ErrV? && !IsNil(e) {
        return Err(Raised(e.text.value));
      }
      result := result[..|result| - 1];
    }

    var ret: seq<Value> := [];
    for j := 0 to |result|
      invariant ret == result[..j]
    {
      ret := ret + [result[j]];
    }
    assert ret == result;
    return Ok(ret);
  }

  /** `Cumin(fn, args)`: reject a handler that is not a function, then run the pipeline on it. */
  method Cumin(h: Handler, args: seq<Value>) returns (r: Outcome)
    ensures r == Dispatch(h, args)
  {
    if !h.Func? {
      return Err(NotAFunction);
    }
    var receiver := Signature(h.f);
    r := Apply(receiver, h.f, args);
  }

  // ---------------------------------------------------------------------------
  // The reusable wrapper

  /**
   A function bound once to its type and display name. The fields are fixed
   by the constructor; `Invoke` and `Name` only read them.
   */
  class Curry {
    const fn: Callable
    const fnType: Ty
    const name: string

    ghost predicate Valid() {
      fnType == Signature(fn) && name == GetFunctionName(fn.symbol)
    }

    constructor (f: Callable)
      ensures Valid() && fn == f
    {
      fn := f;
      fnType := Signature(f);
      name := GetFunctionName(f.symbol);
    }

    /** `c.Invoke(args)`: the same outcome as `Cumin(fn, args)`, using the cached type. */
    method Invoke(args: seq<Value>) returns (r: Outcome)
      requires Valid()
      ensures r == Dispatch(Func(fn), args)
    {
      r := Apply(fnType, fn, args);
    }

    /** `c.Name()`: the function's symbol name after its last `.`. */
    function Name(): (r: string)
      requires Valid()
      ensures '.' !in r
      ensures |r| <= |fn.symbol| && fn.symbol[|fn.symbol| - |r|..] == r
      ensures |r| == |fn.symbol| || fn.symbol[|fn.symbol| - |r| - 1] == '.'
    {
      name
    }
  }

  /** `NewCurry(fn)`: a wrapper for a function, or the not-a-function error and no wrapper. */
  method NewCurry(h: Handler) returns (c: Curry?, err: Option<CallError>)
    ensures h.NonFunc? ==> c == null && err == Some(NotAFunction)
    ensures h.Func? ==> c != null && fresh(c) && c.Valid() && c.fn == h.f && err == None
  {
    if !h.Func? {
      return null, Some(NotAFunction);
    }
    c := new Curry(h.f);
    err := None;
  }
}
