/**
 The functions exercised by the repository's tests, and what the adapter
 returns for them.
 */
module CuminExamples {
  import opened Reflect
  import opened Errors
  import opened Cumin

  /** `func() []interface{} { return []interface{}{1, 2, 3} }` */
  function ListMaker(): Callable {
    Callable("cumin.TestCuminUnpacking.func1.1", [], [SliceTy(AnyTy)],
             _ => [SliceV(AnyTy, [IntV(1), IntV(2), IntV(3)])])
  }

  /** `func(t bool) ([]interface{}, error)`: an error when `t`, else the list 1, 2, 3 and nil. */
  function MaybeFail(): Callable {
    Callable("cumin.TestCuminUnpacking.func2.1", [BoolTy], [SliceTy(AnyTy), ErrorTy],
             args => if |args| == 1 && args[0] == BoolV(true)
                     then [SliceV(AnyTy, []), ErrV(Some("An error"))]
                     else [SliceV(AnyTy, [IntV(1), IntV(2), IntV(3)]), ErrV(None)])
  }

  /** `func noneNone() {}` and `func oneNone(a int) {}` */
  function NoneNone(): Callable { Callable("cumin.noneNone", [], [], _ => []) }
  function OneNone(): Callable { Callable("cumin.oneNone", [IntTy], [], _ => []) }

  /** A function with no trailing error returns its one result as it is. */
  lemma UnpackingExample()
    ensures Dispatch(Func(ListMaker()), []) == Ok([SliceV(AnyTy, [IntV(1), IntV(2), IntV(3)])])
  {
    assert AdaptPrefix(Signature(ListMaker()), [], 0) == Ok([]);
  }

  /** A nil trailing error is dropped and exactly the one other result remains. */
  lemma NilErrorExample()
    ensures Dispatch(Func(MaybeFail()), [BoolV(false)]) == Ok([SliceV(AnyTy, [IntV(1), IntV(2), IntV(3)])])
  {
    var sig := Signature(MaybeFail());
    assert AdaptPrefix(sig, [BoolV(false)], 1) == Ok([BoolV(false)]) by {
      assert AdaptPrefix(sig, [BoolV(false)], 0) == Ok([]);
    }
  }

  /** A non-nil trailing error is the whole outcome, with its text unchanged. */
  lemma RaisedErrorExample()
    ensures Dispatch(Func(MaybeFail()), [BoolV(true)]) == Err(Raised("An error"))
    ensures Message(Dispatch(Func(MaybeFail()), [BoolV(true)]).error) == "An error"
  {
    var sig := Signature(MaybeFail());
    assert AdaptPrefix(sig, [BoolV(true)], 1) == Ok([BoolV(true)]) by {
      assert AdaptPrefix(sig, [BoolV(true)], 0) == Ok([]);
    }
  }

  /** Functions without results accept the right number of arguments and return nothing. */
  lemma NoResultExamples()
    ensures Dispatch(Func(NoneNone()), []) == Ok([])
    ensures Dispatch(Func(OneNone()), [IntV(1)]) == Ok([])
    ensures Dispatch(Func(OneNone()), [FloatV(7.0)]) == Ok([])
    ensures Dispatch(Func(OneNone()), [IntV(7), IntV(8)]) == Err(ArityMismatch(1, FuncTy([IntTy], []), 2))
  {
    assert AdaptPrefix(Signature(NoneNone()), [], 0) == Ok([]);
    assert AdaptPrefix(Signature(OneNone()), [IntV(1)], 1) == Ok([IntV(1)]) by {
      assert AdaptPrefix(Signature(OneNone()), [IntV(1)], 0) == Ok([]);
    }
    assert AdaptPrefix(Signature(OneNone()), [FloatV(7.0)], 1) == Ok([IntV(7)]) by {
      assert AdaptPrefix(Signature(OneNone()), [FloatV(7.0)], 0) == Ok([]);
    }
  }

  /** A value that is not a function is refused. */
  lemma NotAFunctionExample()
    ensures Dispatch(NonFunc(StrV("f")), []) == Err(NotAFunction)
  {
  }

  /** A bool for an int parameter cannot be converted: the call fails at that index. */
  lemma TypeMismatchExample()
    ensures Dispatch(Func(OneNone()), [BoolV(true)]) == Err(TypeMismatch(IntTy, 0, FuncTy([IntTy], []), BoolTy))
  {
    assert AdaptPrefix(Signature(OneNone()), [BoolV(true)], 0) == Ok([]);
  }

  /**
   The declared result type decides the trailing-error rule: an `interface{}`
   result that happens to hold an error is a result, not a raised error.
   */
  lemma InterfaceResultNotRaised()
    ensures var boxed := AnyV(Some(ErrV(Some("x"))));
            Dispatch(Func(Callable("p.g", [], [AnyTy], _ => [boxed])), []) == Ok([boxed])
  {
    assert AdaptPrefix(FuncTy([], [AnyTy]), [], 0) == Ok([]);
  }

  /** Two invocations of one wrapper are independent: each gives what `Cumin` gives for its own arguments. */
  method InvokeTwice(h: Handler, args1: seq<Value>, args2: seq<Value>) returns (r1: Outcome, r2: Outcome)
    requires h.Func?
    ensures r1 == Dispatch(h, args1) && r2 == Dispatch(h, args2)
  {
    var c, err := NewCurry(h);
    r1 := c.Invoke(args1);
    r2 := c.Invoke(args2);
  }
}
