/**
 The errors the adapter returns, the outcome of one call, and the exact text
 of each error as `fmt.Errorf` formats it.
 */
module Errors {
  import opened Reflect

  datatype CallError =
    | NotAFunction                                                   // the handler's kind is not Func
    | ArityMismatch(numIn: nat, signature: Ty, got: nat)             // NumIn() != len(args)
    | TypeMismatch(param: Ty, index: nat, signature: Ty, actual: Ty) // argument `index` cannot be adapted
    | Raised(text: string)                                           // the callable's trailing error, unwrapped

  /** The pair `([]interface{}, error)`: results and no error, or an error and no results. */
  datatype Outcome = Ok(values: seq<Value>) | Err(error: CallError)

  predicate IsDigits(s: string) {
    forall i :: 0 <= i < |s| ==> '0' <= s[i] <= '9'
  }

  /** The number a string of decimal digits denotes. */
  function DigitsValue(s: string): nat
    requires IsDigits(s)
  {
    if s == [] then 0 else 10 * DigitsValue(s[..|s| - 1]) + (s[|s| - 1] as int - '0' as int)
  }

  /** `%d` of a non-negative integer: canonical decimal digits denoting `n`. */
  function Decimal(n: nat): (s: string)
    ensures |s| >= 1 && IsDigits(s)
    ensures s[0] == '0' ==> s == "0"
    ensures DigitsValue(s) == n
  {
    var d := ['0' + (n % 10) as char];
    if n < 10 then d
    else
      var s := Decimal(n / 10) + d;
      assert s[..|s| - 1] == Decimal(n / 10);
      s
  }

  /** `err.Error()` for each error the adapter produces. */
  function Message(e: CallError): (r: string)
    ensures e.Raised? ==> r == e.text
    ensures e.ArityMismatch? || e.TypeMismatch? ==> "Cumin Type Error: " < r
  {
    match e
    case NotAFunction => "Handler is not a function!"
    case ArityMismatch(n, sig, m) =>
      "Cumin Type Error: expected " + Decimal(n) + " args for function " + TypeString(sig)
      + ", got " + Decimal(m)
    case TypeMismatch(param, i, sig, actual) =>
      "Cumin Type Error: expected " + TypeString(param) + " for arg[" + Decimal(i) + "] in ("
      + TypeString(sig) + "), got " + TypeString(actual) + "."
    case Raised(text) => text
  }

  /** The arity message pieces for a `func(int)` given two arguments join to the expected text. */
  lemma ArityLiteral()
    ensures "Cumin Type Error: expected " + "1" + " args for function " + "func(int)" + ", got " + "2"
            == "Cumin Type Error: expected 1 args for function func(int), got 2"
  {
  }

  /** The arity message for a `func(int)` given two arguments, written out. */
  lemma ArityMessageExample()
    ensures Message(ArityMismatch(1, FuncTy([IntTy], []), 2))
            == "Cumin Type Error: expected 1 args for function func(int), got 2"
  {
    var sig := FuncTy([IntTy], []);
    calc {
      Message(ArityMismatch(1, sig, 2));
      "Cumin Type Error: expected " + Decimal(1) + " args for function " + TypeString(sig)
      + ", got " + Decimal(2);
      { assert Decimal(1) == "1" && Decimal(2) == "2"; assert TypeList([IntTy]) == "int"; }
      "Cumin Type Error: expected " + "1" + " args for function " + "func(int)" + ", got " + "2";
      { ArityLiteral(); }
      "Cumin Type Error: expected 1 args for function func(int), got 2";
    }
  }

  /** A function type with two results is written with its result list in parentheses. */
  lemma PairResultSignature()
    ensures TypeString(FuncTy([IntTy], [StringTy, ErrorTy])) == "func(int) (string, error)"
  {
  }

  /**
   The literal pieces of the type-mismatch message for a string passed to a
   `func(int) (string, error)`. Each join is its own lemma: together in one
   proof the three sequence equalities exceed the solver's budget.
   */
  lemma TypeLiteralHead()
    ensures "Cumin Type Error: expected " + "int" + " for arg[" + "0" + "] in ("
            == "Cumin Type Error: expected int for arg[0] in ("
  {
  }

  lemma TypeLiteralTail()
    ensures "func(int) (string, error)" + "), got " + "string" + "." == "func(int) (string, error)), got string."
  {
  }

  lemma TypeLiteralWhole()
    ensures "Cumin Type Error: expected int for arg[0] in (" + "func(int) (string, error)), got string."
            == "Cumin Type Error: expected int for arg[0] in (func(int) (string, error)), got string."
  {
  }

  /** The pieces of the type-mismatch message above join to the expected text. */
  lemma TypeLiteral()
    ensures "Cumin Type Error: expected " + "int" + " for arg[" + "0" + "] in ("
            + "func(int) (string, error)" + "), got " + "string" + "."
            == "Cumin Type Error: expected int for arg[0] in (func(int) (string, error)), got string."
  {
    TypeLiteralHead();
    TypeLiteralTail();
    TypeLiteralWhole();
  }

  /** The type-mismatch message for a string passed to a `func(int) (string, error)`, written out. */
  lemma TypeMessageExample()
    ensures Message(TypeMismatch(IntTy, 0, FuncTy([IntTy], [StringTy, ErrorTy]), StringTy))
            == "Cumin Type Error: expected int for arg[0] in (func(int) (string, error)), got string."
  {
    var sig := FuncTy([IntTy], [StringTy, ErrorTy]);
    calc {
      Message(TypeMismatch(IntTy, 0, sig, StringTy));
      "Cumin Type Error: expected " + TypeString(IntTy) + " for arg[" + Decimal(0) + "] in ("
      + TypeString(sig) + "), got " + TypeString(StringTy) + ".";
      { assert Decimal(0) == "0"; PairResultSignature(); }
      "Cumin Type Error: expected " + "int" + " for arg[" + "0" + "] in ("
      + "func(int) (string, error)" + "), got " + "string" + ".";
      { TypeLiteral(); }
      "Cumin Type Error: expected int for arg[0] in (func(int) (string, error)), got string.";
    }
  }
}
