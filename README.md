# cumin: a Dafny model of the reflective call adapter

`cumin` calls an arbitrary Go function with a list of loosely typed arguments, such as the
`[]interface{}` that JSON decoding produces. The library does four things in order:

1. It checks that the handler is a function.
2. It checks that the argument count equals the function's parameter count.
3. It adapts each argument to its parameter type. A value whose type matches is passed through,
   and a convertible value is converted. The first argument that is neither fails the call with
   an indexed type error. Before this, `GetValueOf` turns a whole-number `float64` into an `int`.
4. It calls the function and applies the trailing-error convention. When the last declared
   result implements `error`, a nil error is dropped and a non-nil error replaces all the results.

`Curry` is a wrapper built once by `NewCurry`. It caches the function's type and its short
display name, and runs the same pipeline on every `Invoke`.

The model replaces Go reflection with explicit data:

- `Reflect.Ty` is a type descriptor for `int`, `float64`, `bool`, `string`, `[]T`,
  `map[K]V`, `interface{}`, `error` and function types.
- `Reflect.Value` is a tagged value. `TypeOf` gives its type.
- `ConvertibleTo` and `Convert` follow Go's conversion rules for these types. Convert's
  contract says the result has the target type.
- A `Cumin.Callable` holds the symbol name the runtime reports for a function, its declared
  parameter and result types, and its body as a function on value sequences.
- `Cumin.WellFormed` says a callable given arguments of its parameter types returns results
  of its result types.

The parts the source writes as code that changes state step by step are imperative:

- `Cumin.Apply` fills a `values` array index by index and returns early on the first argument
  it cannot adapt. It then trims a nil trailing error and builds `ret` by appending in a loop.
  Its contract is that its outcome equals the pure specification `Cumin.Call`.
- `Cumin.Cumin` and `Curry.Invoke` both run `Apply`. The Go source repeats this code in both
  functions; the model defines it once.
- `Curry` is a class whose fields are `const`. `NewCurry` sets them once, and nothing can
  change them afterwards.

Two behaviours of the code are worth noting:

- A fractional `float64`, such as 3.5, passed for an `int` parameter is not rejected.
  `GetValueOf` leaves it as a `float64`. `float64` is convertible to `int`, and Go's
  conversion drops the fraction, so the function receives 3 (`FractionalFloatTruncated`).
- The code has no custom-converter step in the ladder. It also has no "not callable" error
  for a nil handler.

## Model

| member | source | states |
|---|---|---|
| `Cumin.Cumin` | cumin.go:14-61 | The outcome is exactly `Dispatch(h, args)`: the not-a-function error for a non-function, otherwise the full pipeline |
| `Cumin.Dispatch` | cumin.go:18-20 | The outcome is the "Handler is not a function!" error, with no results, exactly when the handler is not a function |
| `Cumin.Call` | cumin.go:22-43 | The arity error occurs exactly when the argument count differs from the parameter count. A type error names an index inside the argument list and the function's signature. A function never yields the not-a-function error |
| `Cumin.Signature` | cumin.go:15 | `reflect.TypeOf(fn)` for a function: its parameter and result types |
| `Cumin.WellFormed` | cumin.go:43 | `Value.Call` returns results of the declared result types when given arguments of the parameter types |
| `Cumin.GetValueOf` | cumin.go:152-164 | A `float64` with no fractional part becomes an `int` of equal value. Every other value, including a fractional `float64`, is returned unchanged |
| `Cumin.AdaptArg` | cumin.go:30-39 | An adapted argument has the parameter's type. Adaptation fails exactly when the normalised argument's type is not convertible to the parameter type. An exact type match passes the normalised value through unchanged |
| `Cumin.AdaptArgConverts` | cumin.go:35-36 | An argument whose normalised type differs from the parameter type but converts to it is adapted to its Go conversion, `Convert(GetValueOf(arg), param)` |
| `Cumin.Extract` | cumin.go:45-53 | Decided by the declared type of the last result. A raised error only comes from a declared trailing `error` holding a non-nil error, and carries its text. Otherwise the results are kept in order, less at most the last one. Results of the declared types leave values of the visible declared types. Without a trailing `error` every result is kept |
| `Cumin.AdaptPrefix` | cumin.go:27-40 | After `n` parameters the ladder holds `n` values, or a type-mismatch error at an index below `n` carrying the function's signature |
| `Cumin.AdaptPrefixErrPersists` | cumin.go:37-39 | A type error ends the loop: no later parameter changes the outcome |
| `Cumin.AdaptPrefixOk` | cumin.go:27-40 | The ladder succeeds if and only if every argument can be adapted. Entry `j` is then argument `j` adapted to parameter `j` |
| `Cumin.AdaptPrefixFirstMismatch` | cumin.go:37-39 | The error is the one for the first argument that cannot be adapted, naming its expected type, index and actual type |
| `Cumin.AdaptedArgsTyped` | cumin.go:29-40 | A successful ladder gives exactly `NumIn` values, and entry `i` has type `In(i)` |
| `Cumin.ArityCheckedFirst` | cumin.go:22-24 | With the wrong argument count, the outcome is the arity error (expected count, signature, actual count). Neither the arguments nor the function body affect it |
| `Cumin.FirstMismatchDecides` | cumin.go:37-43 | With a type error at index `k`, the outcome does not depend on the arguments after `k` or on the function body, so the function is not called |
| `Cumin.TrailingError` | cumin.go:45-58 | For a last declared result of type `error`, nil is dropped and the other results are kept in order, while non-nil becomes the only outcome with its text verbatim. Without a trailing `error`, all results are returned unchanged |
| `Cumin.SuccessfulCall` | cumin.go:42-60 | A successful call returns values of the declared result types in declared order, less a trailing `error`. A forwarded error only arises when the last declared result is an `error` |
| `Cumin.FractionalFloatTruncated` | cumin.go:33-36 | A fractional `float64` is not normalised. It still adapts to an `int` parameter, by truncation |
| `Cumin.Apply` | cumin.go:22-60 | The arity check, the index-by-index fill of `values` with early return, the call, the trailing-error unpacking and the append loop together give exactly `Call(f, args)` |
| `Cumin.Curry.constructor` | cumin.go:72-76 | The wrapper holds the function, its type and the name `GetFunctionName` gives for its symbol |
| `Cumin.Curry.Invoke` | cumin.go:90-133 | The outcome equals what `Cumin` returns for the same function and arguments. No field changes |
| `Cumin.Curry.Name` | cumin.go:136-138 | The cached name is the tail of the function's symbol after its last `.`, and contains no `.` |
| `Cumin.NewCurry` | cumin.go:65-79 | A non-function gives no wrapper and the not-a-function error. A function gives a fresh valid wrapper around it and no error |
| `Names.Split` | cumin.go:146 | `strings.Split` gives at least one segment, and no segment contains the separator |
| `Names.JoinSplit` | cumin.go:146 | Joining the segments with the separator gives back the original string |
| `Names.LastSegmentIsTail` | cumin.go:146-147 | The last segment is a suffix of the name. It is either the whole name or is preceded by the separator |
| `Names.GetFunctionName` | cumin.go:142-148 | The result contains no `.`, is a suffix of the qualified name, and is the whole name or follows a `.` |
| `Names.FunctionNameUnique` | cumin.go:145-147 | Those three properties determine the result uniquely: it is the tail after the last `.` |
| `Reflect.TypeOf` | cumin.go:33 | `arg.Type()`: the type of each tagged value |
| `Reflect.ImplementsError` | cumin.go:46 | `Implements(errorInterface)`: among the modelled types, only `error` |
| `Reflect.IsNil` | cumin.go:47 | `e.IsNil()` on an interface value: it holds no value |
| `Reflect.Convert` | cumin.go:35-36 | A conversion is defined when the types are convertible and gives a value of the target type. Identical types are kept as they are. `int` to `float64` keeps the value, and `float64` to `int` truncates |
| `Reflect.ConvertibleTo` | cumin.go:35 | Every type converts to `interface{}`. `bool` and `string` convert only to themselves and `interface{}`. Only numeric types convert to `int`, and only `string` and `int` convert to `string` |
| `Reflect.RuneString` | cumin.go:36 | Go's `string(rune(i))` is one character: the code point `i` when it is a Unicode scalar value, and U+FFFD otherwise |
| `Reflect.TypeString` | cumin.go:23-38 | The `%s` of a type is non-empty. It starts with `func(` exactly for function types, and with `[` exactly for slice types |
| `Reflect.TypeList` | cumin.go:23-38 | A type list is empty exactly when there are no types, and otherwise starts with the first type's string |
| `Reflect.TruncExact` | cumin.go:157-158 | Converting back the truncated value gives the float exactly when the float is a whole number |
| `Reflect.Trunc` | cumin.go:157 | Go's `int(f)` rounds toward zero: the result is within one of `f` and not farther from zero |
| `Errors.Decimal` | cumin.go:23 | `%d` gives non-empty digits without a leading zero that denote the number |
| `Errors.Message` | cumin.go:19-49 | A raised error's message is its text, verbatim. The arity and type messages start with "Cumin Type Error: ". The full texts are fixed by the function body and checked only by `ArityMessageExample` and `TypeMessageExample` |
| `Errors.ArityMessageExample` | cumin.go:23 | The arity message text, spelled out for a `func(int)` called with two arguments |
| `Errors.PairResultSignature` | cumin.go:38 | The `%s` of a function type with two results lists them in parentheses: `func(int) (string, error)` |
| `Errors.TypeMessageExample` | cumin.go:38 | The type-mismatch message text, spelled out for a string passed to a `func(int) (string, error)` |
| `CuminExamples.UnpackingExample` | cumin_test.go:12-23 | A function returning a three-element list, called with no arguments, returns that list as its one result |
| `CuminExamples.NilErrorExample` | cumin_test.go:39-44 | Called with `false`, the nil error is dropped and exactly one result, the three-element list, remains |
| `CuminExamples.RaisedErrorExample` | cumin_test.go:46-50 | Called with `true`, there are no results and the error text is "An error" |
| `CuminExamples.NoResultExamples` | cumin_test.go:54-71 | `noneNone()` and `oneNone(1)` succeed with no results, and so does `oneNone(7.0)`. Two arguments to `oneNone` give the arity error |
| `CuminExamples.NotAFunctionExample` | cumin.go:18-20 | A string handler is refused as not a function |
| `CuminExamples.TypeMismatchExample` | cumin.go:37-39 | A `bool` for an `int` parameter fails at index 0, naming `int` and `bool` |
| `CuminExamples.InterfaceResultNotRaised` | cumin.go:46 | An `interface{}` result holding an error is returned as a result, not raised, because its declared type is not `error` |
| `CuminExamples.InvokeTwice` | cumin.go:90-133 | Two invocations of one wrapper each give what `Cumin` gives for their own arguments |

## Left out

- Go reflection beyond the modelled types is not covered: named, struct, pointer, array, channel and `[]byte`/`[]rune` types, and concrete types with an `Error()` method. Among the modelled types only `error` implements `error`.
- Values of function type are not modelled, so a parameter or result of function type cannot be matched.
- `runtime.FuncForPC(...).Name()` is a runtime symbol lookup. The symbol name is an input (`Callable.symbol`), and only the split-and-take-last step is modelled.
- Integers are unbounded. Go's 64-bit `int` overflow in `int(asfloat)`, and `float64` rounding of large integers in `float64(asint)` and int-to-float conversion, are not modelled: floats are exact reals.
- A nil handler makes `Cumin` and `NewCurry` panic at `Kind()`. A nil function value such as `var f func(int)` has kind `Func`: `NewCurry` accepts it (its name is `""`), the arity and argument checks run as usual, and it panics only when called. Neither can be represented in the model.
- A nil argument (JSON `null`, the model's `AnyV(None)`) makes the Go code panic at `arg.Type()`. The model instead gives it an outcome: it is treated as a nil `interface{}` value, so it is passed to an `interface{}` parameter and is a type mismatch (actual type `interface {}`) for any other parameter.
- Results of interface type keep their interface wrapper: an `interface{}` result holding 5 is returned as `AnyV(Some(IntV(5)))`, whereas Go's `Interface()` hands the caller the dynamic value, int 5.
- Variadic handlers are not modelled. `NumIn` counts a `...T` parameter as one `[]T` parameter, so the argument ladder adapts that argument to `[]T`. `Call` then passes the slice as a single variadic element, which panics unless `[]T` is assignable to `T`. For example, `func(xs ...interface{})` receives a JSON array as its one element. The `%s` of a variadic function type also prints `...T`.
- An argument can never be an interface-typed value at run time, because `reflect.ValueOf` gives its dynamic type. The model still accepts `AnyV` and `ErrV` arguments and treats them as values of their interface type.
- A panic raised inside the called function is not modelled.
- Go distinguishes a nil result slice from an empty one. The model does not: both are the empty sequence.
- The code has no custom-converter step in the ladder and no "not callable" check for a nil handler; neither is modelled.
- demo/main.go only prints and panics. The JSON helpers `jsonicate` and `unmarshal` in cumin_test.go only build test inputs. Neither is modelled.
- Concurrency: the code has none, and the wrapper is immutable after construction.
