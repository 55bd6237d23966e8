# callable_traits, modelled in Dafny

callable_traits is a C++ library of compile-time functions over callable
types: plain and "abominable" function types (function types carrying their
own cv/ref qualifiers), function pointers and references, member function
pointers, and function objects with a single `operator()`. It answers
questions about such a type (return type, parameters, arity bounds, member
qualifiers, `transaction_safe`) and rewrites it (add `&&`, remove `const`,
remove the member pointer, decay to a plain function type, remove one
parameter). A type outside an operation's domain is a substitution failure.

This project models that algebra with values. A C++ type is a value of the
datatype `CallableTypes.Type`. Each type-level function is a Dafny function
that returns `Ok(type)` or `Fail(reason)`. The documentation tables and the
`static_assert`s of the example programs are stated as lemmas.

Modules:

- `CallableTypes` holds the shapes, signatures, qualifiers and failure
  reasons, plus the signature extractor `SignatureOf`. It plays the role of
  the library's internal `detail::traits<T>`, which is not part of this
  model.
- `QualifierAlgebra` holds reference collapsing and the two qualifier edits.
  It has no shape-specific logic.
- `MemberQualifiers` holds the shared domain of the member-qualifier
  transformations.
- `MemberRvalueReference` models `include/callable_traits/add_member_rvalue_reference.hpp`.
- `TransactionSafe` models `include/boost/callable_traits/is_transaction_safe.hpp`.
- `Queries` and `Transformations` hold the rest of the operations: the ones
  the example programs exercise, plus `add_member_pointer` as the inverse of
  `remove_member_pointer`.
- `IntroProgram` models `qtcreator/main/main.cpp`.
- `RemoveAtProgram` models `example/remove_at.cpp`.
- `ResultOfProgram` models `example/result_of/example.cpp`.
- `SampleTypes` holds the type tokens those examples share.

Decisions the source leaves open:

- main.cpp spells two of the transformations `add_function_rvalue` and
  `remove_function_const`. For `add_function_rvalue` the model uses the
  header's `AddMemberRvalueReference`: it is the same transformation with
  the same collapsing rule (main.cpp:122-124). `RemoveFunctionConst` takes
  the same domain as every member-qualifier transformation (header line 37).
- `function_type` drops the `const` of `foo::operator()` (main.cpp:36-38).
  The model therefore drops every cv/ref member qualifier and keeps
  `transaction_safe`.
- The predicates (`has_void_return`, `has_varargs`, the qualifier
  predicates, `is_transaction_safe`) are false on non-callables. This
  follows the "Constraints: none" of `is_transaction_safe`. The queries that
  return a type or a count fail on non-callables.
- `max_arity` and `arity` count the declared parameters. A C-style `...`
  is reported only by `has_varargs`.
- Only `member_qualifiers_are_illegal_for_this_type` appears in the source.
  The model names its other failure reasons itself.

## Model

| member | source | states |
|---|---|---|
| CallableTypes.SignatureOf | include/boost/callable_traits/is_transaction_safe.hpp:30-31 | the signature extractor gives a signature exactly for callable shapes: the shape's own signature, or a function object's `operator()` |
| QualifierAlgebra.Collapse | include/callable_traits/add_member_rvalue_reference.hpp:40-41 | reference collapsing: result is `&` iff either side is `&`, none iff both are none, `&&` otherwise |
| QualifierAlgebra.AddRvalue | include/callable_traits/add_member_rvalue_reference.hpp:40-51 | adding `&&` makes ref `&&` unless it was `&`, and keeps const, volatile and transaction_safe |
| QualifierAlgebra.RemoveConst | qtcreator/main/main.cpp:113-115 | removing const clears const and keeps volatile, ref and transaction_safe |
| QualifierAlgebra.CollapseCommutes | include/callable_traits/add_member_rvalue_reference.hpp:41 | collapsing does not depend on the order of the two qualifiers |
| QualifierAlgebra.CollapseAssociates | include/callable_traits/add_member_rvalue_reference.hpp:41 | a chain of added references collapses the same way in any grouping |
| QualifierAlgebra.CollapseIdempotent | include/callable_traits/add_member_rvalue_reference.hpp:40-41 | adding the same reference qualifier twice equals adding it once |
| QualifierAlgebra.AddRvalueIdempotent | include/callable_traits/add_member_rvalue_reference.hpp:48-49 | adding `&&` is idempotent and a no-op when `&` or `&&` is already present |
| QualifierAlgebra.RemoveConstIdempotent | qtcreator/main/main.cpp:113-115 | removing const is idempotent and a no-op without const |
| QualifierAlgebra.AddRvalueRemoveConstCommute | qtcreator/main/main.cpp:113-120 | adding `&&` and removing const commute |
| MemberQualifiers.AcceptsMemberQualifiers | include/callable_traits/add_member_rvalue_reference.hpp:37-56 | member qualifiers are accepted on every function type and on a member function pointer exactly when the pointer is not const; never on non-callables, function pointers or references, data member pointers or function objects |
| MemberQualifiers.WithMemberQuals | include/callable_traits/add_member_rvalue_reference.hpp:24-37 | member qualifiers can be replaced exactly on function types and non-const member function pointers, leaving shape, owner, return and parameters alone; elsewhere the fixed reason |
| MemberRvalueReference.AddMemberRvalueReference | include/callable_traits/add_member_rvalue_reference.hpp:20-41 | succeeds iff the type is a function type or a non-const member function pointer; then only ref changes, to `&` if it was `&` and `&&` otherwise; a failure always carries member_qualifiers_are_illegal_for_this_type |
| MemberRvalueReference.AddsRvalueToUnqualified | include/callable_traits/add_member_rvalue_reference.hpp:46-47 | an unqualified function type or pmf gains exactly `&&` |
| MemberRvalueReference.LvalueCollapses | include/callable_traits/add_member_rvalue_reference.hpp:41-48 | with `&` present the input comes back unchanged |
| MemberRvalueReference.RvalueIsNoOp | include/callable_traits/add_member_rvalue_reference.hpp:40-49 | with `&&` present the input comes back unchanged |
| MemberRvalueReference.Idempotent | include/callable_traits/add_member_rvalue_reference.hpp:40-49 | applying the transformation to its own result changes nothing |
| MemberRvalueReference.FailsOutsideDomain | include/callable_traits/add_member_rvalue_reference.hpp:37-56 | non-callables, function pointers and references, data member pointers, function objects and const pmf pointers fail with the fixed reason |
| MemberRvalueReference.TableUnqualified | include/callable_traits/add_member_rvalue_reference.hpp:46-47 | table rows `int()` and `int(foo::*)()` |
| MemberRvalueReference.TableAlreadyReferenceQualified | include/callable_traits/add_member_rvalue_reference.hpp:48-49 | table rows for `&` and `&&` pmfs |
| MemberRvalueReference.TableKeepsOtherQualifiers | include/callable_traits/add_member_rvalue_reference.hpp:50-51 | table rows for const and transaction_safe pmfs |
| MemberRvalueReference.TableFailures | include/callable_traits/add_member_rvalue_reference.hpp:52-56 | the five substitution-failure rows |
| TransactionSafe.IsTransactionSafe | include/boost/callable_traits/is_transaction_safe.hpp:57-64 | true iff the type is a function type, function pointer, function reference or pmf with transaction_safe, or a function object whose operator() has it; false on every non-callable |
| TransactionSafe.FunctionObjectFollowsCallOperator | include/boost/callable_traits/is_transaction_safe.hpp:63 | a function object is transaction-safe iff its operator() is |
| TransactionSafe.IgnoresObjectQualifiers | include/boost/callable_traits/is_transaction_safe.hpp:61-63 | the cv/ref of the object type does not change the answer |
| TransactionSafe.CvRefDoNotImply | include/boost/callable_traits/is_transaction_safe.hpp:76-81 | cv or ref qualifiers without transaction_safe give false for function types and pmfs |
| TransactionSafe.TableTrue | include/boost/callable_traits/is_transaction_safe.hpp:72-75 | the four true rows |
| TransactionSafe.TableFalseCallables | include/boost/callable_traits/is_transaction_safe.hpp:76-82 | the false rows for callables |
| TransactionSafe.TableFalseNonCallables | include/boost/callable_traits/is_transaction_safe.hpp:83-85 | `int`, `int foo::*`, `const int foo::*` give false |
| TransactionSafe.DataMemberPointersAreNot | include/boost/callable_traits/is_transaction_safe.hpp:84-85 | no data member pointer is transaction-safe, whatever its member |
| Queries.ResultOf | example/result_of/example.cpp:16-20 | the return type of the function or of operator(); fails exactly on non-callables |
| Queries.Args | qtcreator/main/main.cpp:28-32 | the declared parameter sequence, in order, with duplicates; fails exactly on non-callables |
| Queries.ArgAt | qtcreator/main/main.cpp:24-26 | succeeds iff the index is within `args`, and then is the element of `args` at it; out-of-range and non-callable failures |
| Queries.Arity | qtcreator/main/main.cpp:45-53 | the length of `args` |
| Queries.MaxArity | qtcreator/main/main.cpp:62 | the number of declared parameters |
| Queries.MinArity | qtcreator/main/main.cpp:63 | declared parameters minus a function object's defaulted ones, never above max_arity |
| Queries.HasVoidReturn | qtcreator/main/main.cpp:65-66 | true iff result_of is `void` |
| Queries.HasVarargs | qtcreator/main/main.cpp:68-69 | true iff the signature has C-style `...` |
| Queries.IsConstQualified | qtcreator/main/main.cpp:86 | reads const of the function or operator(), never of the object type |
| Queries.IsVolatileQualified | qtcreator/main/main.cpp:87 | reads volatile of the function or operator() |
| Queries.IsReferenceQualified | qtcreator/main/main.cpp:88 | true iff lvalue- or rvalue-qualified |
| Queries.IsLvalueQualified | qtcreator/main/main.cpp:89 | reads `&` of the function or operator() |
| Queries.IsRvalueQualified | qtcreator/main/main.cpp:90 | reads `&&` of the function or operator() |
| Queries.LvalueRvalueExclusive | qtcreator/main/main.cpp:88-90 | no type is both `&`- and `&&`-qualified |
| Queries.ArityBounds | qtcreator/main/main.cpp:62-63 | min_arity <= max_arity, and arity equals max_arity |
| Queries.ObjectQualifiersIgnored | qtcreator/main/main.cpp:48-53 | every query gives the same answer for `foo`, `foo&&` or any cv/ref of the object type |
| Queries.PointersCarryNoMemberQualifiers | qtcreator/main/main.cpp:81-85 | function pointers and references report no member qualifier; the pointer's own const is not one |
| Transformations.RemoveFunctionConst | qtcreator/main/main.cpp:111-115 | succeeds on function types and non-const pmfs only; clears const and keeps everything else; fixed failure reason |
| Transformations.RemoveFunctionConstNoOp | qtcreator/main/main.cpp:113-115 | removing an absent const returns the input |
| Transformations.RemoveFunctionConstIdempotent | qtcreator/main/main.cpp:113-115 | applying it to its own result changes nothing |
| Transformations.RemoveMemberPointer | qtcreator/main/main.cpp:131-136 | a pmf becomes the function type with the same signature, abominable iff it had cv/ref; a data member pointer becomes its member; anything else fails |
| Transformations.AddMemberPointer | qtcreator/main/main.cpp:132-134 | the inverse: a function type becomes a pmf of the class, any other accepted member type a data member pointer; `void`, function references and function objects named through `&`/`&&` fail |
| Transformations.RemoveThenAddMemberPointer | qtcreator/main/main.cpp:132-134 | re-supplying the owner after remove_member_pointer restores a non-const member pointer exactly |
| Transformations.AddThenRemoveMemberPointer | qtcreator/main/main.cpp:132-134 | remove_member_pointer undoes add_member_pointer, and the pointer formed is well formed |
| Transformations.RemoveMemberPointerKeepsSignature | qtcreator/main/main.cpp:132-136 | return, parameters, varargs, qualifiers and transaction_safe survive removing the member pointer |
| Transformations.Unqualified | qtcreator/main/main.cpp:36-38 | the qualifier set with no const, volatile or ref, and transaction_safe kept |
| Transformations.FunctionType | qtcreator/main/main.cpp:34-38 | exactly callables succeed; the result is a non-abominable function type with the same result_of, args, varargs and transaction_safe |
| Transformations.FunctionTypeIdempotent | qtcreator/main/main.cpp:34-38 | function_type is idempotent and the identity on plain function types |
| Transformations.RemoveIndex | example/remove_at.cpp:20-22 | one element fewer; elements before the index kept, elements after it shifted down by one |
| Transformations.RemoveIndexSplices | example/remove_at.cpp:22 | the result is the prefix before the index followed by the suffix after it |
| Transformations.RemoveIndexMultiset | example/remove_at.cpp:20-23 | exactly the element at the index is taken out, with multiplicities |
| Transformations.RemoveAt | example/remove_at.cpp:20-23 | succeeds iff the type has a signature and the index is in range; shape, owner, pointer const, return, varargs and qualifiers unchanged; parameters are the old ones skipping the index |
| Transformations.RemoveAtQueries | example/remove_at.cpp:20-22 | arity drops by one, result_of is unchanged, and arg_at j is the old arg_at skipping the removed index |
| Transformations.RemoveAtRemovesExactlyOne | example/remove_at.cpp:20-23 | the new parameter multiset plus the removed parameter is the old one |
| Transformations.QualifiersDoNotAffectResult | example/result_of/example.cpp:24-27 | replacing the member qualifiers by any set, or removing const, never changes result_of |
| IntroProgram.SecondArg | qtcreator/main/main.cpp:25-26 | `arg_at<1, foo>` is `int&&` |
| IntroProgram.AllArgs | qtcreator/main/main.cpp:30-32 | `args<foo>` is `int, int&&, const int&, void*` |
| IntroProgram.FooFunctionType | qtcreator/main/main.cpp:36-38 | `function_type<foo>` is the unqualified `void(int, int&&, const int&, void*)` |
| IntroProgram.FooArity | qtcreator/main/main.cpp:45-63 | arity of `foo` and `foo&&` is 4, max_arity 4, min_arity 3 |
| IntroProgram.FooReturnAndVarargs | qtcreator/main/main.cpp:66-69 | void return, no varargs |
| IntroProgram.FooQualifiers | qtcreator/main/main.cpp:86-90 | const, not volatile, no reference qualifier |
| IntroProgram.CallOperatorPointer | qtcreator/main/main.cpp:97-104 | `decltype(&T::operator())` is a non-const pmf of the object's class whose signature is the object's operator() signature |
| IntroProgram.FooCallOperatorType | qtcreator/main/main.cpp:97-104 | the pointer to `foo::operator()` is the const pmf `with_const` |
| IntroProgram.ObjectAnswersLikeCallOperator | qtcreator/main/main.cpp:81-85 | its qualifier conjuncts: a function object's cv/ref checks read its operator() exactly as they read a pmf's function qualifiers; in this model, which reads a pmf's declared parameters, the other queries agree too, except that min_arity may be lower |
| IntroProgram.MutablePmf | qtcreator/main/main.cpp:113-115 | remove_function_const on `with_const` gives `without_const` |
| IntroProgram.RvaluePmf | qtcreator/main/main.cpp:118-120 | add_function_rvalue on `with_const` gives `const &&` |
| IntroProgram.AbominableFromPmf | qtcreator/main/main.cpp:132-136 | remove_member_pointer on `with_const` gives the abominable `void(...) const` |
| IntroProgram.NotAbominable | qtcreator/main/main.cpp:140-142 | remove_function_const on that abominable type gives the plain function type |
| RemoveAtProgram.RemoveIndexTwo | example/remove_at.cpp:20-23 | `remove_at<2, f>` is `int(foo::*)(N<0>, N<1>, N<3>)` |
| RemoveAtProgram.ShapeKept | example/remove_at.cpp:20-22 | the result is still a pmf of `foo` returning `int`, with arity 3 against 4 |
| ResultOfProgram.ResultIsInt | example/result_of/example.cpp:24-32 | all six shapes the example passes to `test`, the lambda included, have result `int` |
| ResultOfProgram.ResultOfEveryShape | example/result_of/example.cpp:16-32 | result_of depends only on the return type: not on shape, owner, pointer const or qualifiers |

## Left out

- `can_invoke` (qtcreator/main/main.cpp:73-79) is left out. It simulates C++ overload resolution and implicit conversions, and parameter types here are opaque tokens.
- `is_constexpr` (qtcreator/main/main.cpp:92-99) is left out. It depends on constant evaluation of the real `operator()`.
- The value-style overloads (`arity(foo{})`, qtcreator/main/main.cpp:46) are left out. They duplicate the type-style form applied to the argument's type, which is modelled as `IntroProgram.FooRvalue`.
- `is_transaction_safe_v<T>` and `is_transaction_safe<T>` are one predicate here. Both read the same `detail::traits<T>::is_transaction_safe` (is_transaction_safe.hpp:30-31 and 46-48), so they agree by construction.
- The `BOOST_CLBL_TRTS_DISABLE_VARIABLE_TEMPLATES` switch (is_transaction_safe.hpp:35-42) is left out. It is a compiler-capability build switch with no behaviour to model.
- Function objects with overloaded or templated `operator()`, and the ambiguity diagnostics, are left out. A function object has exactly one `operator()`.
- The INVOKE structure of member function pointers is left out. main.cpp:34-35 says `function_type` is structured in terms of INVOKE, which for a pmf puts the object parameter first. No static_assert in main.cpp, remove_at.cpp or result_of/example.cpp applies a parameter query to a pmf, so the model reads the declared parameter list of a pmf. Every member that reads that list depends on this: `Queries.Args`, `Queries.ArgAt`, `Queries.Arity`, `Queries.MaxArity`, `Queries.MinArity`, `Transformations.FunctionType`, `Transformations.RemoveAtQueries`, `Transformations.RemoveMemberPointerKeepsSignature`, `IntroProgram.ObjectAnswersLikeCallOperator` and `RemoveAtProgram.ShapeKept`.
- The contents of parameter, return and class types are left out: they are opaque tokens. Also left out: `noexcept`, calling conventions, `volatile` on a pointer, and the completeness of the owner class.
- `add_member_pointer` has no header or example among the modelled files. It is defined here only as the inverse of `remove_member_pointer`.
- Transformations.AddMemberPointer: does not refuse a reference token as a member type. Opaque tokens are taken to name object types, so `Named("int&&")` is accepted and `int&& foo::*` counts as `WellFormed`, although C++ cannot form it. Only `void`, function references and function objects named through `&`/`&&` are refused.
- `remove_at` on a function object is refused in the model. The model has no type to produce for it, and no example shows this case.
- Indices are natural numbers, so negative template indices are not modelled.
- `Queries.MinArity` and `Queries.ArityBounds` require that a function object has no more defaulted parameters than declared ones. C++ cannot form such a type.
- The runtime statement `int i = 0` (qtcreator/main/main.cpp:71) and the `#include` plumbing are left out.
