/**
 * The introductory program: a function object `foo` whose single
 * `operator()` is `void(int, int&&, const int&, void* = nullptr) const`, the
 * member function pointer type of that operator, and what the library says
 * about both.
 */
module IntroProgram {
  import opened CallableTypes
  import opened SampleTypes
  import opened Queries
  import opened TransactionSafe
  import opened MemberRvalueReference
  import opened Transformations

  const IntRvalue: Ty := Named("int&&")
  const ConstIntRef: Ty := Named("const int&")
  const VoidPtr: Ty := Named("void*")

  /** The declared parameters of `foo::operator()`; the last one has a default argument. */
  const FooParams: seq<Ty> := [Int, IntRvalue, ConstIntRef, VoidPtr]

  const ConstOnly: Quals := NoQuals.(isConst := true)
  const Unnamed: ObjectQuals := ObjectQuals(false, false, NoRef)

  /** `foo`, named as a plain class type. */
  const Foo: Type := FunctionObject(FooClass, Sig(Void, FooParams, false, ConstOnly), 1, Unnamed)

  /** `foo&&`, the type of the expression `foo{}`. */
  const FooRvalue: Type := FunctionObject(FooClass, Sig(Void, FooParams, false, ConstOnly), 1, Unnamed.(ref := RRef))

  /** `void (foo::*)(int, int&&, const int&, void*)` with the qualifiers `q`. */
  function FooPmf(q: Quals): Type {
    MemberFunctionPointer(FooClass, Sig(Void, FooParams, false, q), false)
  }

  /** `void (int, int&&, const int&, void*)` with the qualifiers `q`. */
  function FooFn(q: Quals): Type {
    Function(Sig(Void, FooParams, false, q))
  }

  /** `decltype(&T::operator())` for a function object type `T`. */
  function CallOperatorPointer(t: Type): (p: Type)
    requires t.FunctionObject?
    ensures p.MemberFunctionPointer? && p.owner == t.cls && !p.pointerConst
    ensures SignatureOf(p) == SignatureOf(t) == Some(t.call)
  {
    MemberFunctionPointer(t.cls, t.call, false)
  }

  /** `arg_at<1, foo>` is `int&&`. */
  lemma SecondArg()
    ensures ArgAt(1, Foo) == Ok(IntRvalue)
  {
  }

  /** `args<foo>` is every declared parameter, in order. */
  lemma AllArgs()
    ensures Args(Foo) == Ok([Int, IntRvalue, ConstIntRef, VoidPtr])
  {
  }

  /** `function_type<foo>` is `void(int, int&&, const int&, void*)`: the `const` of `operator()` is gone. */
  lemma FooFunctionType()
    ensures FunctionType(Foo) == Ok(FooFn(NoQuals))
  {
  }

  /** `arity<foo>` and `arity<foo&&>` are 4; `max_arity` is 4 and `min_arity` 3. */
  lemma FooArity()
    ensures Arity(Foo) == Ok(4) && Arity(FooRvalue) == Ok(4)
    ensures MaxArity(Foo) == Ok(4) && MinArity(Foo) == Ok(3)
  {
  }

  /** `foo` returns `void` and has no C-style varargs. */
  lemma FooReturnAndVarargs()
    ensures HasVoidReturn(Foo) && !HasVarargs(Foo)
  {
  }

  /** The qualifier predicates answer about `operator()`: const, not volatile, no reference qualifier. */
  lemma FooQualifiers()
    ensures IsConstQualified(Foo) && !IsVolatileQualified(Foo)
    ensures !IsReferenceQualified(Foo) && !IsLvalueQualified(Foo) && !IsRvalueQualified(Foo)
  {
  }

  /** `decltype(&foo::operator())` is `void (foo::*)(int, int&&, const int&, void*) const`. */
  lemma FooCallOperatorType()
    ensures CallOperatorPointer(Foo) == FooPmf(ConstOnly)
  {
  }

  /**
   * In this model, which reads a member function pointer's declared
   * parameters, a function object answers every query the way the member
   * function pointer to its `operator()` does, except that only the object
   * knows its default arguments, so its `min_arity` can be lower.
   */
  lemma ObjectAnswersLikeCallOperator(t: Type)
    requires t.FunctionObject? && WellFormed(t)
    ensures var p := CallOperatorPointer(t);
      && ResultOf(t) == ResultOf(p) && Args(t) == Args(p) && Arity(t) == Arity(p)
      && MaxArity(t) == MaxArity(p) && MinArity(t).value <= MinArity(p).value
      && HasVoidReturn(t) == HasVoidReturn(p) && HasVarargs(t) == HasVarargs(p)
      && IsConstQualified(t) == IsConstQualified(p) && IsVolatileQualified(t) == IsVolatileQualified(p)
      && IsLvalueQualified(t) == IsLvalueQualified(p) && IsRvalueQualified(t) == IsRvalueQualified(p)
      && IsTransactionSafe(t) == IsTransactionSafe(p)
  {
  }

  /** `remove_function_const` on the operator's pointer type drops only `const`. */
  lemma MutablePmf()
    ensures RemoveFunctionConst(FooPmf(ConstOnly)) == Ok(FooPmf(NoQuals))
  {
  }

  /** `add_function_rvalue` on the operator's pointer type adds `&&` beside the `const`. */
  lemma RvaluePmf()
    ensures AddMemberRvalueReference(FooPmf(ConstOnly)) == Ok(FooPmf(ConstOnly.(ref := RRef)))
  {
  }

  /** `remove_member_pointer` keeps the `const`, giving an abominable function type. */
  lemma AbominableFromPmf()
    ensures RemoveMemberPointer(FooPmf(ConstOnly)) == Ok(FooFn(ConstOnly))
    ensures IsAbominable(FooFn(ConstOnly))
  {
  }

  /** `remove_function_const` accepts that abominable type and gives the plain function type. */
  lemma NotAbominable()
    ensures RemoveFunctionConst(FooFn(ConstOnly)) == Ok(FooFn(NoQuals))
    ensures !IsAbominable(FooFn(NoQuals))
  {
  }
}
