/**
 * `add_member_rvalue_reference<T>` (spelled `add_function_rvalue` in the
 * introductory program): adds the member qualifier `&&` to a function type
 * or a member function pointer, following reference collapsing, and fails
 * with the fixed reason `member_qualifiers_are_illegal_for_this_type` on
 * every other type.
 */
module MemberRvalueReference {
  import opened CallableTypes
  import opened SampleTypes
  import opened QualifierAlgebra
  import opened MemberQualifiers

  function AddMemberRvalueReference(t: Type): (r: Result<Type>)
    ensures r.Ok? <==> AcceptsMemberQualifiers(t)
    ensures r.Fail? ==> r.reason == MemberQualifiersAreIllegalForThisType
    ensures r.Ok? ==> SameExceptQuals(t, r.value)
    ensures r.Ok? ==> r.value.sig.quals.ref == (if t.sig.quals.ref == LRef then LRef else RRef)
    ensures r.Ok? ==> r.value.sig.quals.isConst == t.sig.quals.isConst
    ensures r.Ok? ==> r.value.sig.quals.isVolatile == t.sig.quals.isVolatile
    ensures r.Ok? ==> r.value.sig.quals.transactionSafe == t.sig.quals.transactionSafe
  {
    if AcceptsMemberQualifiers(t) then WithMemberQuals(t, AddRvalue(t.sig.quals))
    else Fail(MemberQualifiersAreIllegalForThisType)
  }

  /** On an unqualified function type or member function pointer the result is the same type with `&&`. */
  lemma AddsRvalueToUnqualified(t: Type)
    requires AcceptsMemberQualifiers(t) && t.sig.quals == NoQuals
    ensures AddMemberRvalueReference(t) == Ok(WithMemberQuals(t, NoQuals.(ref := RRef)).value)
    ensures AddMemberRvalueReference(t).value.sig.quals.ref == RRef
  {
  }

  /** With `&` already present the type comes back unchanged (reference collapsing). */
  lemma LvalueCollapses(t: Type)
    requires AcceptsMemberQualifiers(t) && t.sig.quals.ref == LRef
    ensures AddMemberRvalueReference(t) == Ok(t)
  {
  }

  /** With `&&` already present the type comes back unchanged. */
  lemma RvalueIsNoOp(t: Type)
    requires AcceptsMemberQualifiers(t) && t.sig.quals.ref == RRef
    ensures AddMemberRvalueReference(t) == Ok(t)
  {
  }

  /** Applying the transformation to its own result changes nothing. */
  lemma Idempotent(t: Type)
    requires AddMemberRvalueReference(t).Ok?
    ensures AddMemberRvalueReference(AddMemberRvalueReference(t).value) == AddMemberRvalueReference(t)
  {
  }

  /**
   * The transformation fails, with the fixed reason and never by giving the
   * input back, on every shape outside its domain: non-callables, function
   * references and pointers, data member pointers, function objects, and
   * member function pointers whose pointer is const.
   */
  lemma FailsOutsideDomain(t: Type)
    requires t.Other? || t.FunctionReference? || t.FunctionPointer? || t.DataMemberPointer?
          || t.FunctionObject? || (t.MemberFunctionPointer? && t.pointerConst)
    ensures AddMemberRvalueReference(t) == Fail(MemberQualifiersAreIllegalForThisType)
  {
  }

  // The rows of the header's input/output table, with `foo` as owner class.

  /** `int()` gives `int() &&`; `int(foo::*)()` gives `int(foo::*)() &&`. */
  lemma TableUnqualified()
    ensures AddMemberRvalueReference(Function(IntSig(NoQuals)))
         == Ok(Function(IntSig(NoQuals.(ref := RRef))))
    ensures AddMemberRvalueReference(MemberFunctionPointer(FooClass, IntSig(NoQuals), false))
         == Ok(MemberFunctionPointer(FooClass, IntSig(NoQuals.(ref := RRef)), false))
  {
  }

  /** `int(foo::*)() &` stays `&`; `int(foo::*)() &&` stays `&&`. */
  lemma TableAlreadyReferenceQualified()
    ensures AddMemberRvalueReference(MemberFunctionPointer(FooClass, IntSig(NoQuals.(ref := LRef)), false))
         == Ok(MemberFunctionPointer(FooClass, IntSig(NoQuals.(ref := LRef)), false))
    ensures AddMemberRvalueReference(MemberFunctionPointer(FooClass, IntSig(NoQuals.(ref := RRef)), false))
         == Ok(MemberFunctionPointer(FooClass, IntSig(NoQuals.(ref := RRef)), false))
  {
  }

  /** `int(foo::*)() const` gives `const &&`; `transaction_safe` is kept beside the new `&&`. */
  lemma TableKeepsOtherQualifiers()
    ensures AddMemberRvalueReference(MemberFunctionPointer(FooClass, IntSig(NoQuals.(isConst := true)), false))
         == Ok(MemberFunctionPointer(FooClass, IntSig(Quals(true, false, RRef, false)), false))
    ensures AddMemberRvalueReference(MemberFunctionPointer(FooClass, IntSig(NoQuals.(transactionSafe := true)), false))
         == Ok(MemberFunctionPointer(FooClass, IntSig(Quals(false, false, RRef, true)), false))
  {
  }

  /** `int`, `int(&)()`, `int(*)()`, `int foo::*` and `int(foo::* const)()` are substitution failures. */
  lemma TableFailures()
    ensures AddMemberRvalueReference(Other(Int)) == Fail(MemberQualifiersAreIllegalForThisType)
    ensures AddMemberRvalueReference(FunctionReference(IntSig(NoQuals))) == Fail(MemberQualifiersAreIllegalForThisType)
    ensures AddMemberRvalueReference(FunctionPointer(IntSig(NoQuals), false)) == Fail(MemberQualifiersAreIllegalForThisType)
    ensures AddMemberRvalueReference(DataMemberPointer(FooClass, Other(Int), false)) == Fail(MemberQualifiersAreIllegalForThisType)
    ensures AddMemberRvalueReference(MemberFunctionPointer(FooClass, IntSig(NoQuals), true)) == Fail(MemberQualifiersAreIllegalForThisType)
  {
  }
}
