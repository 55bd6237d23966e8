/**
 * The shape-specific wrapper around the qualifier algebra: which types may
 * carry member qualifiers at all, and how a new qualifier set is put back
 * into such a type. Every member-qualifier transformation goes through here,
 * so they share one domain and one failure reason.
 */
module MemberQualifiers {
  import opened CallableTypes

  /**
   * Member qualifiers are legal on a function type (plain or abominable) and
   * on a member function pointer whose pointer is not itself const. They are
   * illegal on `int`, function pointers and references, data member pointers
   * and function objects.
   */
  predicate AcceptsMemberQualifiers(t: Type): (b: bool)
    ensures b ==> HasSig(t) && !t.FunctionPointer? && !t.FunctionReference?
    ensures t.Function? ==> b
    ensures t.MemberFunctionPointer? ==> (b <==> !t.pointerConst)
    ensures t.Other? || t.DataMemberPointer? || t.FunctionObject? ==> !b
  {
    t.Function? || (t.MemberFunctionPointer? && !t.pointerConst)
  }

  /** Two signatures that differ at most in their qualifiers. */
  predicate SameSigExceptQuals(s: Sig, s': Sig) {
    s.ret == s'.ret && s.params == s'.params && s.varargs == s'.varargs
  }

  /** Two types of the same shape, owner and pointer constness whose signatures differ at most in qualifiers. */
  predicate SameExceptQuals(t: Type, t': Type) {
    match (t, t')
    case (Function(s), Function(s')) => SameSigExceptQuals(s, s')
    case (MemberFunctionPointer(o, s, p), MemberFunctionPointer(o', s', p')) =>
      o == o' && p == p' && SameSigExceptQuals(s, s')
    case _ => false
  }

  /** Replaces the member qualifiers of `t` by `q`, or fails when `t` cannot carry member qualifiers. */
  function WithMemberQuals(t: Type, q: Quals): (r: Result<Type>)
    ensures r.Ok? <==> AcceptsMemberQualifiers(t)
    ensures r.Fail? ==> r.reason == MemberQualifiersAreIllegalForThisType
    ensures r.Ok? ==> SameExceptQuals(t, r.value) && r.value.sig.quals == q
  {
    match t
    case Function(s) => Ok(Function(s.(quals := q)))
    case MemberFunctionPointer(o, s, false) => Ok(MemberFunctionPointer(o, s.(quals := q), false))
    case _ => Fail(MemberQualifiersAreIllegalForThisType)
  }
}
