/**
 * The queries: return type, parameter list, indexed parameter, arity bounds,
 * void return, C-style varargs, and the member-qualifier predicates. Each is
 * read off the one signature extractor, so for a function object it answers
 * about its `operator()` and never about the qualifiers of the object type.
 *
 * The type-valued and count-valued queries fail on non-callables; the
 * predicates are total and answer false there.
 */
module Queries {
  import opened CallableTypes

  /** `result_of<T>`: the return type of the callable's function. */
  function ResultOf(t: Type): (r: Result<Ty>)
    ensures r.Ok? <==> IsCallable(t)
    ensures HasSig(t) ==> r == Ok(t.sig.ret)
    ensures t.FunctionObject? ==> r == Ok(t.call.ret)
    ensures r.Fail? ==> r.reason == CannotDetermineReturnTypeForThisType
  {
    match SignatureOf(t)
    case Some(s) => Ok(s.ret)
    case None => Fail(CannotDetermineReturnTypeForThisType)
  }

  /** `args<T>`: the declared parameters, in declaration order, duplicates kept. */
  function Args(t: Type): (r: Result<seq<Ty>>)
    ensures r.Ok? <==> IsCallable(t)
    ensures HasSig(t) ==> r == Ok(t.sig.params)
    ensures t.FunctionObject? ==> r == Ok(t.call.params)
    ensures r.Fail? ==> r.reason == CannotDetermineParametersForThisType
  {
    match SignatureOf(t)
    case Some(s) => Ok(s.params)
    case None => Fail(CannotDetermineParametersForThisType)
  }

  /** `arg_at<I, T>`: the parameter at position `i` of `args<T>`, or an out-of-range failure. */
  function ArgAt(i: nat, t: Type): (r: Result<Ty>)
    ensures r.Ok? <==> Args(t).Ok? && i < |Args(t).value|
    ensures r.Ok? ==> r.value == Args(t).value[i]
    ensures !IsCallable(t) ==> r == Fail(CannotDetermineParametersForThisType)
    ensures IsCallable(t) && r.Fail? ==> r.reason == IndexOutOfRangeForParameterList
  {
    match SignatureOf(t)
    case None => Fail(CannotDetermineParametersForThisType)
    case Some(s) => if i < |s.params| then Ok(s.params[i]) else Fail(IndexOutOfRangeForParameterList)
  }

  /** `arity<T>`: the number of declared parameters (the `...` of C varargs is not counted). */
  function Arity(t: Type): (r: Result<nat>)
    ensures r.Ok? <==> IsCallable(t)
    ensures r.Ok? ==> r.value == |Args(t).value|
    ensures r.Fail? ==> r.reason == CannotDetermineParametersForThisType
  {
    match SignatureOf(t)
    case Some(s) => Ok(|s.params|)
    case None => Fail(CannotDetermineParametersForThisType)
  }

  /** `max_arity<T>`: the largest number of arguments, which is every declared parameter. */
  function MaxArity(t: Type): (r: Result<nat>)
    ensures r.Ok? <==> IsCallable(t)
    ensures HasSig(t) ==> r == Ok(|t.sig.params|)
    ensures t.FunctionObject? ==> r == Ok(|t.call.params|)
    ensures r.Fail? ==> r.reason == CannotDetermineParametersForThisType
  {
    match Args(t)
    case Ok(ps) => Ok(|ps|)
    case Fail(e) => Fail(e)
  }

  /**
   * `min_arity<T>`: the smallest number of arguments, which leaves out the
   * defaulted trailing parameters of a function object's `operator()`.
   * Function types carry no default arguments.
   */
  function MinArity(t: Type): (r: Result<nat>)
    requires t.FunctionObject? ==> t.defaults <= |t.call.params|
    ensures r.Ok? <==> IsCallable(t)
    ensures HasSig(t) ==> r == Ok(|t.sig.params|)
    ensures t.FunctionObject? ==> r == Ok(|t.call.params| - t.defaults)
    ensures r.Ok? ==> r.value <= MaxArity(t).value
    ensures r.Fail? ==> r.reason == CannotDetermineParametersForThisType
  {
    match t
    case FunctionObject(_, call, d, _) => Ok(|call.params| - d)
    case _ => MaxArity(t)
  }

  /** `has_void_return<T>`: the callable returns `void`. */
  function HasVoidReturn(t: Type): (b: bool)
    ensures b <==> ResultOf(t) == Ok(Void)
  {
    match SignatureOf(t)
    case Some(s) => s.ret == Void
    case None => false
  }

  /** `has_varargs<T>`: the signature ends in a C-style `...`. */
  function HasVarargs(t: Type): (b: bool)
    ensures b <==> (HasSig(t) && t.sig.varargs) || (t.FunctionObject? && t.call.varargs)
  {
    match SignatureOf(t)
    case Some(s) => s.varargs
    case None => false
  }

  /** `is_const_qualified<T>`: the function carries the member qualifier `const`. */
  function IsConstQualified(t: Type): (b: bool)
    ensures b <==> (HasSig(t) && t.sig.quals.isConst) || (t.FunctionObject? && t.call.quals.isConst)
  {
    match SignatureOf(t)
    case Some(s) => s.quals.isConst
    case None => false
  }

  /** `is_volatile_qualified<T>`: the function carries the member qualifier `volatile`. */
  function IsVolatileQualified(t: Type): (b: bool)
    ensures b <==> (HasSig(t) && t.sig.quals.isVolatile) || (t.FunctionObject? && t.call.quals.isVolatile)
  {
    match SignatureOf(t)
    case Some(s) => s.quals.isVolatile
    case None => false
  }

  /** `is_lvalue_qualified<T>`: the function carries the member qualifier `&`. */
  function IsLvalueQualified(t: Type): (b: bool)
    ensures b <==> (HasSig(t) && t.sig.quals.ref == LRef) || (t.FunctionObject? && t.call.quals.ref == LRef)
  {
    match SignatureOf(t)
    case Some(s) => s.quals.ref == LRef
    case None => false
  }

  /** `is_rvalue_qualified<T>`: the function carries the member qualifier `&&`. */
  function IsRvalueQualified(t: Type): (b: bool)
    ensures b <==> (HasSig(t) && t.sig.quals.ref == RRef) || (t.FunctionObject? && t.call.quals.ref == RRef)
  {
    match SignatureOf(t)
    case Some(s) => s.quals.ref == RRef
    case None => false
  }

  /** `is_reference_qualified<T>`: the function carries `&` or `&&`. */
  function IsReferenceQualified(t: Type): (b: bool)
    ensures b <==> IsLvalueQualified(t) || IsRvalueQualified(t)
  {
    match SignatureOf(t)
    case Some(s) => s.quals.ref != NoRef
    case None => false
  }

  /** A function cannot be both `&`- and `&&`-qualified. */
  lemma LvalueRvalueExclusive(t: Type)
    ensures !(IsLvalueQualified(t) && IsRvalueQualified(t))
  {
  }

  /** The arity bounds of a callable are ordered, and arity is the upper one. */
  lemma ArityBounds(t: Type)
    requires IsCallable(t) && (t.FunctionObject? ==> t.defaults <= |t.call.params|)
    ensures MinArity(t).value <= MaxArity(t).value
    ensures Arity(t) == MaxArity(t)
  {
  }

  /**
   * Queries on a function object read its `operator()` only: naming the
   * object through `foo&&`, `const foo&` or any other cv/ref changes none.
   */
  lemma ObjectQualifiersIgnored(c: Ty, call: Sig, d: nat, a: ObjectQuals, a': ObjectQuals)
    requires d <= |call.params|
    ensures var t, t' := FunctionObject(c, call, d, a), FunctionObject(c, call, d, a');
      && ResultOf(t) == ResultOf(t') && Args(t) == Args(t')
      && Arity(t) == Arity(t') && MinArity(t) == MinArity(t') && MaxArity(t) == MaxArity(t')
      && HasVoidReturn(t) == HasVoidReturn(t') && HasVarargs(t) == HasVarargs(t')
      && IsConstQualified(t) == IsConstQualified(t') && IsVolatileQualified(t) == IsVolatileQualified(t')
      && IsLvalueQualified(t) == IsLvalueQualified(t') && IsRvalueQualified(t) == IsRvalueQualified(t')
      && IsReferenceQualified(t) == IsReferenceQualified(t')
  {
  }

  /** Pointers and references to functions never report member qualifiers, and the pointer's own const is not one. */
  lemma PointersCarryNoMemberQualifiers(t: Type)
    requires WellFormed(t) && (t.FunctionPointer? || t.FunctionReference?)
    ensures !IsConstQualified(t) && !IsVolatileQualified(t) && !IsReferenceQualified(t)
  {
  }
}
