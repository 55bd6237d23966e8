/**
 * The structural transformations: `remove_function_const`,
 * `remove_member_pointer` with its inverse `add_member_pointer`,
 * `function_type`, and `remove_at`. Each maps a type to a new type or to a
 * substitution failure; none produces a partial result.
 */
module Transformations {
  import opened CallableTypes
  import opened QualifierAlgebra
  import opened MemberQualifiers
  import opened Queries
  import opened TransactionSafe

  /**
   * `remove_function_const<T>`: clears the member qualifier `const` of a
   * function type (abominable or not) or member function pointer, keeping
   * every other qualifier; fails on the same types as every other
   * member-qualifier transformation.
   */
  function RemoveFunctionConst(t: Type): (r: Result<Type>)
    ensures r.Ok? <==> AcceptsMemberQualifiers(t)
    ensures r.Fail? ==> r.reason == MemberQualifiersAreIllegalForThisType
    ensures r.Ok? ==> SameExceptQuals(t, r.value) && !r.value.sig.quals.isConst
    ensures r.Ok? ==> r.value.sig.quals.isVolatile == t.sig.quals.isVolatile
    ensures r.Ok? ==> r.value.sig.quals.ref == t.sig.quals.ref
    ensures r.Ok? ==> r.value.sig.quals.transactionSafe == t.sig.quals.transactionSafe
  {
    if AcceptsMemberQualifiers(t) then WithMemberQuals(t, RemoveConst(t.sig.quals))
    else Fail(MemberQualifiersAreIllegalForThisType)
  }

  /** Removing an absent `const` is a no-op, not a failure. */
  lemma RemoveFunctionConstNoOp(t: Type)
    requires AcceptsMemberQualifiers(t) && !t.sig.quals.isConst
    ensures RemoveFunctionConst(t) == Ok(t)
  {
  }

  /** Applying `remove_function_const` to its own result changes nothing. */
  lemma RemoveFunctionConstIdempotent(t: Type)
    requires RemoveFunctionConst(t).Ok?
    ensures RemoveFunctionConst(RemoveFunctionConst(t).value) == RemoveFunctionConst(t)
  {
  }

  /**
   * `remove_member_pointer<T>`: a member function pointer becomes the
   * function type it points to, keeping its qualifiers (so a cv- or
   * ref-qualified one becomes an abominable function type); a data member
   * pointer becomes its member type. Anything else fails.
   */
  function RemoveMemberPointer(t: Type): (r: Result<Type>)
    ensures r.Ok? <==> t.MemberFunctionPointer? || t.DataMemberPointer?
    ensures t.MemberFunctionPointer? ==> r.Ok? && r.value.Function? && r.value.sig == t.sig
    ensures t.MemberFunctionPointer? ==> (IsAbominable(r.value) <==> !NoMemberQuals(t.sig.quals))
    ensures t.DataMemberPointer? ==> r == Ok(t.member)
    ensures r.Fail? ==> r.reason == TypeIsNotAMemberPointer
  {
    match t
    case MemberFunctionPointer(_, s, _) => Ok(Function(s))
    case DataMemberPointer(_, m, _) => Ok(m)
    case _ => Fail(TypeIsNotAMemberPointer)
  }

  /**
   * `add_member_pointer<T, C>`: a function type (qualified or not) becomes a
   * member function pointer of `C`; an object type becomes a data member
   * pointer of `C`. `void`, function references and function objects named
   * through `&` or `&&` cannot be members and fail; opaque tokens are taken
   * to name object types and are accepted.
   */
  function AddMemberPointer(t: Type, c: Ty): (r: Result<Type>)
    ensures r.Ok? <==> t.Function? || CanBeMemberType(t)
    ensures t.Function? ==> r == Ok(MemberFunctionPointer(c, t.sig, false))
    ensures r.Ok? && !t.Function? ==> r.value == DataMemberPointer(c, t, false)
    ensures r.Fail? ==> r.reason == CannotFormMemberPointerToThisType
  {
    match t
    case Function(s) => Ok(MemberFunctionPointer(c, s, false))
    case _ =>
      if CanBeMemberType(t) then Ok(DataMemberPointer(c, t, false))
      else Fail(CannotFormMemberPointerToThisType)
  }

  /** Re-supplying the owner class after `remove_member_pointer` restores a (non-const) member pointer exactly. */
  lemma RemoveThenAddMemberPointer(t: Type)
    requires (t.MemberFunctionPointer? || t.DataMemberPointer?) && !t.pointerConst && WellFormed(t)
    ensures AddMemberPointer(RemoveMemberPointer(t).value, t.owner) == Ok(t)
  {
  }

  /** `remove_member_pointer` undoes `add_member_pointer`, and the pointer it forms is well formed. */
  lemma AddThenRemoveMemberPointer(t: Type, c: Ty)
    requires AddMemberPointer(t, c).Ok?
    ensures RemoveMemberPointer(AddMemberPointer(t, c).value) == Ok(t)
    ensures WellFormed(t) ==> WellFormed(AddMemberPointer(t, c).value)
  {
  }

  /**
   * `remove_member_pointer` changes no query about the function (return,
   * parameters, qualifiers) in this model, which reads a member function
   * pointer's declared parameters.
   */
  lemma RemoveMemberPointerKeepsSignature(t: Type)
    requires t.MemberFunctionPointer?
    ensures var f := RemoveMemberPointer(t).value;
      && ResultOf(f) == ResultOf(t) && Args(f) == Args(t) && HasVarargs(f) == HasVarargs(t)
      && IsConstQualified(f) == IsConstQualified(t) && IsVolatileQualified(f) == IsVolatileQualified(t)
      && IsLvalueQualified(f) == IsLvalueQualified(t) && IsRvalueQualified(f) == IsRvalueQualified(t)
      && IsTransactionSafe(f) == IsTransactionSafe(t)
  {
  }

  /** The member qualifiers of the signature dropped: const, volatile and ref. */
  function Unqualified(q: Quals): (r: Quals)
    ensures NoMemberQuals(r) && r.transactionSafe == q.transactionSafe
  {
    q.(isConst := false, isVolatile := false, ref := NoRef)
  }

  /**
   * `function_type<T>`: the plain function type with the callable's return
   * type, parameters and varargs, with no member qualifiers: a function
   * object gives its `operator()` without the `const`, a member function
   * pointer loses its owner class. Non-callables fail.
   */
  function FunctionType(t: Type): (r: Result<Type>)
    ensures r.Ok? <==> IsCallable(t)
    ensures r.Ok? ==> r.value.Function? && !IsAbominable(r.value)
    ensures r.Ok? ==> ResultOf(r.value) == ResultOf(t) && Args(r.value) == Args(t)
    ensures r.Ok? ==> HasVarargs(r.value) == HasVarargs(t)
    ensures r.Ok? ==> IsTransactionSafe(r.value) == IsTransactionSafe(t)
    ensures r.Fail? ==> r.reason == CannotDetermineParametersForThisType
  {
    match SignatureOf(t)
    case Some(s) => Ok(Function(s.(quals := Unqualified(s.quals))))
    case None => Fail(CannotDetermineParametersForThisType)
  }

  /** `function_type` of a plain function type is that type, so `function_type` is idempotent. */
  lemma FunctionTypeIdempotent(t: Type)
    requires FunctionType(t).Ok?
    ensures FunctionType(FunctionType(t).value) == FunctionType(t)
    ensures t.Function? && !IsAbominable(t) ==> FunctionType(t) == Ok(t)
  {
  }

  /** The parameter list `s` without its element at index `i`, removed one element at a time. */
  function RemoveIndex(s: seq<Ty>, i: nat): (r: seq<Ty>)
    requires i < |s|
    ensures |r| == |s| - 1
    ensures forall j :: 0 <= j < i ==> r[j] == s[j]
    ensures forall j :: i <= j < |r| ==> r[j] == s[j + 1]
    decreases i
  {
    if i == 0 then s[1..] else [s[0]] + RemoveIndex(s[1..], i - 1)
  }

  /** Removing index `i` keeps the parameters before and after it, in order. */
  lemma {:induction false} RemoveIndexSplices(s: seq<Ty>, i: nat)
    requires i < |s|
    ensures RemoveIndex(s, i) == s[..i] + s[i + 1..]
  {
  }

  /** Exactly the parameter at `i` goes: the others are kept with their multiplicities. */
  lemma {:induction false} RemoveIndexMultiset(s: seq<Ty>, i: nat)
    requires i < |s|
    ensures multiset(RemoveIndex(s, i)) + multiset{s[i]} == multiset(s)
  {
    var pre, post := s[..i], s[i + 1..];
    RemoveIndexSplices(s, i);
    assert s == pre + ([s[i]] + post);
    assert multiset(s) == multiset(pre) + (multiset([s[i]]) + multiset(post));
    assert multiset(RemoveIndex(s, i)) == multiset(pre) + multiset(post);
  }

  /**
   * `remove_at<I, T>`: removes the parameter at index `i` from a function
   * type, function pointer, function reference or member function pointer.
   * The shape, owner class, pointer constness, return type, varargs and
   * qualifiers stay as they were. An index past the parameter list fails,
   * and so does a type without a parameter list that can be rewritten.
   */
  function RemoveAt(i: nat, t: Type): (r: Result<Type>)
    ensures r.Ok? <==> HasSig(t) && i < |t.sig.params|
    ensures r.Ok? ==> HasSig(r.value) && r.value.(sig := t.sig) == t
    ensures r.Ok? ==> r.value.sig.ret == t.sig.ret && r.value.sig.quals == t.sig.quals
    ensures r.Ok? ==> r.value.sig.varargs == t.sig.varargs
    ensures r.Ok? ==> |r.value.sig.params| == |t.sig.params| - 1
    ensures r.Ok? ==> forall j :: 0 <= j < |r.value.sig.params| ==>
      r.value.sig.params[j] == t.sig.params[if j < i then j else j + 1]
    ensures HasSig(t) && i >= |t.sig.params| ==> r == Fail(IndexOutOfRangeForParameterList)
    ensures t.FunctionObject? ==> r == Fail(ParameterListIsNotEditableForThisType)
    ensures !IsCallable(t) ==> r == Fail(CannotDetermineParametersForThisType)
  {
    if HasSig(t) then
      if i < |t.sig.params| then Ok(t.(sig := t.sig.(params := RemoveIndex(t.sig.params, i))))
      else Fail(IndexOutOfRangeForParameterList)
    else if t.FunctionObject? then Fail(ParameterListIsNotEditableForThisType)
    else Fail(CannotDetermineParametersForThisType)
  }

  /** After `remove_at<I, T>` the arity is one less and `arg_at<J>` is the old `arg_at` skipping `I`. */
  lemma RemoveAtQueries(i: nat, t: Type, j: nat)
    requires RemoveAt(i, t).Ok?
    ensures Arity(RemoveAt(i, t).value).value + 1 == Arity(t).value
    ensures ResultOf(RemoveAt(i, t).value) == ResultOf(t)
    ensures j < Arity(RemoveAt(i, t).value).value ==>
      ArgAt(j, RemoveAt(i, t).value) == ArgAt(if j < i then j else j + 1, t)
  {
  }

  /** The result of `remove_at` holds the input's parameters with exactly the one at `i` taken out. */
  lemma RemoveAtRemovesExactlyOne(i: nat, t: Type)
    requires RemoveAt(i, t).Ok?
    ensures multiset(RemoveAt(i, t).value.sig.params) + multiset{t.sig.params[i]} == multiset(t.sig.params)
  {
    RemoveIndexMultiset(t.sig.params, i);
  }

  /** Replacing the member qualifiers by any set `q`, or removing `const`, never changes `result_of`. */
  lemma QualifiersDoNotAffectResult(t: Type, q: Quals)
    requires AcceptsMemberQualifiers(t)
    ensures ResultOf(RemoveFunctionConst(t).value) == ResultOf(t)
    ensures ResultOf(WithMemberQuals(t, q).value) == ResultOf(t)
  {
  }
}
