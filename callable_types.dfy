/**
 * The shared model of callable types: the closed set of shapes a C++ type can
 * take as far as the library's type-level functions are concerned, the member
 * qualifiers a function signature carries, and the one signature extractor
 * ("traits of T") that every query and transformation reads.
 *
 * Parameter, return, owner-class and member types are opaque tokens; only
 * `void` is singled out, because `has_void_return` asks about it.
 */
module CallableTypes {

  /** An opaque C++ type token such as `int`, `int&&`, `N<2>` or `foo`. */
  datatype Ty = Void | Named(name: string)

  /** The member reference qualifier of a function signature. */
  datatype RefQual = NoRef | LRef | RRef

  /** The qualifiers a function type can carry after its parameter list. */
  datatype Quals = Quals(isConst: bool, isVolatile: bool, ref: RefQual, transactionSafe: bool)

  /** A function signature: return type, ordered parameters, C-style `...`, qualifiers. */
  datatype Sig = Sig(ret: Ty, params: seq<Ty>, varargs: bool, quals: Quals)

  /** cv/ref qualifiers on a function object type itself, as in `foo&&` or `const foo&`. */
  datatype ObjectQuals = ObjectQuals(isConst: bool, isVolatile: bool, ref: RefQual)

  /**
   * The shapes of a type.
   *  - Function: `R(Ps...) quals`, plain when it has no cv/ref qualifier,
   *    "abominable" otherwise.
   *  - FunctionPointer: `R(*)(Ps...)`, with a const on the pointer itself.
   *  - FunctionReference: `R(&)(Ps...)`.
   *  - MemberFunctionPointer: `R(C::*)(Ps...) quals`, with a const on the pointer.
   *  - FunctionObject: a class with exactly one `operator()`, whose signature
   *    is `call`, whose last `defaults` parameters have default arguments,
   *    and which is named through the cv/ref qualifiers `access`.
   *  - DataMemberPointer: `M C::*`.
   *  - Other: anything that is not callable, such as `int`.
   */
  datatype Type =
    | Function(sig: Sig)
    | FunctionPointer(sig: Sig, pointerConst: bool)
    | FunctionReference(sig: Sig)
    | MemberFunctionPointer(owner: Ty, sig: Sig, pointerConst: bool)
    | FunctionObject(cls: Ty, call: Sig, defaults: nat, access: ObjectQuals)
    | DataMemberPointer(owner: Ty, member: Type, pointerConst: bool)
    | Other(ty: Ty)

  /** Why a type-level function refuses its argument (a substitution failure). */
  datatype Reason =
    | MemberQualifiersAreIllegalForThisType
    | CannotDetermineParametersForThisType
    | CannotDetermineReturnTypeForThisType
    | IndexOutOfRangeForParameterList
    | ParameterListIsNotEditableForThisType
    | TypeIsNotAMemberPointer
    | CannotFormMemberPointerToThisType

  datatype Option<T> = None | Some(value: T)

  /** The outcome of a type-level function: a type (or value), or a substitution failure. */
  datatype Result<T> = Ok(value: T) | Fail(reason: Reason)

  const NoQuals: Quals := Quals(false, false, NoRef, false)

  /** The shapes that carry their own function signature in the field `sig`. */
  predicate HasSig(t: Type) {
    t.Function? || t.FunctionPointer? || t.FunctionReference? || t.MemberFunctionPointer?
  }

  /** Callable shapes: those with a signature, and function objects. */
  predicate IsCallable(t: Type) {
    HasSig(t) || t.FunctionObject?
  }

  /** True when a qualifier set carries no cv and no ref qualifier. */
  predicate NoMemberQuals(q: Quals) {
    !q.isConst && !q.isVolatile && q.ref == NoRef
  }

  /** A function type with a cv or ref qualifier: it can name no object, pointer or reference. */
  predicate IsAbominable(t: Type) {
    t.Function? && !NoMemberQuals(t.sig.quals)
  }

  /**
   * The member types the model accepts for a data member pointer: every
   * shape except a function type, a function reference, `void` and a
   * function object named through `&` or `&&`. An opaque token is taken to
   * name an object type, so a token spelling a reference is not refused.
   */
  predicate CanBeMemberType(m: Type) {
    match m
    case Function(_) => false
    case FunctionReference(_) => false
    case FunctionObject(_, _, _, a) => a.ref == NoRef
    case Other(ty) => ty != Void
    case _ => true
  }

  /**
   * The types C++ can actually form: pointers and references only to
   * unqualified function types, defaulted parameters no more than declared
   * ones, data members only of a type `CanBeMemberType` accepts.
   */
  predicate WellFormed(t: Type) {
    match t
    case FunctionPointer(s, _) => NoMemberQuals(s.quals)
    case FunctionReference(s) => NoMemberQuals(s.quals)
    case FunctionObject(_, call, d, _) => d <= |call.params|
    case DataMemberPointer(_, m, _) => CanBeMemberType(m) && WellFormed(m)
    case _ => true
  }

  /**
   * The signature extractor: the signature of a shape that carries one, and
   * for a function object the signature of its `operator()`, ignoring the
   * qualifiers on the object type itself.
   */
  function SignatureOf(t: Type): (r: Option<Sig>)
    ensures r.Some? <==> IsCallable(t)
    ensures HasSig(t) ==> r == Some(t.sig)
    ensures t.FunctionObject? ==> r == Some(t.call)
  {
    match t
    case Function(s) => Some(s)
    case FunctionPointer(s, _) => Some(s)
    case FunctionReference(s) => Some(s)
    case MemberFunctionPointer(_, s, _) => Some(s)
    case FunctionObject(_, call, _, _) => Some(call)
    case _ => None
  }
}
