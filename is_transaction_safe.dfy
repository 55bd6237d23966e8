/**
 * `is_transaction_safe<T>` and `is_transaction_safe_v<T>`: both read the same
 * trait of the signature extractor, so they are one predicate here. It has no
 * constraints: it is defined on every type and is false on non-callables.
 */
module TransactionSafe {
  import opened CallableTypes
  import opened SampleTypes

  /**
   * True exactly when `T` is a function type, function pointer, function
   * reference or member function pointer whose function is
   * `transaction_safe`, or a function object whose `operator()` is. As a
   * corollary it is false on every non-callable.
   */
  function IsTransactionSafe(t: Type): (b: bool)
    ensures b <==> ((HasSig(t) && t.sig.quals.transactionSafe)
                    || (t.FunctionObject? && t.call.quals.transactionSafe))
    ensures !IsCallable(t) ==> !b
  {
    match SignatureOf(t)
    case Some(s) => s.quals.transactionSafe
    case None => false
  }

  /** A function object with a `transaction_safe` `operator()` is transaction-safe; one without is not. */
  lemma FunctionObjectFollowsCallOperator(c: Ty, call: Sig, d: nat, a: ObjectQuals)
    ensures IsTransactionSafe(FunctionObject(c, call, d, a)) <==> call.quals.transactionSafe
  {
  }

  /** The qualifiers of the object type through which a function object is named do not matter. */
  lemma IgnoresObjectQualifiers(c: Ty, call: Sig, d: nat, a: ObjectQuals, a': ObjectQuals)
    ensures IsTransactionSafe(FunctionObject(c, call, d, a)) == IsTransactionSafe(FunctionObject(c, call, d, a'))
  {
  }

  /** Neither cv nor ref qualifiers make a signature transaction-safe. */
  lemma CvRefDoNotImply(s: Sig)
    requires !s.quals.transactionSafe
    ensures !IsTransactionSafe(Function(s))
    ensures forall o: Ty, p: bool :: !IsTransactionSafe(MemberFunctionPointer(o, s, p))
  {
  }

  // The rows of the header's input/output table, with `foo` as owner class.

  const Safe: Quals := NoQuals.(transactionSafe := true)

  /** `int() const transaction_safe`, `int(*)() transaction_safe`, `int(&)() transaction_safe`, `int(foo::*)() transaction_safe`. */
  lemma TableTrue()
    ensures IsTransactionSafe(Function(IntSig(Safe.(isConst := true))))
    ensures IsTransactionSafe(FunctionPointer(IntSig(Safe), false))
    ensures IsTransactionSafe(FunctionReference(IntSig(Safe)))
    ensures IsTransactionSafe(MemberFunctionPointer(FooClass, IntSig(Safe), false))
  {
  }

  /** `int() const`, `int() volatile`, `int(foo::*)() const`, `int() &`, `int(*)()`. */
  lemma TableFalseCallables()
    ensures !IsTransactionSafe(Function(IntSig(NoQuals.(isConst := true))))
    ensures !IsTransactionSafe(Function(IntSig(NoQuals.(isVolatile := true))))
    ensures !IsTransactionSafe(MemberFunctionPointer(FooClass, IntSig(NoQuals.(isConst := true)), false))
    ensures !IsTransactionSafe(Function(IntSig(NoQuals.(ref := LRef))))
    ensures !IsTransactionSafe(FunctionPointer(IntSig(NoQuals), false))
  {
  }

  /** `int`, `int foo::*` and `const int foo::*`. */
  lemma TableFalseNonCallables()
    ensures !IsTransactionSafe(Other(Int))
    ensures !IsTransactionSafe(DataMemberPointer(FooClass, Other(Int), false))
    ensures !IsTransactionSafe(DataMemberPointer(FooClass, Other(Named("const int")), false))
  {
  }

  /** Data member pointers are never transaction-safe, whatever their member type. */
  lemma DataMemberPointersAreNot(o: Ty, m: Type, p: bool)
    ensures !IsTransactionSafe(DataMemberPointer(o, m, p))
  {
  }
}
