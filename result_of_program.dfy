/** The `result_of` example: every callable shape returning `int` has `int` as its result. */
module ResultOfProgram {
  import opened CallableTypes
  import opened SampleTypes
  import opened Queries

  /** The closure type of `[]() -> int { return 0; }`: its `operator()` is `int() const`. */
  const Lambda: Type := FunctionObject(Named("lambda"), IntSig(NoQuals.(isConst := true)), 0, ObjectQuals(false, false, NoRef))

  /**
   * `int()`, `int(*)()`, `int(&)()`, `int() const`, `int(foo::*)() const` with
   * `foo` only declared, and the lambda all have the result `int`.
   */
  lemma ResultIsInt()
    ensures ResultOf(Function(IntSig(NoQuals))) == Ok(Int)
    ensures ResultOf(FunctionPointer(IntSig(NoQuals), false)) == Ok(Int)
    ensures ResultOf(FunctionReference(IntSig(NoQuals))) == Ok(Int)
    ensures ResultOf(Function(IntSig(NoQuals.(isConst := true)))) == Ok(Int)
    ensures ResultOf(MemberFunctionPointer(FooClass, IntSig(NoQuals.(isConst := true)), false)) == Ok(Int)
    ensures ResultOf(Lambda) == Ok(Int)
  {
  }

  /**
   * The result depends only on the signature's return type: not on the shape
   * wrapping it, the owner class, the pointer's constness or the qualifiers.
   */
  lemma ResultOfEveryShape(s: Sig, q: Quals, o: Ty, p: bool, c: Ty, d: nat, a: ObjectQuals)
    ensures ResultOf(Function(s)) == Ok(s.ret)
    ensures ResultOf(Function(s.(quals := q))) == Ok(s.ret)
    ensures ResultOf(FunctionPointer(s, p)) == Ok(s.ret)
    ensures ResultOf(FunctionReference(s)) == Ok(s.ret)
    ensures ResultOf(MemberFunctionPointer(o, s.(quals := q), p)) == Ok(s.ret)
    ensures ResultOf(FunctionObject(c, s.(quals := q), d, a)) == Ok(s.ret)
  {
  }
}
