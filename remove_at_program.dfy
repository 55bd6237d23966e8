/** The `remove_at` example: removing index 2 from a four-parameter member function pointer. */
module RemoveAtProgram {
  import opened CallableTypes
  import opened SampleTypes
  import opened Queries
  import opened Transformations

  /** The distinct empty class types `N<0>` .. `N<3>`. */
  const N0: Ty := Named("N<0>")
  const N1: Ty := Named("N<1>")
  const N2: Ty := Named("N<2>")
  const N3: Ty := Named("N<3>")

  /** `int(foo::*)(N<0>, N<1>, N<2>, N<3>)`. */
  const F: Type := MemberFunctionPointer(FooClass, Sig(Int, [N0, N1, N2, N3], false, NoQuals), false)

  /** `remove_at<2, f>` is `int(foo::*)(N<0>, N<1>, N<3>)`. */
  lemma RemoveIndexTwo()
    ensures RemoveAt(2, F) == Ok(MemberFunctionPointer(FooClass, Sig(Int, [N0, N1, N3], false, NoQuals), false))
  {
    var ps := [N0, N1, N2, N3];
    RemoveIndexSplices(ps, 2);
    assert ps[..2] + ps[3..] == [N0, N1, N3];
  }

  /** The result is still a member function pointer of `foo` returning `int`, with one parameter fewer. */
  lemma ShapeKept()
    ensures RemoveAt(2, F).Ok? && RemoveAt(2, F).value.MemberFunctionPointer?
    ensures RemoveAt(2, F).value.owner == FooClass && ResultOf(RemoveAt(2, F).value) == Ok(Int)
    ensures Arity(RemoveAt(2, F).value) == Ok(3) && Arity(F) == Ok(4)
  {
  }
}
