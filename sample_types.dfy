/** Type tokens that the documentation tables and the example programs share. */
module SampleTypes {
  import opened CallableTypes

  const Int: Ty := Named("int")

  /** The class `foo` used as an owner (and, in the introductory program, as a function object). */
  const FooClass: Ty := Named("foo")

  /** `int()` with the qualifiers `q`. */
  function IntSig(q: Quals): Sig { Sig(Int, [], false, q) }
}
