/**
 * The qualifier algebra, free of any shape-specific logic: C++11 reference
 * collapsing on member reference qualifiers, and the two qualifier edits the
 * modelled transformations apply.
 */
module QualifierAlgebra {
  import opened CallableTypes

  /**
   * Reference collapsing: combining two reference qualifiers gives `&` as
   * soon as either is `&`, `&&` when both are present and neither is `&`,
   * and nothing when neither is present.
   */
  function Collapse(existing: RefQual, added: RefQual): (r: RefQual)
    ensures r == LRef <==> existing == LRef || added == LRef
    ensures r == NoRef <==> existing == NoRef && added == NoRef
    ensures r == RRef <==> (existing == RRef || added == RRef) && existing != LRef && added != LRef
  {
    match (existing, added)
    case (NoRef, a) => a
    case (LRef, _) => LRef
    case (RRef, NoRef) => RRef
    case (RRef, a) => a
  }

  /** Adds the member qualifier `&&`: ref becomes `&&` unless it is `&`; nothing else changes. */
  function AddRvalue(q: Quals): (r: Quals)
    ensures r.ref == (if q.ref == LRef then LRef else RRef)
    ensures r.isConst == q.isConst && r.isVolatile == q.isVolatile
    ensures r.transactionSafe == q.transactionSafe
  {
    q.(ref := Collapse(q.ref, RRef))
  }

  /** Removes the member qualifier `const`; nothing else changes. */
  function RemoveConst(q: Quals): (r: Quals)
    ensures !r.isConst
    ensures r.isVolatile == q.isVolatile && r.ref == q.ref
    ensures r.transactionSafe == q.transactionSafe
  {
    q.(isConst := false)
  }

  /** Collapsing is commutative. */
  lemma CollapseCommutes(a: RefQual, b: RefQual)
    ensures Collapse(a, b) == Collapse(b, a)
  {
  }

  /** Collapsing is associative, so a chain of added references collapses the same way in any grouping. */
  lemma CollapseAssociates(a: RefQual, b: RefQual, c: RefQual)
    ensures Collapse(Collapse(a, b), c) == Collapse(a, Collapse(b, c))
  {
  }

  /** Adding the same reference qualifier twice is the same as adding it once. */
  lemma CollapseIdempotent(a: RefQual, b: RefQual)
    ensures Collapse(Collapse(a, b), b) == Collapse(a, b)
  {
  }

  /** Adding `&&` is idempotent and never turns `&` into anything else. */
  lemma AddRvalueIdempotent(q: Quals)
    ensures AddRvalue(AddRvalue(q)) == AddRvalue(q)
    ensures q.ref == LRef ==> AddRvalue(q) == q
    ensures q.ref == RRef ==> AddRvalue(q) == q
  {
  }

  /** Removing `const` is idempotent and a no-op on a signature without `const`. */
  lemma RemoveConstIdempotent(q: Quals)
    ensures RemoveConst(RemoveConst(q)) == RemoveConst(q)
    ensures !q.isConst ==> RemoveConst(q) == q
  {
  }

  /** The two qualifier edits touch different fields, so their order does not matter. */
  lemma AddRvalueRemoveConstCommute(q: Quals)
    ensures AddRvalue(RemoveConst(q)) == RemoveConst(AddRvalue(q))
  {
  }
}
