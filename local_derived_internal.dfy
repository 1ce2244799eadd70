/**
  The helpers of namespace local_derived_internal: the offset of a base
  subobject, the offset composition used when a container changes its
  declared base, the type-erased relocation, and the narrowing cast to the
  container's `Offset` integer.
*/
module LocalDerivedInternal {
  import opened Wrappers
  import opened Classes

  /**
    get_offset_of_base_within_derived<Base, Derived>(): the constant byte
    displacement of the `B` subobject within a `D` object. It is 0 for the
    class itself and the subobject fits inside the object.
  */
  function GetOffsetOfBaseWithinDerived(L: Lattice, B: ClassId, D: ClassId): (r: nat)
    requires WellFormed(L) && IsBaseOf(L, B, D)
    ensures B <= D
    ensures B == D ==> r == 0
    ensures r + L[B].size <= L[D].size
  {
    ResolveWithin(L, B, D);
    Resolve(L, B, D).value
  }

  /**
    add_offsets<Base, U>(other_offset): given the offset of the `U` subobject
    within some object, the offset of that object's `Base` subobject, which
    lies within the `U` subobject.
  */
  function AddOffsets(L: Lattice, B: ClassId, U: ClassId, otherOffset: nat): (r: nat)
    requires WellFormed(L) && IsBaseOf(L, B, U)
    ensures B <= U && otherOffset <= r
    ensures B == U ==> r == otherOffset
    ensures r + L[B].size <= otherOffset + L[U].size
  {
    GetOffsetOfBaseWithinDerived(L, B, U) + otherOffset
  }

  /**
    What add_offsets promises: when `otherOffset` is the offset of the `U`
    subobject in a `Y`, the result is get_offset_of_base_within_derived<Base, Y>().
  */
  lemma AddOffsetsIsOffsetInDerived(L: Lattice, B: ClassId, U: ClassId, Y: ClassId, otherOffset: nat)
    requires UniqueBase(L, B) && IsBaseOf(L, B, U) && IsBaseOf(L, U, Y)
    requires otherOffset == GetOffsetOfBaseWithinDerived(L, U, Y)
    ensures IsBaseOf(L, B, Y)
    ensures AddOffsets(L, B, U, otherOffset) == GetOffsetOfBaseWithinDerived(L, B, Y)
  {
    ResolveCompose(L, B, U, Y);
  }

  /**
    static_cast<Offset>(x) for an unsigned `Offset` whose largest value is
    `offsetMax`: reduction modulo `offsetMax + 1`. It is lossless exactly when `x` fits.
  */
  function CastToOffset(x: nat, offsetMax: nat): (r: nat)
    ensures r <= offsetMax
    ensures r == x <==> x <= offsetMax
  {
    x % (offsetMax + 1)
  }

  /** What a relocation leaves: the object built at the destination, and what stays at the source. */
  datatype Relocation = Relocation(target: Obj, source: Obj)

  /**
    move_wrapper<U>::move(in, out): `new (out) U(std::move(*in))`. The new
    object is a `U` with the source's value; the source is not destroyed but
    left alive in its moved-from state. Bound to the object's own class, the
    relocation reproduces the object exactly.
  */
  function MoveWrapperMove(u: ClassId, src: Obj): (r: Relocation)
    ensures r.target.cls == u && r.target.tag == src.tag
    ensures u == src.cls ==> r.target == src
    ensures r.source.cls == src.cls && r.source.movedFrom
  {
    Relocation(Obj(u, src.tag, src.movedFrom), src.(movedFrom := true))
  }
}
