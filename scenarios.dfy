/**
  Scenarios of the test suite on the test hierarchy: containers of
  `local_derived<base, S>` filled from containers of a narrower base, by
  construction and by assignment, and reordered by swap. Each states what
  the virtual call through the container reaches afterwards.
*/
module Scenarios {
  import opened Wrappers
  import opened Classes
  import opened LocalDerivedInternal
  import opened LocalDerivedContainer
  import opened SimpleHierarchy

  /**
    A derived11 emplaced into local_derived<derived1, sizeof(derived11)> and
    moved into local_derived<base, S>: the offsets of the two edges add up,
    and the call still reaches the derived11 with its tag.
  */
  method ConvertDepthTwo(abi: Abi, S: nat, t: Tag) returns (d11: LocalDerived)
    requires ValidAbi(abi) && Hierarchy(abi)[Derived11].size <= S <= 255
    ensures d11.Valid() && d11.base == Base && d11.size == S
    ensures d11.offset == 2 * abi.padding
    ensures d11.Dispatch() == Some(Obj(Derived11, t, false))
  {
    var L := Hierarchy(abi);
    HierarchyWellFormed(abi);
    HierarchyUniqueBase(abi, Base);
    HierarchyUniqueBase(abi, Derived1);
    DerivedLayout(abi, Derived11);
    AliasChains(abi);
    var f := new LocalDerived.Emplace(L, Derived1, L[Derived11].size, 255, Derived11, t);
    d11 := new LocalDerived.ConvertFrom(L, Base, S, 255, f);
  }

  /**
    A local_derived<base, S> holding a derived21 is assigned from a
    local_derived<derived1, sizeof(derived11)> holding a derived11: the
    container now reaches the derived11, at the composed offset.
  */
  method ConvertAssignDepthTwo(abi: Abi, S: nat, t21: Tag, t11: Tag) returns (d: LocalDerived)
    requires ValidAbi(abi) && Hierarchy(abi)[Derived11].size <= S <= 255
    requires Hierarchy(abi)[Derived21].size <= S
    ensures d.Valid() && d.base == Base && d.size == S
    ensures d.offset == 2 * abi.padding
    ensures d.Dispatch() == Some(Obj(Derived11, t11, false))
  {
    var L := Hierarchy(abi);
    HierarchyWellFormed(abi);
    HierarchyUniqueBase(abi, Base);
    HierarchyUniqueBase(abi, Derived1);
    DerivedLayout(abi, Derived11);
    AliasChains(abi);
    d := new LocalDerived.Emplace(L, Base, S, 255, Derived21, t21);
    var f := new LocalDerived.Emplace(L, Derived1, L[Derived11].size, 255, Derived11, t11);
    var r := d.ConvertAssign(f);
  }

  /**
    b holds a derived22 and d22 a base; swapping them puts each object where
    its container's name says, and destroys nothing.
  */
  method SwapFixesOrder(abi: Abi, S: nat, tBase: Tag, t22: Tag) returns (b: LocalDerived, d22: LocalDerived)
    requires ValidAbi(abi) && Hierarchy(abi)[Derived22].size <= S <= 255
    ensures b.Valid() && d22.Valid()
    ensures b.Dispatch() == Some(Obj(Base, tBase, false)) && b.offset == 0
    ensures d22.Dispatch() == Some(Obj(Derived22, t22, false)) && d22.offset == 2 * abi.padding
    ensures b.destroyed == [] && d22.destroyed == []
  {
    var L := Hierarchy(abi);
    HierarchyWellFormed(abi);
    HierarchyUniqueBase(abi, Base);
    AliasChains(abi);
    b := new LocalDerived.Emplace(L, Base, S, 255, Derived22, t22);
    d22 := new LocalDerived.Emplace(L, Base, S, 255, Base, tBase);
    ghost var _ := b.Swap(d22);
  }

  /** Swapping a container holding a derived12 with itself changes nothing. */
  method SelfSwap(abi: Abi, S: nat, t12: Tag) returns (d12: LocalDerived)
    requires ValidAbi(abi) && Hierarchy(abi)[Derived12].size <= S <= 255
    ensures d12.Valid() && d12.destroyed == []
    ensures d12.Dispatch() == Some(Obj(Derived12, t12, false)) && d12.offset == 2 * abi.padding
  {
    var L := Hierarchy(abi);
    HierarchyWellFormed(abi);
    HierarchyUniqueBase(abi, Base);
    AliasChains(abi);
    d12 := new LocalDerived.Emplace(L, Base, S, 255, Derived12, t12);
    ghost var _ := d12.Swap(d12);
  }
}
