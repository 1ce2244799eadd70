/**
  The demonstration program: snippet::max_size_r / max_size_of, a
  compile-time fold that picks the largest of a list of object sizes, and its
  use to size local_derived<Base, S> for a base class and two derived classes.
*/
module Snippet {
  import opened Wrappers
  import opened Classes
  import opened LocalDerivedInternal
  import opened LocalDerivedContainer

  /**
    max_size_r<running, T, Args...>: continues with the larger of `running`
    and sizeof(T); max_size_r<running> is `running`. The result bounds
    `running` and every listed size, and is one of them.
  */
  function MaxSizeR(running: nat, sizes: seq<nat>): (r: nat)
    ensures r >= running
    ensures forall k :: 0 <= k < |sizes| ==> sizes[k] <= r
    ensures r == running || r in sizes
    decreases |sizes|
  {
    if sizes == [] then running
    else MaxSizeR(if running > sizes[0] then running else sizes[0], sizes[1..])
  }

  /** max_size_of<Args...>: the fold started at 0; the largest listed size, 0 for none. */
  function MaxSizeOf(sizes: seq<nat>): (r: nat)
    ensures forall k :: 0 <= k < |sizes| ==> sizes[k] <= r
    ensures sizes != [] ==> r in sizes
    ensures sizes == [] ==> r == 0
  {
    MaxSizeR(0, sizes)
  }

  /** The classes of the demonstration: Base, and Derived1 and Derived2 deriving from it. */
  const ExampleBase: ClassId := 0
  const ExampleDerived1: ClassId := 1
  const ExampleDerived2: ClassId := 2

  /** The demonstration's lattice; sizes and base offsets are ABI parameters. */
  function ExampleLattice(sizeBase: nat, size1: nat, size2: nat, offset1: nat, offset2: nat): Lattice {
    [ClassInfo(sizeBase, []),
     ClassInfo(size1, [Edge(ExampleBase, offset1)]),
     ClassInfo(size2, [Edge(ExampleBase, offset2)])]
  }

  predicate ExampleAbi(sizeBase: nat, size1: nat, size2: nat, offset1: nat, offset2: nat) {
    0 < sizeBase && offset1 + sizeBase <= size1 && offset2 + sizeBase <= size2
  }

  /**
    S = max_size_of<Base, Derived1, Derived2> admits the three classes, and
    the capacity sizeof(Base) of a smaller container does not exceed it.
  */
  lemma ExampleCapacity(sizeBase: nat, size1: nat, size2: nat, offset1: nat, offset2: nat)
    requires ExampleAbi(sizeBase, size1, size2, offset1, offset2)
    ensures var L := ExampleLattice(sizeBase, size1, size2, offset1, offset2);
      && WellFormed(L) && UniqueBase(L, ExampleBase)
      && var S := MaxSizeOf([sizeBase, size1, size2]);
      && IsBaseOf(L, ExampleBase, ExampleBase) && sizeBase <= S
      && IsBaseOf(L, ExampleBase, ExampleDerived1) && size1 <= S
      && IsBaseOf(L, ExampleBase, ExampleDerived2) && size2 <= S
  {
    var L := ExampleLattice(sizeBase, size1, size2, offset1, offset2);
    var S := MaxSizeOf([sizeBase, size1, size2]);
    assert WellFormed(L);
    assert forall d :: 0 <= d < |L| ==> |L[d].bases| <= 1;
    assert Resolve(L, ExampleBase, ExampleDerived1) == Some(offset1);
    assert Resolve(L, ExampleBase, ExampleDerived2) == Some(offset2);
    assert [sizeBase, size1, size2][0] <= S && [sizeBase, size1, size2][1] <= S && [sizeBase, size1, size2][2] <= S;
  }

  /**
    main() up to the printing: containers of capacity S built by copy and by
    move from values, one converted from a local_derived<Base, sizeof(Base)>,
    and one moved from an emplaced container. The vector that holds them in
    main is not modelled; `converted` and `moved` are the last two elements.
  */
  method ExampleMain(sizeBase: nat, size1: nat, size2: nat, offset1: nat, offset2: nat)
    returns (converted: LocalDerived, moved: LocalDerived)
    requires ExampleAbi(sizeBase, size1, size2, offset1, offset2)
    requires MaxSizeOf([sizeBase, size1, size2]) <= 255
    ensures converted.Valid() && converted.size == MaxSizeOf([sizeBase, size1, size2])
    ensures converted.data == Some(Obj(ExampleBase, StrTag("the other one"), false))
    ensures moved.Valid() && moved.SameInstantiation(converted)
    ensures moved.data == Some(Obj(ExampleDerived2, PairTag(StrTag("theta"), FloatTag("19.1")), false))
  {
    var L := ExampleLattice(sizeBase, size1, size2, offset1, offset2);
    ExampleCapacity(sizeBase, size1, size2, offset1, offset2);
    var S := MaxSizeOf([sizeBase, size1, size2]);

    var b1 := Obj(ExampleBase, StrTag("the original"), false);
    var d1 := Obj(ExampleDerived1, PairTag(StrTag("derived class one"), IntTag(1)), false);
    var d2 := Obj(ExampleDerived2, PairTag(StrTag("epsilon"), FloatTag("2.1e-05")), false);
    var x0 := new LocalDerived.FromValue(L, ExampleBase, S, 255, b1);
    var x1 := new LocalDerived.FromValue(L, ExampleBase, S, 255, d1);
    var x2 := new LocalDerived.FromMovedValue(L, ExampleBase, S, 255, d2);

    var b2 := Obj(ExampleBase, StrTag("the other one"), false);
    var smaller := new LocalDerived.FromValue(L, ExampleBase, sizeBase, 255, b2);
    converted := new LocalDerived.ConvertFrom(L, ExampleBase, S, 255, smaller);

    var emplaced := new LocalDerived.Emplace(L, ExampleBase, S, 255, ExampleDerived2,
                                             PairTag(StrTag("theta"), FloatTag("19.1")));
    moved := new LocalDerived.MoveFrom(emplaced);
  }
}
