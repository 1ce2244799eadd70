/**
  A finite class lattice standing in for the C++ type system: each class has a
  size and a list of direct (non-virtual) bases, each at a byte offset within it.
  Class ids are indices into the lattice, and a direct base always has a smaller
  id than the class deriving from it (a C++ base must be a complete type, so it
  is declared first).
*/
module Classes {
  import opened Wrappers

  type ClassId = nat

  /** A direct base `base` whose subobject starts `offset` bytes into the derived object. */
  datatype Edge = Edge(base: ClassId, offset: nat)

  /** `sizeof` of the class, and its direct bases in declaration order. */
  datatype ClassInfo = ClassInfo(size: nat, bases: seq<Edge>)

  type Lattice = seq<ClassInfo>

  /** The data members of an object the model keeps track of. */
  datatype Tag =
    | IntTag(i: int)
    | StrTag(s: string)
    | FloatTag(shown: string)   // the stream formatting of a float is taken as given
    | PairTag(first: Tag, second: Tag)

  /**
    A complete object of concrete class `cls`. `movedFrom` marks an object whose
    value has been moved out of it: it is still alive and must still be destroyed.
  */
  datatype Obj = Obj(cls: ClassId, tag: Tag, movedFrom: bool)

  /**
    Every class has a positive size (a C++ object occupies at least one byte),
    bases precede the classes deriving from them, and each base subobject lies
    inside the derived object.
  */
  predicate WellFormed(L: Lattice) {
    && (forall d :: 0 <= d < |L| ==> L[d].size > 0)
    && (forall d, i :: 0 <= d < |L| && 0 <= i < |L[d].bases| ==>
          && L[d].bases[i].base < d
          && L[d].bases[i].offset + L[L[d].bases[i].base].size <= L[d].size)
  }

  /**
    The byte offset of a `B` subobject within a `D` object: 0 when `B == D`,
    otherwise the edge offsets summed along the first path from `D` up to `B`;
    None when `B` is not a base of `D`.
  */
  function Resolve(L: Lattice, B: ClassId, D: ClassId): Option<nat>
    requires WellFormed(L) && D < |L|
    decreases D, 1
  {
    if B == D then Some(0) else ResolveVia(L, B, D, L[D].bases)
  }

  /** Resolve through the first of the direct bases `es` of `D` that leads to `B`. */
  function ResolveVia(L: Lattice, B: ClassId, D: ClassId, es: seq<Edge>): Option<nat>
    requires WellFormed(L) && D < |L|
    requires forall k :: 0 <= k < |es| ==> es[k].base < D
    decreases D, 0, |es|
  {
    if es == [] then None
    else match Resolve(L, B, es[0].base)
      case Some(o) => Some(es[0].offset + o)
      case None => ResolveVia(L, B, D, es[1..])
  }

  /** std::is_base_of<B, D> (true for B == D), for a class D of the lattice. */
  predicate IsBaseOf(L: Lattice, B: ClassId, D: ClassId)
    requires WellFormed(L)
  {
    D < |L| && Resolve(L, B, D).Some?
  }

  /**
    No class reaches `B` through two different direct bases, so every `B`
    subobject is unique and a conversion to `B*` is never ambiguous.
  */
  ghost predicate UniqueBase(L: Lattice, B: ClassId) {
    && WellFormed(L)
    && forall d, i, j ::
         0 <= d < |L| && 0 <= i < |L[d].bases| && 0 <= j < |L[d].bases| && i != j ==>
           !(Resolve(L, B, L[d].bases[i].base).Some? && Resolve(L, B, L[d].bases[j].base).Some?)
  }

  /** A successful search names the direct base it went through. */
  lemma {:induction false} ResolveViaFound(L: Lattice, B: ClassId, D: ClassId, es: seq<Edge>) returns (i: nat)
    requires WellFormed(L) && D < |L|
    requires forall k :: 0 <= k < |es| ==> es[k].base < D
    requires ResolveVia(L, B, D, es).Some?
    ensures i < |es| && Resolve(L, B, es[i].base).Some?
    ensures ResolveVia(L, B, D, es).value == es[i].offset + Resolve(L, B, es[i].base).value
    decreases |es|
  {
    if Resolve(L, B, es[0].base).Some? {
      i := 0;
    } else {
      var j := ResolveViaFound(L, B, D, es[1..]);
      i := j + 1;
    }
  }

  /** When exactly one direct base leads to `B`, the search goes through it. */
  lemma {:induction false} ResolveViaUnique(L: Lattice, B: ClassId, D: ClassId, es: seq<Edge>, i: nat)
    requires WellFormed(L) && D < |L|
    requires forall k :: 0 <= k < |es| ==> es[k].base < D
    requires i < |es| && Resolve(L, B, es[i].base).Some?
    requires forall j :: 0 <= j < |es| && j != i ==> Resolve(L, B, es[j].base).None?
    ensures ResolveVia(L, B, D, es) == Some(es[i].offset + Resolve(L, B, es[i].base).value)
    decreases |es|
  {
    if i > 0 {
      var rest := es[1..];
      forall j | 0 <= j < |rest| && j != i - 1
        ensures Resolve(L, B, rest[j].base).None?
      {
        assert rest[j] == es[j + 1];
      }
      ResolveViaUnique(L, B, D, rest, i - 1);
    }
  }

  /**
    A base is never declared after the class deriving from it, and a base
    subobject lies within the derived object.
  */
  lemma {:induction false} ResolveWithin(L: Lattice, B: ClassId, D: ClassId)
    requires WellFormed(L) && D < |L| && Resolve(L, B, D).Some?
    ensures B <= D
    ensures Resolve(L, B, D).value + L[B].size <= L[D].size
    decreases D
  {
    if B != D {
      var i := ResolveViaFound(L, B, D, L[D].bases);
      ResolveWithin(L, B, L[D].bases[i].base);
    }
  }

  /**
    The composition law: the `B` subobject of a `Y` is the `B` subobject of its
    `U` subobject, so the offsets add up.
  */
  lemma {:induction false} ResolveCompose(L: Lattice, B: ClassId, U: ClassId, Y: ClassId)
    requires UniqueBase(L, B) && U < |L| && Y < |L|
    requires Resolve(L, B, U).Some? && Resolve(L, U, Y).Some?
    ensures Resolve(L, B, Y) == Some(Resolve(L, B, U).value + Resolve(L, U, Y).value)
    decreases Y
  {
    if U != Y {
      ResolveWithin(L, B, U);
      ResolveWithin(L, U, Y);
      var es := L[Y].bases;
      var i := ResolveViaFound(L, U, Y, es);
      ResolveCompose(L, B, U, es[i].base);
      ResolveViaUnique(L, B, Y, es, i);
    }
  }
}
