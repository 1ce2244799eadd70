/**
  local_derived<Base, size, alignment, Offset>: one object of any class derived
  from `Base`, stored in a fixed in-object buffer, move-only.

  The buffer `data` is a slot that holds at most one live object; `offset` is
  the byte distance from the start of the buffer to the object's `Base`
  subobject; `mover` is the class that the type-erased relocation function
  `wrapped_move` was bound to. The ghost log `destroyed` records every call of
  the stored object's virtual destructor made by this container.
*/
module LocalDerivedContainer {
  import opened Wrappers
  import opened Classes
  import opened LocalDerivedInternal

  /** A byte address: the start of a container's buffer plus a byte offset. */
  datatype Address = Address(buffer: LocalDerived, byteOffset: nat)

  /** One call of `get()->~Base()`: on a live object, or on storage whose object was already destroyed. */
  datatype DestructorCall = OnLive(obj: Obj) | OnDead(mover: ClassId)

  /** The object that a `B*` holding address `p` designates, if `p` is the address of a `B` subobject of a live object. */
  ghost function ObjectAt(p: Address, B: ClassId): Option<Obj>
    reads p.buffer
  {
    var c := p.buffer;
    if WellFormed(c.L) && c.data.Some? && IsBaseOf(c.L, B, c.data.value.cls)
       && p.byteOffset == GetOffsetOfBaseWithinDerived(c.L, B, c.data.value.cls)
    then c.data
    else None
  }

  class LocalDerived {
    /** The class lattice of the program. */
    const L: Lattice
    /** The template parameters Base, size and the largest value of Offset; alignment is not modelled. */
    const base: ClassId
    const size: nat
    const offsetMax: nat

    var data: Option<Obj>
    var offset: nat
    var mover: ClassId
    ghost var destroyed: seq<DestructorCall>

    /** The static_asserts of the class template, plus an unambiguous `Base`. */
    ghost predicate Params() {
      WellFormed(L) && base < |L| && UniqueBase(L, base) && 0 < size <= offsetMax
    }

    /**
      The state observable between operations: one live object whose class
      derives from `Base` and fits the buffer, a mover bound to that class,
      and the offset of its `Base` subobject.
    */
    ghost predicate Valid()
      reads this
    {
      && Params()
      && data.Some?
      && data.value.cls == mover
      && IsBaseOf(L, base, mover)
      && L[mover].size <= size
      && offset == GetOffsetOfBaseWithinDerived(L, base, mover)
    }

    /** Both containers are the same instantiation of the template (alignment aside). */
    predicate SameInstantiation(other: LocalDerived) {
      L == other.L && base == other.base && size == other.size && offsetMax == other.offsetMax
    }

    /** local_derived(const U& val): copies `val` into the buffer. */
    constructor FromValue(L: Lattice, base: ClassId, size: nat, offsetMax: nat, val: Obj)
      requires WellFormed(L) && base < |L| && UniqueBase(L, base) && 0 < size <= offsetMax
      requires IsBaseOf(L, base, val.cls) && L[val.cls].size <= size
      ensures this.L == L && this.base == base && this.size == size && this.offsetMax == offsetMax
      ensures Valid() && data == Some(val) && destroyed == []
      ensures mover == val.cls && offset == GetOffsetOfBaseWithinDerived(L, base, val.cls)
    {
      this.L, this.base, this.size, this.offsetMax := L, base, size, offsetMax;
      data, destroyed := None, [];
      new;
      InitializeConstructionFromValue(val.cls);
      data := Some(val);
    }

    /** local_derived(U&& val): moves `val` into the buffer with U's move constructor. */
    constructor FromMovedValue(L: Lattice, base: ClassId, size: nat, offsetMax: nat, val: Obj)
      requires WellFormed(L) && base < |L| && UniqueBase(L, base) && 0 < size <= offsetMax
      requires IsBaseOf(L, base, val.cls) && L[val.cls].size <= size
      ensures this.L == L && this.base == base && this.size == size && this.offsetMax == offsetMax
      ensures Valid() && data == Some(val) && destroyed == []
      ensures mover == val.cls && offset == GetOffsetOfBaseWithinDerived(L, base, val.cls)
    {
      this.L, this.base, this.size, this.offsetMax := L, base, size, offsetMax;
      data, destroyed := None, [];
      new;
      InitializeConstructionFromValue(val.cls);
      data := Some(MoveWrapperMove(val.cls, val).target);
    }

    /** local_derived(emplace_tag_t<U>, args...): builds a `U` from `args` directly in the buffer. */
    constructor Emplace(L: Lattice, base: ClassId, size: nat, offsetMax: nat, u: ClassId, args: Tag)
      requires WellFormed(L) && base < |L| && UniqueBase(L, base) && 0 < size <= offsetMax
      requires IsBaseOf(L, base, u) && L[u].size <= size
      ensures this.L == L && this.base == base && this.size == size && this.offsetMax == offsetMax
      ensures Valid() && data == Some(Obj(u, args, false)) && destroyed == []
      ensures mover == u && offset == GetOffsetOfBaseWithinDerived(L, base, u)
    {
      this.L, this.base, this.size, this.offsetMax := L, base, size, offsetMax;
      data, destroyed := None, [];
      new;
      InitializeConstructionFromValue(u);
      data := Some(Obj(u, args, false));
    }

    /** local_derived(local_derived&& other): same offset and mover, the object relocated. */
    constructor MoveFrom(other: LocalDerived)
      requires other.Valid()
      modifies other
      ensures SameInstantiation(other) && Valid() && destroyed == []
      ensures data == old(other.data) && offset == old(other.offset) && mover == old(other.mover)
      ensures other.data == Some(old(other.data.value).(movedFrom := true))
      ensures other.offset == old(other.offset) && other.mover == old(other.mover)
      ensures other.destroyed == old(other.destroyed)
    {
      L, base, size, offsetMax := other.L, other.base, other.size, other.offsetMax;
      mover, offset := other.mover, other.offset;
      destroyed := [];
      var r := MoveWrapperMove(other.mover, other.data.value);
      data := Some(r.target);
      new;
      other.data := Some(r.source);
    }

    /**
      local_derived(local_derived<U, other_size, other_alignment, OtherOffset>&& other):
      adopts other's mover, adds the offset of `U` within `Base` to other's
      offset, and relocates the object.
    */
    constructor ConvertFrom(L: Lattice, base: ClassId, size: nat, offsetMax: nat, other: LocalDerived)
      requires WellFormed(L) && base < |L| && UniqueBase(L, base) && 0 < size <= offsetMax
      requires other.Valid() && other.L == L
      requires IsBaseOf(L, base, other.base) && other.size <= size
      modifies other
      ensures this.L == L && this.base == base && this.size == size && this.offsetMax == offsetMax
      ensures Valid() && destroyed == []
      ensures data == old(other.data) && mover == old(other.mover)
      ensures offset == GetOffsetOfBaseWithinDerived(L, base, other.base) + old(other.offset)
      ensures other.data == Some(old(other.data.value).(movedFrom := true))
      ensures other.offset == old(other.offset) && other.mover == old(other.mover)
      ensures other.destroyed == old(other.destroyed)
    {
      this.L, this.base, this.size, this.offsetMax := L, base, size, offsetMax;
      mover := other.mover;
      AddOffsetsIsOffsetInDerived(L, base, other.base, other.mover, other.offset);
      GetOffsetAtMostSize(L, base, other.mover, size, offsetMax);
      offset := CastToOffset(AddOffsets(L, base, other.base, other.offset), offsetMax);
      destroyed := [];
      var r := MoveWrapperMove(other.mover, other.data.value);
      data := Some(r.target);
      new;
      other.data := Some(r.source);
    }

    /**
      ~local_derived(), and every `get()->~Base()`: runs the virtual destructor
      of the object at the `Base` address. On storage whose object is already
      destroyed the call still happens (undefined behaviour in C++); the log
      records it as such.
    */
    method Destroy()
      modifies this`data, this`destroyed
      ensures data == None
      ensures destroyed == old(destroyed) + [if old(data).Some? then OnLive(old(data.value)) else OnDead(mover)]
    {
      destroyed := destroyed + [if data.Some? then OnLive(data.value) else OnDead(mover)];
      data := None;
    }

    /**
      operator=(const U& val): destroys the stored object, then move-assigns
      a temporary built from `val`; that move assignment destroys the (already
      destroyed) storage a second time.
    */
    method AssignCopy(val: Obj) returns (r: LocalDerived)
      requires Valid()
      requires IsBaseOf(L, base, val.cls) && L[val.cls].size <= size
      modifies this
      ensures r == this && Valid()
      ensures data == Some(val) && mover == val.cls && offset == GetOffsetOfBaseWithinDerived(L, base, val.cls)
      ensures destroyed == old(destroyed) + [OnLive(old(data.value)), OnDead(old(mover))]
    {
      Destroy();
      var temp := new LocalDerived.FromValue(L, base, size, offsetMax, val);
      r := MoveAssign(temp);
      temp.Destroy();
    }

    /** operator=(U&& val): move-assigns a temporary built by moving `val`. */
    method AssignMove(val: Obj) returns (r: LocalDerived)
      requires Valid()
      requires IsBaseOf(L, base, val.cls) && L[val.cls].size <= size
      modifies this
      ensures r == this && Valid()
      ensures data == Some(val) && mover == val.cls && offset == GetOffsetOfBaseWithinDerived(L, base, val.cls)
      ensures destroyed == old(destroyed) + [OnLive(old(data.value))]
    {
      var temp := new LocalDerived.FromMovedValue(L, base, size, offsetMax, val);
      r := MoveAssign(temp);
      temp.Destroy();
    }

    /**
      operator=(local_derived&& other): unless `other` is this very container,
      destroys the stored object, adopts other's offset and mover and relocates
      other's object. This container's buffer need not hold a live object.
    */
    method MoveAssign(other: LocalDerived) returns (r: LocalDerived)
      requires Params() && other.Valid() && SameInstantiation(other)
      modifies this, other
      ensures r == this && Valid()
      ensures other == this ==>
        data == old(data) && offset == old(offset) && mover == old(mover) && destroyed == old(destroyed)
      ensures other != this ==>
        && destroyed == old(destroyed) + [if old(data).Some? then OnLive(old(data.value)) else OnDead(old(mover))]
        && data == old(other.data) && offset == old(other.offset) && mover == old(other.mover)
        && other.data == Some(old(other.data.value).(movedFrom := true))
        && other.offset == old(other.offset) && other.mover == old(other.mover)
        && other.destroyed == old(other.destroyed)
    {
      if other != this {
        Destroy();
        offset := other.offset;
        mover := other.mover;
        var m := MoveWrapperMove(mover, other.data.value);
        other.data := Some(m.source);
        data := Some(m.target);
      }
      r := this;
    }

    /**
      operator=(local_derived<U, other_size, other_alignment, OtherOffset>&& other):
      adopts the composed offset and other's mover and relocates other's
      object over the stored one WITHOUT destroying it.
    */
    method ConvertAssign(other: LocalDerived) returns (r: LocalDerived)
      requires Valid() && other.Valid() && other != this && other.L == L
      requires IsBaseOf(L, base, other.base) && other.size <= size
      modifies this, other
      ensures r == this && Valid()
      ensures destroyed == old(destroyed)
      ensures data == old(other.data) && mover == old(other.mover)
      ensures offset == GetOffsetOfBaseWithinDerived(L, base, other.base) + old(other.offset)
      ensures other.data == Some(old(other.data.value).(movedFrom := true))
      ensures other.offset == old(other.offset) && other.mover == old(other.mover)
      ensures other.destroyed == old(other.destroyed)
    {
      AddOffsetsIsOffsetInDerived(L, base, other.base, other.mover, other.offset);
      GetOffsetAtMostSize(L, base, other.mover, size, offsetMax);
      offset := CastToOffset(AddOffsets(L, base, other.base, other.offset), offsetMax);
      mover := other.mover;
      var m := MoveWrapperMove(mover, other.data.value);
      other.data := Some(m.source);
      data := Some(m.target);
      r := this;
    }

    /**
      get(): the buffer address plus `offset`. For a valid container it is the
      address of the stored object's `Base` subobject, which lies inside the buffer.
    */
    function Get(): (p: Address)
      reads this
      ensures p.buffer == this
      ensures Valid() ==> p.byteOffset == GetOffsetOfBaseWithinDerived(L, base, data.value.cls)
      ensures Valid() ==> p.byteOffset + L[base].size <= size
    {
      Address(this, offset)
    }

    /** operator*(): the `Base&` it returns refers to the address get() returns. */
    function Deref(): (p: Address)
      reads this
      ensures p == Get()
    {
      Get()
    }

    /** operator->(): the same pointer as get(). */
    function Arrow(): (p: Address)
      reads this
      ensures p == Get()
    {
      Get()
    }

    /** The complete object a virtual call through get() reaches: the stored one. */
    ghost function Dispatch(): (o: Option<Obj>)
      reads this
      ensures Valid() ==> o == data
    {
      ObjectAt(Get(), base)
    }

    /**
      swap(other): relocates other's object to a scratch buffer, this object
      into other's buffer, exchanges movers and offsets, and relocates the
      scratch object into this buffer. No destructor runs; the moved-from
      object left in the scratch buffer (returned as `scratch`) is never destroyed.
    */
    method Swap(other: LocalDerived) returns (ghost scratch: Option<Obj>)
      requires Valid() && other.Valid() && SameInstantiation(other)
      modifies this, other
      ensures Valid() && other.Valid()
      ensures data == old(other.data) && other.data == old(data)
      ensures offset == old(other.offset) && other.offset == old(offset)
      ensures mover == old(other.mover) && other.mover == old(mover)
      ensures destroyed == old(destroyed) && other.destroyed == old(other.destroyed)
      ensures scratch == Some(old(other.data.value).(movedFrom := true))
    {
      var temp: Option<Obj> := None;
      var m1 := MoveWrapperMove(other.mover, other.data.value);
      other.data := Some(m1.source);
      temp := Some(m1.target);
      var m2 := MoveWrapperMove(mover, data.value);
      data := Some(m2.source);
      other.data := Some(m2.target);
      mover, other.mover := other.mover, mover;
      offset, other.offset := other.offset, offset;
      var m3 := MoveWrapperMove(mover, temp.value);
      temp := Some(m3.source);
      data := Some(m3.target);
      scratch := temp;
    }

    /** Sets the mover and the offset before an object of class `u` is placed in the buffer. */
    method InitializeConstructionFromValue(u: ClassId)
      requires Params() && IsBaseOf(L, base, u) && L[u].size <= size
      modifies this`mover, this`offset
      ensures mover == u && offset == GetOffsetOfBaseWithinDerived(L, base, u)
    {
      mover := u;
      GetOffsetAtMostSize(L, base, u, size, offsetMax);
      offset := CastToOffset(GetOffsetOfBaseWithinDerived(L, base, u), offsetMax);
    }
  }

  /**
    The static_cast to Offset never truncates: the offset of the `Base`
    subobject of a `U` that fits the buffer is below `size`, and `size` is at
    most the largest Offset.
  */
  lemma GetOffsetAtMostSize(L: Lattice, B: ClassId, U: ClassId, size: nat, offsetMax: nat)
    requires WellFormed(L) && B < |L| && IsBaseOf(L, B, U) && L[U].size <= size <= offsetMax
    ensures GetOffsetOfBaseWithinDerived(L, B, U) < size
    ensures CastToOffset(GetOffsetOfBaseWithinDerived(L, B, U), offsetMax) == GetOffsetOfBaseWithinDerived(L, B, U)
  {
  }

  /** The free swap(lhs, rhs): the member swap. */
  method Swap(lhs: LocalDerived, rhs: LocalDerived)
    requires lhs.Valid() && rhs.Valid() && lhs.SameInstantiation(rhs)
    modifies lhs, rhs
    ensures lhs.Valid() && rhs.Valid()
    ensures lhs.data == old(rhs.data) && rhs.data == old(lhs.data)
    ensures lhs.offset == old(rhs.offset) && rhs.offset == old(lhs.offset)
    ensures lhs.mover == old(rhs.mover) && rhs.mover == old(lhs.mover)
    ensures lhs.destroyed == old(lhs.destroyed) && rhs.destroyed == old(rhs.destroyed)
  {
    ghost var _ := lhs.Swap(rhs);
  }
}
