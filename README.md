# local_derived, modelled in Dafny

`local_derived<Base, size, alignment, Offset>` stores one object of any class
derived from `Base` inside a fixed buffer that lives in the container itself.
The container is move-only. It keeps three pieces of state:

- `data`, the buffer;
- `offset`, the byte distance from the start of the buffer to the object's
  `Base` subobject;
- `wrapped_move`, a relocation function bound to the stored concrete type.

All observers return the buffer address plus `offset`.

The model describes classes as a lattice, `Classes.Lattice`:

- A class id is an index. Each class has a size and a list of direct bases.
  Each base comes with the byte offset of its subobject.
- A base always has a smaller id than the classes derived from it.
- `Classes.Resolve(L, B, D)` adds up the edge offsets along the path from `D`
  up to `B`. It stands in for the sentinel-pointer `static_cast` in
  `get_offset_of_base_within_derived`.
- `Classes.UniqueBase(L, B)` excludes repeated `B` subobjects. Those would make
  `static_cast<B*>` ambiguous.

The container is the class `LocalDerivedContainer.LocalDerived`:

- `data` is a slot that holds `Option<Obj>`. An `Obj` is a concrete class, a
  tag, and a flag that marks a moved-from object.
- `mover` is the class that `wrapped_move` was bound to.
- The ghost log `destroyed` records every call of the stored object's virtual
  destructor.
- The `static_assert`s and `enable_if` conditions of the template become
  `requires` clauses. So do the conversion constraints (`is_base_of`,
  `sizeof(U) <= size`, `other_size <= size`), and `Offset` is represented by
  its largest value, `offsetMax`.

The source has three behaviours that look like bugs. The model keeps them as
written:

- `operator=(const U&)` destroys the stored object. The move assignment it
  then calls destroys the same storage again.
- Move assignment from another instantiation never destroys the old object.
- A relocation leaves the source object alive, in a moved-from state.
  `swap` relocates three times and destroys none of the three sources. It
  leaves moved-from objects alive in the scratch buffer and in both
  containers' buffers. The relocations at lines 263 and 269 of
  `local_derived.h` build new objects over those live moved-from objects.

Two fixtures are also modelled:

- `SimpleHierarchy` is the test hierarchy. Every `derived<B, …>` derives
  first from `Padding` and then from `B`, so `B` sits at a nonzero offset.
  Six aliases form two inheritance chains of depth two. The file also models
  the `name_tag` string builder and the `message` / `expected_message` pair.
- `Snippet` is the `max_size_of` fold from the example program, and its use
  to pick the capacity of `local_derived<Base, S>`.

`Scenarios` replays the depth-two conversion cases and the swap cases of the
test suite on that hierarchy.

Sizes and offsets depend on the ABI, so the model takes them as parameters:
`SimpleHierarchy.Abi` and the arguments of `Snippet.ExampleLattice`.

Files:

- `wrappers.dfy`: Option
- `classes.dfy`: lattice, resolver, objects
- `local_derived_internal.dfy`: `local_derived_internal`
- `local_derived.dfy`: the container and the free `swap`
- `simple_hierarchy.dfy`: the test hierarchy
- `example.dfy`: the example program
- `scenarios.dfy`: test scenarios

## Model

| member | source | states |
|---|---|---|
| Classes.ResolveWithin | src/include/local_derived.h:314-331 | If `B` resolves within `D`, then `B` is declared no later than `D`, and the `B` subobject at the resolved offset fits inside a `D`. |
| Classes.ResolveViaFound | src/include/local_derived.h:326 | A successful base search names the direct base it went through. The offset it returns is that edge's offset plus the offset of `B` within that base. |
| Classes.ResolveViaUnique | src/include/local_derived.h:326 | If exactly one direct base leads to `B`, the search goes through that base. |
| Classes.ResolveCompose | src/include/local_derived.h:333-354 | The composition law. Take `B` unambiguous, `B` a base of `U` and `U` a base of `Y`. Then the offset of `B` in `Y` is the offset of `B` in `U` plus the offset of `U` in `Y`. |
| LocalDerivedInternal.GetOffsetOfBaseWithinDerived | src/include/local_derived.h:314-331 | The offset is 0 when `Base == Derived`. The base subobject lies within the derived object, and `Base` is not declared after `Derived`. |
| LocalDerivedInternal.AddOffsets | src/include/local_derived.h:339-354 | `add_offsets<Base, U>(other_offset)` is at least `other_offset`, and equals it when `Base == U`. The `Base` subobject it locates ends within the `U` subobject at `other_offset`. |
| LocalDerivedInternal.AddOffsetsIsOffsetInDerived | src/include/local_derived.h:333-354 | Take `other_offset`, the offset of `U` in `Y`. Then `add_offsets<Base, U>(other_offset)` equals `get_offset_of_base_within_derived<Base, Y>()`, and `Base` is a base of `Y`. |
| LocalDerivedInternal.CastToOffset | src/include/local_derived.h:146-147 | `static_cast<Offset>` yields a value no larger than the largest `Offset`. It returns its argument unchanged exactly when the argument fits. |
| LocalDerivedInternal.MoveWrapperMove | src/include/local_derived.h:356-366 | The result is a `U` with the source's tag; relocating an object of class `U` reproduces it. The source is still alive afterwards, with its class unchanged, and is marked moved-from. |
| LocalDerivedContainer.GetOffsetAtMostSize | src/include/local_derived.h:63-65 | The offset of a `Base` subobject in a `U` that fits the buffer is below `size`. Because `size` is at most the largest `Offset`, the cast never truncates it. |
| LocalDerivedContainer.LocalDerived.FromValue | src/include/local_derived.h:78-87 | Binds the mover to `U` and sets the offset to that of `Base` within `U`. Stores the given `U`. Destroys nothing. |
| LocalDerivedContainer.LocalDerived.FromMovedValue | src/include/local_derived.h:90-99 | Same as copy construction, with the `U` moved into the buffer through `U`'s move constructor. |
| LocalDerivedContainer.LocalDerived.Emplace | src/include/local_derived.h:107-116 | Binds the mover to `U`, sets the `U` offset, and stores a `U` built from the arguments. |
| LocalDerivedContainer.LocalDerived.MoveFrom | src/include/local_derived.h:119-124 | Same instantiation: copies `offset` and the mover and relocates the object. The source keeps its offset and mover, and its object is left moved-from but alive. |
| LocalDerivedContainer.LocalDerived.ConvertFrom | src/include/local_derived.h:134-149 | Requires `U` derived from `Base` and `other_size <= size`. Sets `offset` to the offset of `Base` in `U` plus `other.offset`, adopts the mover, and relocates the object. The result is valid, as the composition law shows. |
| LocalDerivedContainer.LocalDerived.Destroy | src/include/local_derived.h:156-160 | `get()->~Base()` appends one destructor call to the log. The call is on the live object, or on the dead storage when the object was already destroyed. The slot is then empty. |
| LocalDerivedContainer.LocalDerived.AssignCopy | src/include/local_derived.h:164-175 | Stores the value, with the mover and offset of `U`, and returns `*this`. The log grows by a destruction of the old object followed by a second destructor call on the already destroyed storage. |
| LocalDerivedContainer.LocalDerived.AssignMove | src/include/local_derived.h:177-186 | Stores the value with `U`'s mover and offset and returns `*this`. The old object is destroyed exactly once. |
| LocalDerivedContainer.LocalDerived.MoveAssign | src/include/local_derived.h:188-200 | Self-assignment changes nothing and destroys nothing. Otherwise it destroys the old object exactly once, adopts the other's offset and mover, and relocates its object. The other is left moved-from. It returns `*this`. |
| LocalDerivedContainer.LocalDerived.ConvertAssign | src/include/local_derived.h:202-228 | Sets the composed offset, adopts the other's mover, and relocates its object. It never destroys the previous object, and it returns `*this`. |
| LocalDerivedContainer.LocalDerived.Get | src/include/local_derived.h:235-241 | Returns this buffer's address plus `offset`. In a valid container this is the offset of `Base` within the stored object's class, and the `Base` subobject lies inside the buffer. |
| LocalDerivedContainer.LocalDerived.Deref | src/include/local_derived.h:243-247 | `&*x` is the address `get()` returns. |
| LocalDerivedContainer.LocalDerived.Arrow | src/include/local_derived.h:249-253 | `operator->` returns the same address as `get()`. |
| LocalDerivedContainer.LocalDerived.Dispatch | src/include/local_derived.h:236-241 | In a valid container, a virtual call through `get()` reaches the stored object. |
| LocalDerivedContainer.LocalDerived.Swap | src/include/local_derived.h:257-270 | Exchanges the stored objects, offsets and movers of two containers with identical parameters. No destructor runs, and both stay valid. The scratch object is left moved-from and is never destroyed. |
| LocalDerivedContainer.LocalDerived.InitializeConstructionFromValue | src/include/local_derived.h:273-284 | Binds the mover to `U` and sets `offset` to the untruncated offset of `Base` within `U`. |
| LocalDerivedContainer.Swap | src/include/local_derived.h:298-304 | The free `swap` has the effect of the member `swap`. |
| SimpleHierarchy.Derive | test/simple_hierarchy.h:76-77 | `derived<B, …>` has exactly the bases `Padding` at 0 and `B` at the padding offset. A `B` placed after the `Padding` subobject fits inside it. |
| SimpleHierarchy.Hierarchy | test/simple_hierarchy.h:106-135 | The eight classes. `Padding` and `base` have no bases, and each of the six aliases is `derived<>` of its parent class. |
| SimpleHierarchy.HierarchyWellFormed | test/simple_hierarchy.h:75-135 | The test hierarchy is a well-formed lattice. |
| SimpleHierarchy.DerivedLayout | test/simple_hierarchy.h:76-77 | `derived<B, …>` has exactly the bases `Padding` (at 0) and `B`. `B` sits at the padding offset, which is not 0. |
| SimpleHierarchy.PaddingReachesNothing | test/simple_hierarchy.h:66-73 | `Padding` has no bases, so no other class is a base of it. |
| SimpleHierarchy.HierarchyUniqueBase | test/simple_hierarchy.h:76-77 | Every class other than `Padding` occurs at most once as a subobject, so it can be the `Base` of a container. |
| SimpleHierarchy.AliasChains | test/simple_hierarchy.h:108-135 | `derived11`/`derived12` go through `derived1` to `base`, and `derived21`/`derived22` go through `derived2`. Depth-one classes hold `base` at one padding and depth-two classes at two. |
| SimpleHierarchy.BaseOffsetInDerived | test/simple_hierarchy.h:108-135 | In an alias derived directly from `base`, `base` sits at one padding. In an alias derived from `derived1` or `derived2`, it sits at two paddings. |
| SimpleHierarchy.NameTagStr | test/simple_hierarchy.h:44-64 | `name_tag<c1..cn>().str` is the string `c1..cn`, and `name_tag<>().str` is empty. |
| SimpleHierarchy.Digits | test/simple_hierarchy.h:30 | The decimal text `operator<<` writes for a natural number is non-empty and made of digits only. |
| SimpleHierarchy.IntToString | test/simple_hierarchy.h:30 | The text written for an int is non-empty. It starts with a minus sign exactly when the int is negative. |
| SimpleHierarchy.DigitsRoundTrip | test/simple_hierarchy.h:27-32 | The decimal digits written for a natural number read back as that number. |
| SimpleHierarchy.IntToStringRoundTrip | test/simple_hierarchy.h:27-32 | The text written for an int reads back as that int. |
| SimpleHierarchy.ShowTag | test/simple_hierarchy.h:93 | What `operator<<` writes for a tag. An int tag reads back as the int, a string tag is the string itself, and a floating-point tag is its given text. |
| SimpleHierarchy.BaseExpectedMessage | test/simple_hierarchy.h:27-32 | `base::expected_message(t)` is `"base: "`, then the text of `t`, then a newline, and `t` can be read back from it. |
| SimpleHierarchy.DerivedExpectedMessage | test/simple_hierarchy.h:90-95 | `derived::expected_message(t)` is the `name_tag` string, then `": "`, then the text of `t`. |
| SimpleHierarchy.Message | test/simple_hierarchy.h:34-37 | The virtual `message()` is `base::expected_message(tag)` for a `base` and the override's `expected_message(tag)` for a `derived<>`. The two kinds of messages start with different characters. |
| SimpleHierarchy.DerivedMessageShape | test/simple_hierarchy.h:90-100 | A `derived<>` message starts with its `name_tag` string, followed by `": "` and the text of the tag. The class can be read off characters 7 and 8. |
| SimpleHierarchy.SameClassMessageTag | test/simple_hierarchy.h:90-100 | Two objects of one class with int or string tags and equal messages have equal tags. |
| SimpleHierarchy.MessageIdentifiesObject | test/simple_hierarchy.h:27-37 | For int and string tags, equal virtual `message()` results mean equal class and tag. So a test that compares a message with an `expected_message` checks both. |
| Snippet.MaxSizeR | src/example.cpp:74-86 | `max_size_r<running, sizes…>` is at least `running` and every listed size. It equals `running` or one of the sizes. |
| Snippet.MaxSizeOf | src/example.cpp:88-89 | `max_size_of<sizes…>` is at least every listed size and is one of them, or 0 for an empty list. |
| Snippet.ExampleCapacity | src/example.cpp:97 | With `S = max_size_of<Base, Derived1, Derived2>`, the three classes derive from `Base` and each fits in `S`. This includes `sizeof(Base) <= S`, which moving a `local_derived<Base, sizeof(Base)>` in needs. |
| Snippet.ExampleMain | src/example.cpp:97-122 | The containers of `main` can all be built, with capacity `S`. The one moved in from the smaller container holds "the other one", and the moved-in emplaced one holds the `Derived2` "theta". |
| Scenarios.ConvertDepthTwo | test/constructors.cpp:162-176 | A `derived11` moved from `local_derived<derived1, …>` into `local_derived<base, S>` sits at twice the padding offset and is still what a call reaches. |
| Scenarios.ConvertAssignDepthTwo | test/assignment.cpp:172-193 | Take a `local_derived<base, S>` holding a `derived21`. Assigning it a `local_derived<derived1, …>` that holds a `derived11` puts the `derived11` at twice the padding offset, and that is what a call reaches. |
| Scenarios.SwapFixesOrder | test/swap.cpp:37-50 | Swapping containers holding `derived22` and `base` exchanges what each one reaches, and destroys nothing. |
| Scenarios.SelfSwap | test/swap.cpp:40 | A self-swap leaves the container's object, offset and dispatch unchanged. |

## Left out

- Raw storage is not modelled: `aligned_storage`, placement `new`,
  `reinterpret_cast`, and the pointer 1 used as a sentinel. The buffer is a
  slot, and an address is a buffer plus a byte offset.
- Alignment is not modelled: the `alignment` parameter and every
  `alignof(…) <= alignment` condition.
- `has_virtual_destructor<Base>` and `is_unsigned<Offset>` are not modelled.
  Every class is taken to have a virtual destructor, and `Offset` is an
  unsigned range `0..offsetMax`.
- The `noexcept` specifications and exceptions thrown by user constructors
  are not modelled.
- Virtual dispatch is not modelled beyond its outcome: a call through
  `get()` is a lookup of the stored object (`Dispatch`).
- `Classes.UniqueBase` is stronger than the C++ rule. It requires `Base` to
  be unambiguous in every class of the lattice, not only in the classes
  actually stored. Every container in the tests and the example meets it.
- The model does not touch the caller's argument in a copy or by-move value
  constructor (`FromMovedValue`, `AssignMove`), so a by-move argument is not
  shown in its moved-from state.
- The default constructors of `base` and `derived<>` are not modelled.
  Objects always carry a tag.
- The text of `float` and `double` tags is not modelled. `FloatTag` holds the
  text that `ostringstream` would print, as given, so
  `MessageIdentifiesObject` is stated for int and string tags only.
- `max_size_r` inherits from `integral_constant<int, running>`, which
  narrows `size_t` to `int`. Sizes are unbounded naturals in the model, so
  this narrowing is not shown.
- `ExampleMain` does not model the `std::vector`: its growth, its element
  relocations and its destruction. It also leaves out `std::rotate`, the
  `message()` calls and `std::cerr` output. The containers are built but not
  collected, and only the last two are returned.
- `get_offset_of_base_within_derived` also accepts `Base = void`, with
  offset 0. The model has no `void` class. No container can use it,
  because `Base` must have a virtual destructor.
- The model keeps a moved-from object's tag: the relocation flags the source
  but leaves its tag unchanged. In C++ a moved-from `std::string` tag (the
  tags of `derived1` and `derived21`) is in an unspecified state, and
  libstdc++ leaves it empty. So the contracts of `MoveFrom`, `ConvertFrom`,
  `MoveAssign`, `ConvertAssign` and `Swap` are more precise about the source
  than C++ guarantees.
- The Catch test harness is not modelled. Only some test scenarios are
  restated, in `Scenarios`.
