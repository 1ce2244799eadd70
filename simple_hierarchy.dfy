/**
  The test hierarchy: class `base` with an int tag, class `Padding`, and the
  template `derived<BaseClass, NameTag, TagType>` deriving first from `Padding`
  and then from `BaseClass`, instantiated as six aliases forming two chains of
  depth two. Sizes and offsets depend on the ABI and are parameters.
*/
module SimpleHierarchy {
  import opened Wrappers
  import opened Classes

  const Padding: ClassId := 0
  const Base: ClassId := 1
  const Derived1: ClassId := 2
  const Derived11: ClassId := 3
  const Derived12: ClassId := 4
  const Derived2: ClassId := 5
  const Derived21: ClassId := 6
  const Derived22: ClassId := 7

  predicate IsDerived(c: ClassId) {
    Derived1 <= c <= Derived22
  }

  /** The BaseClass argument of each derived<> alias. */
  function Parent(c: ClassId): ClassId
    requires IsDerived(c)
  {
    if c == Derived1 || c == Derived2 then Base
    else if c == Derived11 || c == Derived12 then Derived1
    else Derived2
  }

  /** The NameTag argument of each derived<> alias, as its character pack. */
  function ClassName(c: ClassId): string
    requires IsDerived(c)
  {
    if c == Derived1 then "Derived1"
    else if c == Derived11 then "Derived11"
    else if c == Derived12 then "Derived12"
    else if c == Derived2 then "Derived2"
    else if c == Derived21 then "Derived21"
    else "Derived22"
  }

  datatype TagType = Int | Short | String | Float | Double

  /** base::tag_t and the TagType argument of each derived<> alias. */
  function TagTypeOf(c: ClassId): TagType
    requires c == Base || IsDerived(c)
  {
    if c == Base then Int
    else if c == Derived1 || c == Derived21 then String
    else if c == Derived11 then Float
    else if c == Derived12 then Short
    else Double
  }

  /** An object of the hierarchy whose tag has its class's tag type. */
  predicate WellTyped(o: Obj) {
    && (o.cls == Base || IsDerived(o.cls))
    && match TagTypeOf(o.cls)
       case Int => o.tag.IntTag? && -0x8000_0000 <= o.tag.i < 0x8000_0000
       case Short => o.tag.IntTag? && -0x8000 <= o.tag.i < 0x8000
       case String => o.tag.StrTag?
       case Float => o.tag.FloatTag?
       case Double => o.tag.FloatTag?
  }

  /**
    The ABI-dependent numbers: `padding` is the size of `Padding` including any
    alignment gap, so it is where the `BaseClass` subobject of a derived<>
    starts; `own[c]` is what class `c` adds after its bases (virtual table
    pointer, tag, tail padding).
  */
  datatype Abi = Abi(padding: nat, own: seq<nat>)

  predicate ValidAbi(abi: Abi) {
    abi.padding > 0 && |abi.own| == 8 && abi.own[Base] > 0
  }

  /** derived<Parent(c), …> : public Padding, public Parent(c). */
  function Derive(abi: Abi, c: ClassId, parentSize: nat): (ci: ClassInfo)
    requires ValidAbi(abi) && IsDerived(c)
    ensures ci.bases == [Edge(Padding, 0), Edge(Parent(c), abi.padding)]
    ensures abi.padding + parentSize <= ci.size
  {
    ClassInfo(abi.padding + parentSize + abi.own[c], [Edge(Padding, 0), Edge(Parent(c), abi.padding)])
  }

  function Hierarchy(abi: Abi): (L: Lattice)
    requires ValidAbi(abi)
    ensures |L| == 8
    ensures L[Padding] == ClassInfo(abi.padding, []) && L[Base] == ClassInfo(abi.own[Base], [])
    ensures forall c: ClassId :: IsDerived(c) ==> L[c] == Derive(abi, c, L[Parent(c)].size)
  {
    var padding := ClassInfo(abi.padding, []);
    var base := ClassInfo(abi.own[Base], []);
    var d1 := Derive(abi, Derived1, base.size);
    var d2 := Derive(abi, Derived2, base.size);
    [padding, base, d1, Derive(abi, Derived11, d1.size), Derive(abi, Derived12, d1.size),
     d2, Derive(abi, Derived21, d2.size), Derive(abi, Derived22, d2.size)]
  }

  lemma HierarchyWellFormed(abi: Abi)
    requires ValidAbi(abi)
    ensures WellFormed(Hierarchy(abi))
  {
    var L := Hierarchy(abi);
    forall d, i | 0 <= d < |L| && 0 <= i < |L[d].bases|
      ensures L[d].bases[i].base < d
      ensures L[d].bases[i].offset + L[L[d].bases[i].base].size <= L[d].size
    {
      assert IsDerived(d);
    }
  }

  /**
    Every derived<B, N, T> has `Padding` as its first base and `B` as its
    second, so its `B` subobject sits at the nonzero offset `padding`.
  */
  lemma DerivedLayout(abi: Abi, c: ClassId)
    requires ValidAbi(abi) && IsDerived(c)
    ensures WellFormed(Hierarchy(abi))
    ensures Hierarchy(abi)[c].bases == [Edge(Padding, 0), Edge(Parent(c), abi.padding)]
    ensures Resolve(Hierarchy(abi), Parent(c), c) == Some(abi.padding) && abi.padding != 0
  {
    HierarchyWellFormed(abi);
    var L := Hierarchy(abi);
    var es := L[c].bases;
    assert Resolve(L, Parent(c), Padding) == None;
    assert ResolveVia(L, Parent(c), c, es[1..]) == Some(abi.padding);
    assert ResolveVia(L, Parent(c), c, es) == Some(abi.padding);
  }

  /** `Padding` is a base of nothing but itself. */
  lemma PaddingReachesNothing(abi: Abi, B: ClassId)
    requires ValidAbi(abi) && B != Padding
    ensures WellFormed(Hierarchy(abi)) && Resolve(Hierarchy(abi), B, Padding) == None
  {
    HierarchyWellFormed(abi);
  }

  /** Every class other than `Padding` is an unambiguous base wherever it is a base. */
  lemma HierarchyUniqueBase(abi: Abi, B: ClassId)
    requires ValidAbi(abi) && B != Padding
    ensures UniqueBase(Hierarchy(abi), B)
  {
    HierarchyWellFormed(abi);
    var L := Hierarchy(abi);
    PaddingReachesNothing(abi, B);
    forall d, i, j | 0 <= d < |L| && 0 <= i < |L[d].bases| && 0 <= j < |L[d].bases| && i != j
      ensures !(Resolve(L, B, L[d].bases[i].base).Some? && Resolve(L, B, L[d].bases[j].base).Some?)
    {
      assert IsDerived(d);
      DerivedLayout(abi, d);
    }
  }

  /**
    The aliases form two chains of depth two: derived11 and derived12 reach
    base through derived1, derived21 and derived22 through derived2, each
    step adding `padding` bytes.
  */
  lemma AliasChains(abi: Abi)
    requires ValidAbi(abi)
    ensures WellFormed(Hierarchy(abi))
    ensures forall c :: IsDerived(c) ==> IsBaseOf(Hierarchy(abi), Base, c)
    ensures Parent(Derived11) == Derived1 && Parent(Derived12) == Derived1 && Parent(Derived1) == Base
    ensures Parent(Derived21) == Derived2 && Parent(Derived22) == Derived2 && Parent(Derived2) == Base
    ensures Resolve(Hierarchy(abi), Base, Derived1) == Some(abi.padding)
    ensures Resolve(Hierarchy(abi), Base, Derived2) == Some(abi.padding)
    ensures Resolve(Hierarchy(abi), Base, Derived11) == Some(2 * abi.padding)
    ensures Resolve(Hierarchy(abi), Base, Derived12) == Some(2 * abi.padding)
    ensures Resolve(Hierarchy(abi), Base, Derived21) == Some(2 * abi.padding)
    ensures Resolve(Hierarchy(abi), Base, Derived22) == Some(2 * abi.padding)
  {
    HierarchyWellFormed(abi);
    BaseOffsetInDerived(abi, Derived1);
    BaseOffsetInDerived(abi, Derived2);
    BaseOffsetInDerived(abi, Derived11);
    BaseOffsetInDerived(abi, Derived12);
    BaseOffsetInDerived(abi, Derived21);
    BaseOffsetInDerived(abi, Derived22);
  }

  /** One step of AliasChains: `base` sits `padding` bytes further in per level of derivation. */
  lemma BaseOffsetInDerived(abi: Abi, c: ClassId)
    requires ValidAbi(abi) && IsDerived(c)
    ensures WellFormed(Hierarchy(abi))
    ensures Resolve(Hierarchy(abi), Base, c) == Some(if Parent(c) == Base then abi.padding else 2 * abi.padding)
  {
    var L := Hierarchy(abi);
    HierarchyUniqueBase(abi, Base);
    DerivedLayout(abi, c);
    if Parent(c) != Base {
      DerivedLayout(abi, Parent(c));
      ResolveCompose(L, Base, Parent(c), c);
    }
  }


  /**
    name_tag<chars...>(): `str` is built by a push_back of the first character
    followed by an append of name_tag<rest...>().str; name_tag<>() leaves it
    empty. The string is the character pack.
  */
  method NameTagStr(chars: seq<char>) returns (str: string)
    ensures str == chars
    decreases |chars|
  {
    str := "";
    if chars != [] {
      str := str + [chars[0]];
      var rest := NameTagStr(chars[1..]);
      str := str + rest;
    }
  }

  /** The decimal digits of `n`, as `operator<<` writes an integer. */
  function Digits(n: nat): (s: string)
    ensures |s| > 0 && forall k :: 0 <= k < |s| ==> '0' <= s[k] <= '9'
    decreases n
  {
    if n < 10 then ["0123456789"[n]] else Digits(n / 10) + ["0123456789"[n % 10]]
  }

  /** `operator<<` on an int or a short: a minus sign for negatives, then the digits. */
  function IntToString(i: int): (s: string)
    ensures |s| > 0 && (s[0] == '-' <==> i < 0)
  {
    if i < 0 then "-" + Digits(-i) else Digits(i)
  }

  function DigitValue(c: char): nat {
    if '0' <= c <= '9' then c as int - '0' as int else 0
  }

  function ParseDigits(s: string): nat
    decreases |s|
  {
    if s == [] then 0 else ParseDigits(s[..|s| - 1]) * 10 + DigitValue(s[|s| - 1])
  }

  /** Reads back what IntToString wrote. */
  function ParseInt(s: string): int {
    if |s| > 0 && s[0] == '-' then -(ParseDigits(s[1..]) as int) else ParseDigits(s)
  }

  lemma {:induction false} DigitsRoundTrip(n: nat)
    ensures |Digits(n)| > 0 && Digits(n)[0] != '-'
    ensures ParseDigits(Digits(n)) == n
    decreases n
  {
    if n >= 10 {
      DigitsRoundTrip(n / 10);
      var s := Digits(n);
      assert s[..|s| - 1] == Digits(n / 10);
    }
  }

  /** The printed integer determines the integer. */
  lemma IntToStringRoundTrip(i: int)
    ensures ParseInt(IntToString(i)) == i
  {
    DigitsRoundTrip(if i < 0 then -i else i);
    if i < 0 {
      assert IntToString(i)[1..] == Digits(-i);
    }
  }

  /** The text `operator<<` writes for a tag. */
  function ShowTag(t: Tag): (s: string)
    ensures t.IntTag? ==> ParseInt(s) == t.i
    ensures t.StrTag? ==> s == t.s
    ensures t.FloatTag? ==> s == t.shown
  {
    match t
    case IntTag(i) => IntToStringRoundTrip(i); IntToString(i)
    case StrTag(s) => s
    case FloatTag(shown) => shown
    case PairTag(a, b) => ShowTag(a) + ", " + ShowTag(b)
  }

  /** base::expected_message(t): "base: ", the tag, a newline. The tag can be read back from it. */
  function BaseExpectedMessage(t: int): (m: string)
    ensures |m| > 7 && m[..6] == "base: " && m[|m| - 1] == '\n'
    ensures ParseInt(m[6..|m| - 1]) == t
  {
    var text := IntToString(t);
    var m := "base: " + text + "\n";
    assert m[6..|m| - 1] == text;
    IntToStringRoundTrip(t);
    m
  }

  /** derived<…, NameTag, …>::expected_message(t): the name, ": ", the tag. */
  function DerivedExpectedMessage(name: string, t: Tag): (m: string)
    ensures |m| == |name| + 2 + |ShowTag(t)|
    ensures m[..|name|] == name && m[|name|..|name| + 2] == ": " && m[|name| + 2..] == ShowTag(t)
  {
    name + ": " + ShowTag(t)
  }

  /** The virtual message(): base's, or the derived<> override, chosen by the object's class. */
  function Message(o: Obj): (m: string)
    requires WellTyped(o)
    ensures o.cls == Base ==> m == BaseExpectedMessage(o.tag.i)
    ensures o.cls != Base ==> m == DerivedExpectedMessage(ClassName(o.cls), o.tag)
    ensures |m| > 0 && m[0] == (if o.cls == Base then 'b' else 'D')
  {
    if o.cls == Base then BaseExpectedMessage(o.tag.i)
    else DerivedExpectedMessage(ClassName(o.cls), o.tag)
  }

  /** Reads the derived<> class off characters 7 and 8 of its message. */
  function ClassOfMessage(m: string): ClassId
    requires |m| > 8
  {
    if m[7] == '1' then (if m[8] == ':' then Derived1 else if m[8] == '1' then Derived11 else Derived12)
    else (if m[8] == ':' then Derived2 else if m[8] == '1' then Derived21 else Derived22)
  }

  /** A derived<> message starts with "D", names its class, and ends with the tag. */
  lemma DerivedMessageShape(o: Obj)
    requires WellTyped(o) && IsDerived(o.cls)
    ensures |Message(o)| > 9 && Message(o)[0] == 'D'
    ensures Message(o)[..|ClassName(o.cls)|] == ClassName(o.cls)
    ensures Message(o)[|ClassName(o.cls)|..|ClassName(o.cls)| + 2] == ": "
    ensures ClassOfMessage(Message(o)) == o.cls
    ensures Message(o)[|ClassName(o.cls)| + 2..] == ShowTag(o.tag)
  {
    var n := ClassName(o.cls);
    var m := Message(o);
    assert m == n + ": " + ShowTag(o.tag);
    assert m[0] == n[0] && m[7] == n[7];
    assert m[8] == if |n| == 8 then ':' else n[8];
  }

  /** Two objects of one class with equal messages and int or string tags have equal tags. */
  lemma SameClassMessageTag(o1: Obj, o2: Obj)
    requires WellTyped(o1) && WellTyped(o2) && IsDerived(o1.cls) && o1.cls == o2.cls
    requires !o1.tag.FloatTag? && Message(o1) == Message(o2)
    ensures o1.tag == o2.tag
  {
    DerivedMessageShape(o1);
    DerivedMessageShape(o2);
    assert ShowTag(o1.tag) == ShowTag(o2.tag);
    if o1.tag.IntTag? {
      IntToStringRoundTrip(o1.tag.i);
      IntToStringRoundTrip(o2.tag.i);
    }
  }

  /**
    The dispatched message tells apart any two objects with int or string
    tags, so a test comparing a message with an expected_message checks both
    the class reached and the tag it carries.
  */
  lemma MessageIdentifiesObject(o1: Obj, o2: Obj)
    requires WellTyped(o1) && WellTyped(o2)
    requires !o1.tag.FloatTag? && !o2.tag.FloatTag?
    requires Message(o1) == Message(o2)
    ensures o1.cls == o2.cls && o1.tag == o2.tag
  {
    var m := Message(o1);
    if o1.cls == Base && o2.cls == Base {
      assert ParseInt(m[6..|m| - 1]) == o1.tag.i == o2.tag.i;
    } else if o1.cls == Base {
      DerivedMessageShape(o2);
    } else if o2.cls == Base {
      DerivedMessageShape(o1);
    } else {
      DerivedMessageShape(o1);
      DerivedMessageShape(o2);
      SameClassMessageTag(o1, o2);
    }
  }
}
