/** The compiled-in table of error types and the ancestry query over it.

    An error type is referred to by its position in the registry, which stands
    for the address of its ERROR_DEFINE record: two references are the same type
    exactly when they are the same position. */
module ErrorTypes {

  type TypeRef = nat

  /** One ERROR_DEFINE(code, name, fatal, parent) record. */
  datatype ErrorType = ErrorType(code: int, name: string, fatal: bool, parent: TypeRef)

  type Registry = seq<ErrorType>

  /** Every parent is registered, at or before its child; a type that is its
      own parent is a root of the hierarchy. */
  predicate WellFormed(reg: Registry)
  {
    forall t :: 0 <= t < |reg| ==> reg[t].parent <= t
  }

  predicate IsRoot(reg: Registry, t: TypeRef)
    requires t < |reg|
  {
    reg[t].parent == t
  }

  /** errorTypeExtends: step from the child to its parent, answer true as soon
      as the ancestor is met, and stop with false once a root has been checked.
      The child itself is never compared, so only a root extends itself. */
  function Extends(reg: Registry, child: TypeRef, ancestor: TypeRef): bool
    requires WellFormed(reg) && child < |reg|
    decreases child
  {
    var find := reg[child].parent;
    if find == ancestor then true
    else if reg[find].parent == find then false
    else Extends(reg, find, ancestor)
  }

  /** errorInstanceOf: the type itself or one of the types it extends. */
  predicate InstanceOf(reg: Registry, t: TypeRef, test: TypeRef)
    requires WellFormed(reg) && t < |reg|
  {
    t == test || Extends(reg, t, test)
  }

  /** The type reached from t by following k parent links (a root stays put). */
  function Up(reg: Registry, t: TypeRef, k: nat): (u: TypeRef)
    requires WellFormed(reg) && t < |reg|
    ensures u <= t
  {
    if k == 0 then t else Up(reg, reg[t].parent, k - 1)
  }

  /** Reference definition of ancestry: a is reached from c by one or more
      parent links. */
  ghost predicate Reaches(reg: Registry, c: TypeRef, a: TypeRef)
    requires WellFormed(reg) && c < |reg|
  {
    exists k: nat :: 1 <= k && Up(reg, c, k) == a
  }

  lemma {:induction false} UpRoot(reg: Registry, t: TypeRef, k: nat)
    requires WellFormed(reg) && t < |reg| && IsRoot(reg, t)
    ensures Up(reg, t, k) == t
  {
    if k > 0 {
      UpRoot(reg, t, k - 1);
    }
  }

  lemma {:induction false} UpAdd(reg: Registry, t: TypeRef, j: nat, k: nat)
    requires WellFormed(reg) && t < |reg|
    ensures Up(reg, Up(reg, t, j), k) == Up(reg, t, j + k)
  {
    if j > 0 {
      UpAdd(reg, reg[t].parent, j - 1, k);
    }
  }

  /** The chain walk answers exactly the reference definition, both ways. */
  lemma {:induction false} ExtendsIffReaches(reg: Registry, c: TypeRef, a: TypeRef)
    requires WellFormed(reg) && c < |reg|
    ensures Extends(reg, c, a) <==> Reaches(reg, c, a)
  {
    var find := reg[c].parent;
    assert Up(reg, c, 1) == find;
    if find == a {
    } else if reg[find].parent == find {
      forall k: nat | 1 <= k
        ensures Up(reg, c, k) != a
      {
        UpRoot(reg, find, k - 1);
      }
    } else {
      ExtendsIffReaches(reg, find, a);
      if Extends(reg, find, a) {
        var k: nat :| 1 <= k && Up(reg, find, k) == a;
        assert Up(reg, c, k + 1) == a;
      }
      if Reaches(reg, c, a) {
        var k: nat :| 1 <= k && Up(reg, c, k) == a;
        assert k != 1;
        assert Up(reg, find, k - 1) == a;
      }
    }
  }

  /** Every type the walk accepts lies at or above the child's parent. */
  lemma {:induction false} ExtendsAbove(reg: Registry, c: TypeRef, a: TypeRef)
    requires WellFormed(reg) && c < |reg| && Extends(reg, c, a)
    ensures a <= reg[c].parent
  {
    var find := reg[c].parent;
    if find != a {
      ExtendsAbove(reg, find, a);
    }
  }

  /** extends(T, T) holds exactly for the roots. */
  lemma ExtendsSelfIffRoot(reg: Registry, t: TypeRef)
    requires WellFormed(reg) && t < |reg|
    ensures Extends(reg, t, t) <==> IsRoot(reg, t)
  {
    if Extends(reg, t, t) {
      ExtendsAbove(reg, t, t);
    }
  }

  /** A type extends its parent. */
  lemma ExtendsParent(reg: Registry, c: TypeRef)
    requires WellFormed(reg) && c < |reg|
    ensures Extends(reg, c, reg[c].parent)
  {
  }

  /** Ancestry is transitive. */
  lemma ExtendsTransitive(reg: Registry, a: TypeRef, b: TypeRef, c: TypeRef)
    requires WellFormed(reg) && a < |reg| && b < |reg|
    requires Extends(reg, a, b) && Extends(reg, b, c)
    ensures Extends(reg, a, c)
  {
    ExtendsIffReaches(reg, a, b);
    ExtendsIffReaches(reg, b, c);
    ExtendsIffReaches(reg, a, c);
    var j: nat :| 1 <= j && Up(reg, a, j) == b;
    var k: nat :| 1 <= k && Up(reg, b, k) == c;
    UpAdd(reg, a, j, k);
  }

  /** The first registered position at or after `from` whose code is `code`,
      or |reg| when there is none. */
  function FindCode(reg: Registry, code: int, from: nat): (i: nat)
    requires from <= |reg|
    ensures from <= i <= |reg|
    ensures i < |reg| ==> reg[i].code == code
    ensures forall j :: from <= j < i ==> reg[j].code != code
    decreases |reg| - from
  {
    if from == |reg| then from
    else if reg[from].code == code then from
    else FindCode(reg, code, from + 1)
  }

  /** errorTypeFromCode: the first type registered under the code; an
      unregistered code resolves to UnknownError. */
  function TypeFromCode(reg: Registry, code: int, unknownError: TypeRef): (t: TypeRef)
    requires unknownError < |reg|
    ensures t < |reg|
    ensures (exists i :: 0 <= i < |reg| && reg[i].code == code) ==>
              reg[t].code == code && forall j :: 0 <= j < t ==> reg[j].code != code
    ensures (forall i :: 0 <= i < |reg| ==> reg[i].code != code) ==> t == unknownError
  {
    var i := FindCode(reg, code, 0);
    if i < |reg| then i else unknownError
  }

  /** The lookup as the runtime runs it: a scan over the registered types. */
  method ErrorTypeFromCode(reg: Registry, code: int, unknownError: TypeRef) returns (t: TypeRef)
    requires unknownError < |reg|
    ensures t == TypeFromCode(reg, code, unknownError)
  {
    var i := 0;
    while i < |reg| && reg[i].code != code
      invariant 0 <= i <= |reg|
      invariant FindCode(reg, code, i) == FindCode(reg, code, 0)
    {
      i := i + 1;
    }
    t := if i < |reg| then i else unknownError;
  }

  /** The error types the runtime itself names. */
  datatype Known = Known(assertError: TypeRef, unknownError: TypeRef, unhandledError: TypeRef)

  predicate KnownIn(reg: Registry, k: Known)
  {
    k.assertError < |reg| && k.unknownError < |reg| && k.unhandledError < |reg|
    && reg[k.assertError].fatal
  }
}
