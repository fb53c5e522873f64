/**
  Collections.EMPTY_LIST against Collections.emptyList(), as EmptyListComparison
  checks them. Generic types are erased, so every list holds objects; the static
  state of java.util.Collections is an object whose EMPTY_LIST is assigned once.
*/
module EmptyLists {

  /** The outcome of List.add: the element was appended, or UnsupportedOperationException. */
  datatype AddResult = Added | UnsupportedOperation

  /** The `new Object()` that the immutability check tries to add. */
  class JavaObject {
    /** A new object: distinct from every object allocated before it. */
    constructor ()
      ensures fresh(this)
    {
    }
  }

  /**
    List.equals: element-by-element comparison in order, stopping at the first
    difference or at the end of the shorter list. Elements compare by identity,
    which is Object.equals for plain objects.
  */
  function SameElements(a: seq<object>, b: seq<object>): (r: bool)
    ensures r <==> a == b
  {
    if a == [] || b == [] then |a| == |b|
    else a[0] == b[0] && SameElements(a[1..], b[1..])
  }

  /** A java.util.List object: its elements, and whether it supports add. */
  class JavaList {
    var elements: seq<object>
    const addSupported: bool

    /** An empty list; Collections.EmptyList when addSupported is false. */
    constructor Empty(addSupported: bool)
      ensures elements == [] && this.addSupported == addSupported
    {
      elements := [];
      this.addSupported := addSupported;
    }

    /** List.size(): the number of elements. */
    function Size(): (n: nat)
      reads this
      ensures n == |elements|
    {
      |elements|
    }

    function Equals(other: JavaList): (r: bool)
      reads this, other
      ensures r <==> elements == other.elements
    {
      SameElements(elements, other.elements)
    }

    /** List.add(x): appends x, or throws UnsupportedOperationException and changes nothing. */
    method Add(x: object) returns (r: AddResult)
      modifies this
      ensures r == Added <==> addSupported
      ensures elements == if addSupported then old(elements) + [x] else old(elements)
    {
      if addSupported {
        elements := elements + [x];
        r := Added;
      } else {
        r := UnsupportedOperation;
      }
    }
  }

  /** The static part of java.util.Collections that the comparison uses. */
  class Collections {
    /** The shared empty list, assigned once when the class is initialised. */
    const EMPTY_LIST: JavaList

    ghost predicate Valid()
      reads this, EMPTY_LIST
    {
      EMPTY_LIST.elements == [] && !EMPTY_LIST.addSupported
    }

    constructor ()
      ensures Valid() && fresh(EMPTY_LIST)
    {
      EMPTY_LIST := new JavaList.Empty(false);
    }

    /** Collections.emptyList(): the EMPTY_LIST reference, cast to the caller's element type. */
    function EmptyList(): (l: JavaList)
      reads this, EMPTY_LIST
      requires Valid()
      ensures l == EMPTY_LIST
      ensures l.elements == [] && !l.addSupported
    {
      EMPTY_LIST
    }
  }

  /** checkIfBothListsAreEmpty: both access paths have size 0. */
  function CheckIfBothListsAreEmpty(c: Collections): (b: bool)
    reads c, c.EMPTY_LIST
    requires c.Valid()
    ensures b
  {
    c.EMPTY_LIST.Size() == 0 && c.EmptyList().Size() == 0
  }

  /** checkIfBothListsAreEquals: EMPTY_LIST.equals(emptyList()). */
  function CheckIfBothListsAreEquals(c: Collections): (b: bool)
    reads c, c.EMPTY_LIST
    requires c.Valid()
    ensures b
  {
    c.EMPTY_LIST.Equals(c.EmptyList())
  }

  /**
    checkIfListIsImmutable: tries to add a new object; the list is reported
    immutable exactly when add throws, and then it is left as it was.
  */
  method CheckIfListIsImmutable(list: JavaList) returns (immutable: bool)
    modifies list
    ensures immutable <==> !list.addSupported
    ensures immutable ==> list.elements == old(list.elements)
    ensures !immutable ==> |list.elements| == |old(list.elements)| + 1 &&
                           list.elements[..|old(list.elements)|] == old(list.elements) &&
                           fresh(list.elements[|old(list.elements)|])
  {
    var o := new JavaObject();
    var r := list.Add(o);
    immutable := r == UnsupportedOperation;
  }

  /**
    The checks of EmptyListComparison.main in order: equality, emptiness, then an
    add attempt on each access path. Both paths give the same reference, both
    reject the add, and the shared list is still empty afterwards.
  */
  method EmptyListTrace()
    returns (bothEqual: bool, bothEmpty: bool, sameReference: bool,
             fieldImmutable: bool, methodImmutable: bool, sizeAfter: nat)
    ensures bothEqual && bothEmpty && sameReference
    ensures fieldImmutable && methodImmutable
    ensures sizeAfter == 0
  {
    var c := new Collections();
    bothEqual := CheckIfBothListsAreEquals(c);
    bothEmpty := CheckIfBothListsAreEmpty(c);
    var first := c.EmptyList();
    var second := c.EmptyList();
    sameReference := first == second && first == c.EMPTY_LIST;
    fieldImmutable := CheckIfListIsImmutable(c.EMPTY_LIST);
    methodImmutable := CheckIfListIsImmutable(c.EmptyList());
    sizeAfter := c.EMPTY_LIST.Size();
  }
}
