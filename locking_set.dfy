/** A set of distinct elements; the source's lock is elided, each call is one atomic step. */
module LockingSets {

  class LockingSet<T(==)> {
    var elements: set<T>

    constructor ()
      ensures elements == {}
    {
      elements := {};
    }

    /** `values`: a copy of the members. */
    function Values(): set<T>
      reads this
    {
      elements
    }

    /** Afterwards `value` is a member; no other element's membership changes, and a present value changes nothing. */
    method Insert(value: T)
      modifies this
      ensures value in elements
      ensures forall x :: x != value ==> (x in elements <==> x in old(elements))
      ensures value in old(elements) ==> elements == old(elements)
    {
      elements := elements + {value};
    }

    /** Afterwards `value` is not a member; no other element's membership changes. */
    method Remove(value: T)
      modifies this
      ensures value !in elements
      ensures forall x :: x != value ==> (x in elements <==> x in old(elements))
    {
      elements := elements - {value};
    }

    /** `contains`: membership in `values`. */
    method Contains(value: T) returns (present: bool)
      ensures present <==> value in Values()
    {
      present := value in elements;
    }
  }
}
