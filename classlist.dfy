/** The `active` CSS class over an ordered list of sibling elements, one flag per element. */
module ClassList {

  /** Exactly the element at index `k` carries the class. */
  predicate OnlyActive(flags: seq<bool>, k: nat) {
    k < |flags| && forall i :: 0 <= i < |flags| ==> flags[i] == (i == k)
  }

  /** No element carries the class. */
  predicate NoneActive(flags: seq<bool>) {
    forall i :: 0 <= i < |flags| ==> !flags[i]
  }
}
