/** The sequence that a linked list stands for, after one member is unlinked. */
module Sequences {

  function Cut<T>(xs: seq<T>, k: nat): seq<T>
    requires k < |xs|
  {
    xs[..k] + xs[k + 1..]
  }
}
