/** The transaction a store hands to the callback of UpdateAtomic. */
module Transactions {

  /**
   One attempt of one atomic update over a store whose documents form an S.

   The attempt works on its own snapshot, so an attempt the engine throws away after a conflict
   leaves no trace, and a caller that returns an error simply does not commit the view. A read
   that follows a write is refused by the engines in use; here it cannot be written down.
   */
  class Transaction<S> {
    var view: S
    ghost var written: bool

    constructor (snapshot: S)
      ensures view == snapshot && !written
    {
      view := snapshot;
      written := false;
    }

    method Get<V>(read: S -> V) returns (value: V)
      requires !written
      ensures value == read(view)
    {
      value := read(view);
    }

    method Put(write: S -> S)
      modifies this
      ensures view == write(old(view)) && written
    {
      view := write(view);
      written := true;
    }
  }
}
