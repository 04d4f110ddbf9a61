/** The append-only message history used as a store in tests. */
module InMemoryDb {
  import opened DbModels

  function Min(a: int, b: int): (r: int)
    ensures r <= a && r <= b
    ensures r == a || r == b
  {
    if a < b then a else b
  }

  class InMemoryDatabase {
    var history: seq<Message>

    /** NewInMemoryDatabase: an empty history. */
    constructor ()
      ensures history == []
    {
      history := [];
    }

    /**
     * Both time bounds are ignored: the answer is the oldest `limit` messages in
     * insertion order (all of them when there are fewer). A negative limit makes
     * the slice expression fail, so callers must not pass one.
     */
    function GetMessagesBetween(from: int, to: int, limit: int): (r: seq<Message>)
      reads this
      requires limit >= 0
      ensures |r| <= limit && |r| <= |history|
      ensures |r| == limit || |r| == |history|
      ensures forall i :: 0 <= i < |r| ==> r[i] == history[i]
    {
      history[..Min(|history|, limit)]
    }

    /** Appends a copy of the message at the end of the history. */
    method InsertMessage(m: Message)
      modifies this
      ensures history == old(history) + [m]
    {
      history := history + [m];
    }
  }

  /**
   * The package tests, for any bounds: an empty store answers nothing; after inserting
   * `ms` (at most 50 messages) a limit of 0 answers nothing and a limit of 50 answers all
   * of them, oldest first.
   */
  method HistoryTests(ms: seq<Message>, a: int, b: int) returns (empty: seq<Message>, none: seq<Message>, all: seq<Message>)
    requires |ms| <= 50
    ensures empty == [] && none == [] && all == ms
  {
    var db := new InMemoryDatabase();
    empty := db.GetMessagesBetween(a, b, 50);
    var i := 0;
    while i < |ms|
      invariant 0 <= i <= |ms|
      invariant db.history == ms[..i]
    {
      db.InsertMessage(ms[i]);
      i := i + 1;
    }
    assert ms[..i] == ms;
    none := db.GetMessagesBetween(a, b, 0);
    all := db.GetMessagesBetween(a, b, 50);
  }
}
