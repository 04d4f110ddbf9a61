/**
 * The named lifecycle tracker (WaitGroupCounter): a visible counter, the set of names
 * of tasks in flight, and the count held by the underlying wait group.
 *
 * `TrackerState` is the value of the three fields; `AddSpec` and `DoneSpec` say what
 * `Add` and `Done` do to it, and the class methods are proved to follow them.
 */
module WaitGroups {
  import opened Wrappers

  datatype TrackerState = TrackerState(counter: int, names: set<string>, pending: int)

  /** A freshly made tracker. */
  function Fresh(): TrackerState
  {
    TrackerState(0, {}, 0)
  }

  /**
   * Add: the visible counter always moves by `delta`; the name set and the wait-group
   * count change only when `name` is not tracked yet.
   */
  function AddSpec(s: TrackerState, delta: int, name: string): TrackerState
  {
    if name in s.names then s.(counter := s.counter + delta)
    else TrackerState(s.counter + delta, s.names + {name}, s.pending + delta)
  }

  /** Done: one task fewer on both counts, and `name` forgotten. */
  function DoneSpec(s: TrackerState, name: string): TrackerState
  {
    TrackerState(s.counter - 1, s.names - {name}, s.pending - 1)
  }

  /** The wait-group count never goes negative and never exceeds the visible counter. */
  predicate Consistent(s: TrackerState)
  {
    0 <= s.pending <= s.counter
  }

  /** The only states in which Wait returns. */
  predicate Drained(s: TrackerState)
  {
    s.pending == 0
  }

  lemma AddKeepsConsistent(s: TrackerState, delta: int, name: string)
    requires Consistent(s) && delta >= 0
    ensures Consistent(AddSpec(s, delta, name))
  {
  }

  lemma DoneKeepsConsistent(s: TrackerState, name: string)
    requires Consistent(s) && s.pending > 0
    ensures Consistent(DoneSpec(s, name))
  {
  }

  /** Adding a name that is already tracked moves only the visible counter. */
  lemma AddTrackedNameOnlyBumpsCounter(s: TrackerState, delta: int, name: string)
    requires name in s.names
    ensures AddSpec(s, delta, name).counter == s.counter + delta
    ensures AddSpec(s, delta, name).names == s.names
    ensures AddSpec(s, delta, name).pending == s.pending
  {
  }

  /** The three unit tests: Add(1, n) gives counter 1; Add(1, n) then Done(n) gives 0 and drains. */
  lemma AddThenDoneOnFresh(n: string)
    ensures AddSpec(Fresh(), 1, n).counter == 1
    ensures DoneSpec(AddSpec(Fresh(), 1, n), n) == Fresh()
    ensures Drained(DoneSpec(AddSpec(Fresh(), 1, n), n))
  {
  }

  /**
   * Adding the same name twice and then finishing it once drains the wait group but
   * leaves the visible counter at 1: Add is not idempotent on the counter.
   */
  lemma DuplicateAddLeavesCounterBehind(n: string)
    ensures var s := DoneSpec(AddSpec(AddSpec(Fresh(), 1, n), 1, n), n);
      s.counter == 1 && s.pending == 0 && s.names == {}
  {
  }

  /** Adds one task per name, in order. */
  function AddEach(s: TrackerState, ns: seq<string>): TrackerState
    decreases |ns|
  {
    if ns == [] then s else AddEach(AddSpec(s, 1, ns[0]), ns[1..])
  }

  /** Finishes one task per name, in order. */
  function DoneEach(s: TrackerState, ns: seq<string>): TrackerState
    decreases |ns|
  {
    if ns == [] then s else DoneEach(DoneSpec(s, ns[0]), ns[1..])
  }

  predicate DistinctNames(ns: seq<string>)
  {
    forall i, j :: 0 <= i < j < |ns| ==> ns[i] != ns[j]
  }

  lemma {:induction false} AddEachFreshNames(s: TrackerState, ns: seq<string>)
    requires DistinctNames(ns)
    requires forall i :: 0 <= i < |ns| ==> ns[i] !in s.names
    ensures AddEach(s, ns) == TrackerState(s.counter + |ns|, s.names + (set n | n in ns), s.pending + |ns|)
    decreases |ns|
  {
    if ns != [] {
      var t := AddSpec(s, 1, ns[0]);
      assert forall i :: 0 <= i < |ns[1..]| ==> ns[1..][i] !in t.names by {
        forall i | 0 <= i < |ns[1..]| ensures ns[1..][i] !in t.names {
          assert ns[1..][i] == ns[i + 1];
        }
      }
      AddEachFreshNames(t, ns[1..]);
      assert (set n | n in ns) == {ns[0]} + set n | n in ns[1..];
    }
  }

  lemma {:induction false} DoneEachRemoves(s: TrackerState, ns: seq<string>)
    ensures DoneEach(s, ns) == TrackerState(s.counter - |ns|, s.names - (set n | n in ns), s.pending - |ns|)
    decreases |ns|
  {
    if ns != [] {
      DoneEachRemoves(DoneSpec(s, ns[0]), ns[1..]);
      assert (set n | n in ns) == {ns[0]} + set n | n in ns[1..];
    }
  }

  /**
   * No task leak: when every task registers under its own name and finishes once, the
   * tracker returns to its fresh state, so Wait returns and no name is left over.
   */
  lemma NoLeakWithDistinctNames(ns: seq<string>)
    requires DistinctNames(ns)
    ensures AddEach(Fresh(), ns).pending == |ns|
    ensures DoneEach(AddEach(Fresh(), ns), ns) == Fresh()
  {
    AddEachFreshNames(Fresh(), ns);
    DoneEachRemoves(AddEach(Fresh(), ns), ns);
  }

  /** Finishing a task that was just started under a fresh name undoes the start. */
  lemma AddThenDoneRestores(s: TrackerState, n: string)
    requires n !in s.names
    ensures DoneSpec(AddSpec(s, 1, n), n) == s
  {
  }

  /** One step of a task's life as the tracker sees it: it starts, or it finishes. */
  datatype TaskEvent = Started(name: string) | Finished(name: string)

  function Step(s: TrackerState, e: TaskEvent): TrackerState
  {
    match e
    case Started(n) => AddSpec(s, 1, n)
    case Finished(n) => DoneSpec(s, n)
  }

  /** The tracker after the events of `trace`, in order. */
  function Run(s: TrackerState, trace: seq<TaskEvent>): TrackerState
    decreases |trace|
  {
    if trace == [] then s else Run(Step(s, trace[0]), trace[1..])
  }

  /**
   * The callers' side of the contract: a task starts only under a name that is not in
   * flight and finishes only under a name that is. A name may be reused once its
   * earlier task has finished.
   */
  predicate WellFormed(s: TrackerState, trace: seq<TaskEvent>)
    decreases |trace|
  {
    trace == [] ||
    (&& (match trace[0]
         case Started(n) => n !in s.names
         case Finished(n) => n in s.names)
     && WellFormed(Step(s, trace[0]), trace[1..]))
  }

  /** Both counts equal the number of tasks in flight. */
  predicate Balanced(s: TrackerState)
  {
    s.counter == s.pending == |s.names|
  }

  lemma BalancedIsConsistent(s: TrackerState)
    requires Balanced(s)
    ensures Consistent(s)
  {
  }

  lemma StepKeepsBalanced(s: TrackerState, e: TaskEvent)
    requires Balanced(s)
    requires e.Started? ==> e.name !in s.names
    requires e.Finished? ==> e.name in s.names
    ensures Balanced(Step(s, e))
  {
    if e.Started? {
      assert |s.names + {e.name}| == |s.names| + 1;
    } else {
      assert |s.names - {e.name}| == |s.names| - 1;
    }
  }

  /**
   * However starts and finishes interleave, as long as names are unique among the tasks
   * in flight, every prefix of the run leaves the tracker balanced, so the wait group
   * never goes below zero and Done is never called on an empty group.
   */
  lemma {:induction false} WellFormedRunStaysBalanced(s: TrackerState, trace: seq<TaskEvent>)
    requires Balanced(s) && WellFormed(s, trace)
    ensures forall k | 0 <= k <= |trace| :: Balanced(Run(s, trace[..k]))
    ensures forall k | 0 <= k < |trace| && trace[k].Finished? :: Run(s, trace[..k]).pending > 0
    decreases |trace|
  {
    if trace != [] {
      var t := Step(s, trace[0]);
      StepKeepsBalanced(s, trace[0]);
      WellFormedRunStaysBalanced(t, trace[1..]);
      forall k | 0 <= k <= |trace| ensures Balanced(Run(s, trace[..k])) {
        if k > 0 {
          assert trace[..k][0] == trace[0] && trace[..k][1..] == trace[1..][..k - 1];
        }
      }
      forall k | 0 <= k < |trace| && trace[k].Finished? ensures Run(s, trace[..k]).pending > 0 {
        if k > 0 {
          assert trace[..k][0] == trace[0] && trace[..k][1..] == trace[1..][..k - 1];
          assert trace[1..][k - 1] == trace[k];
        }
      }
    }
  }

  /**
   * No task leak: a well-formed run from a fresh tracker that ends with no name in
   * flight leaves the tracker exactly as fresh, so Wait returns.
   */
  lemma WellFormedRunEndsFresh(trace: seq<TaskEvent>)
    requires WellFormed(Fresh(), trace) && Run(Fresh(), trace).names == {}
    ensures Run(Fresh(), trace) == Fresh()
    ensures Drained(Run(Fresh(), trace))
  {
    WellFormedRunStaysBalanced(Fresh(), trace);
    assert trace[..|trace|] == trace;
  }

  /**
   * Without unique names the tracker goes wrong: two overlapping tasks under one name
   * leave one wait-group slot, and the second finish takes the count below zero, which
   * the Go wait group refuses by panicking.
   */
  lemma OverlappingReuseGoesNegative(n: string)
    ensures var trace := [Started(n), Started(n), Finished(n), Finished(n)];
      && !WellFormed(Fresh(), trace)
      && Run(Fresh(), trace[..3]).pending == 0
      && Run(Fresh(), trace).pending == -1
  {
    var trace := [Started(n), Started(n), Finished(n), Finished(n)];
    var s1, s2, s3, s4 := TrackerState(1, {n}, 1), TrackerState(2, {n}, 1), TrackerState(1, {}, 0), TrackerState(0, {}, -1);
    assert Step(s2, Finished(n)) == s3 && Step(s3, Finished(n)) == s4;
    assert Run(s3, [Finished(n)]) == s4 && Run(s2, [Finished(n)]) == s3;
    assert Run(s2, [Finished(n), Finished(n)]) == s4 by {
      assert [Finished(n), Finished(n)][1..] == [Finished(n)];
    }
    assert Run(s1, [Started(n), Finished(n), Finished(n)]) == s4 by {
      assert [Started(n), Finished(n), Finished(n)][1..] == [Finished(n), Finished(n)];
    }
    assert trace[1..] == [Started(n), Finished(n), Finished(n)];
    assert Run(s1, [Started(n), Finished(n)]) == s3 by {
      assert [Started(n), Finished(n)][1..] == [Finished(n)];
    }
    assert trace[..3][1..] == [Started(n), Finished(n)];
    assert Step(Fresh(), Started(n)) == s1;
    assert Run(Fresh(), trace) == Run(s1, trace[1..]);
    assert Run(Fresh(), trace[..3]) == Run(s1, trace[..3][1..]);
  }

  class WaitGroupCounter {
    /** The visible counter. */
    var Counter: int
    /** Names of the tasks in flight. */
    var Names: set<string>
    /** The count held by the underlying wait group. */
    var WaitGroup: int

    function State(): TrackerState
      reads this
    {
      TrackerState(Counter, Names, WaitGroup)
    }

    ghost predicate Valid()
      reads this
    {
      Consistent(State())
    }

    /** NewWaitGroupCounter. */
    constructor ()
      ensures State() == Fresh() && Valid()
    {
      Counter, Names, WaitGroup := 0, {}, 0;
    }

    /** Registers a task; `delta` must not be negative. Always reports no error. */
    method Add(delta: int, name: string) returns (err: Option<string>)
      requires Valid() && delta >= 0
      modifies this
      ensures Valid()
      ensures State() == AddSpec(old(State()), delta, name)
      ensures err == None
    {
      Counter := Counter + delta;
      if name in Names {
        return None;
      }
      Names := Names + {name};
      WaitGroup := WaitGroup + delta;
      return None;
    }

    /** Finishes a task; the wait group refuses to go below zero. */
    method Done(name: string)
      requires Valid() && WaitGroup > 0
      modifies this
      ensures Valid()
      ensures State() == DoneSpec(old(State()), name)
    {
      Counter := Counter - 1;
      Names := Names - {name};
      WaitGroup := WaitGroup - 1;
    }

    /**
     * Wait blocks until the wait-group count is zero. With no other task to run, the
     * sequential model can only return from it in a drained state.
     */
    method Wait()
      requires Drained(State())
      ensures Drained(State())
    {
    }
  }
}
