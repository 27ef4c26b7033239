/** The nesting that kernel/mutex.c asks of its callers, measured against what is needed, and runs in which threads are left behind. */
module MutexCases {
  import opened Lists
  import opened MutexModel
  import opened MutexRuns
  import opened MutexInheritance
  import opened MutexNesting

  // ----- The documented nesting -----

  /** The mutex calls for more than it recorded. */
  ghost predicate Contributes(s: State, m: nat) { m < |s.mutexes| && s.mutexes[m].called < s.mutexes[m].orig }

  /**
   What the source asks for: a mutex raises its owner only if nothing else has raised the owner since it was taken, and
   mutexes that contribute are released in the reverse order of taking them.
   */
  ghost predicate Documented(s: State, step: Step)
    requires Enabled(s, step)
  {
    match step
    case DoLock(t, m, noWait) =>
      LockCode(s, t, m, noWait).None? && s.mutexes[m].owner.Some? && s.threads[t].prio < Prio(s.threads, s.mutexes[m].owner.value) ==>
        s.mutexes[m].called == Prio(s.threads, s.mutexes[m].owner.value)
    case DoUnlock(t, m) =>
      UnlockCode(s, t, m) == 0 && s.mutexes[m].count == 1 && Contributes(s, m) ==>
        forall i, j :: 0 <= i < j < |s.threads[t].owned| && s.threads[t].owned[i] == m ==> !Contributes(s, s.threads[t].owned[j])
    case DoTimeout(_) => true
    case DoAdjust(_) => true
  }

  /** Whoever keeps the chains right nests as documented. */
  lemma FollowsDocumented(s: State, step: Step)
    requires Regular(s) && Nested(s) && Enabled(s, step) && Follows(s, step)
    ensures Documented(s, step)
  {
    match step
    case DoLock(t, m, noWait) =>
      if LockCode(s, t, m, noWait).None? {
        assert MutexOk(m, s.mutexes[m], s.threads);
        OwnerCalled(s, s.mutexes[m].owner.value, m);
      }
    case DoUnlock(t, m) =>
      if UnlockCode(s, t, m) == 0 && s.mutexes[m].count == 1 {
        OwnerCalled(s, t, m);
        if Newest(s.threads[t], m) {
          var a, b := SplitAt(s, t, m);
          hide Structure, Unclamped, Raising, Nested, Removed;
          forall i | 0 <= i < |s.threads[t].owned| - 1 ensures s.threads[t].owned[i] != m {
            assert s.threads[t].owned[i] == a[i] && a[i] in a;
          }
        }
      }
    case DoTimeout(_) =>
    case DoAdjust(_) =>
  }

  ghost predicate AllDocumented(s: State, steps: seq<Step>)
    decreases |steps|
  {
    steps == [] || ((Enabled(s, steps[0]) ==> Documented(s, steps[0])) && AllDocumented(Next(s, steps[0]), steps[1..]))
  }

  // ----- Runs -----

  lemma RunFour(s: State, steps: seq<Step>)
    requires |steps| == 4
    ensures Run(s, steps) == Next(Next(Next(Next(s, steps[0]), steps[1]), steps[2]), steps[3])
  {
    hide Next;
    var s1 := Next(s, steps[0]);
    var s2 := Next(s1, steps[1]);
    var s3 := Next(s2, steps[2]);
    assert Run(s, steps) == Run(s1, steps[1..]);
    assert Run(s1, steps[1..]) == Run(s2, steps[1..][1..]);
    assert Run(s2, steps[1..][1..]) == Run(s3, steps[1..][1..][1..]);
    assert steps[1..][1..][1..] == [steps[3]];
    assert Run(s3, [steps[3]]) == Next(s3, steps[3]);
  }

  lemma AllDocumentedFour(s: State, steps: seq<Step>)
    requires |steps| == 4
    requires var s1 := Next(s, steps[0]);
      var s2 := Next(s1, steps[1]);
      var s3 := Next(s2, steps[2]);
      && (Enabled(s, steps[0]) ==> Documented(s, steps[0])) && (Enabled(s1, steps[1]) ==> Documented(s1, steps[1]))
      && (Enabled(s2, steps[2]) ==> Documented(s2, steps[2])) && (Enabled(s3, steps[3]) ==> Documented(s3, steps[3]))
    ensures AllDocumented(s, steps)
  {
    hide Next, Documented, Enabled;
    var s1 := Next(s, steps[0]);
    var s2 := Next(s1, steps[1]);
    var s3 := Next(s2, steps[2]);
    var r1, r2, r3 := steps[1..], steps[1..][1..], steps[1..][1..][1..];
    assert r3 == [steps[3]] && r3[1..] == [];
    assert AllDocumented(s3, r3);
    assert AllDocumented(s2, r2);
    assert AllDocumented(s1, r1);
  }

  /** A thread that neither waits nor has anything to readjust. */
  function Running(prio: int, base: int, owned: seq<nat>): Thread { Thread(prio, None, None, base, owned) }

  function Waiter(prio: int, m: nat, base: int, owned: seq<nat>): Thread { Thread(prio, Some(m), None, base, owned) }

  const FREE := Mutex(None, 0, 0, 0, [])

  /** Three threads of priorities 5, 2 and 3, and two free mutexes. */
  const START := State(-10, [Running(5, 5, []), Running(2, 2, []), Running(3, 3, [])], [FREE, FREE])

  /** The first thread has taken both. */
  const BOTH := State(-10, [Running(5, 5, [0, 1]), Running(2, 2, []), Running(3, 3, [])],
                      [Mutex(Some(0), 1, 5, 5, []), Mutex(Some(0), 1, 5, 5, [])])

  /** And the second waits for the first mutex. */
  const RAISED := State(-10, [Running(2, 5, [0, 1]), Waiter(2, 0, 2, []), Running(3, 3, [])],
                        [Mutex(Some(0), 1, 5, 2, [1]), Mutex(Some(0), 1, 5, 5, [])])

  /** And the third for the second. */
  const CONTENDED := State(-10, [Running(2, 5, [0, 1]), Waiter(2, 0, 2, []), Waiter(3, 1, 3, [])],
                           [Mutex(Some(0), 1, 5, 2, [1]), Mutex(Some(0), 1, 5, 3, [2])])

  lemma TakeBoth()
    ensures Next(START, DoLock(0, 0, false)) == State(-10, [Running(5, 5, [0]), Running(2, 2, []), Running(3, 3, [])],
                                                      [Mutex(Some(0), 1, 5, 5, []), FREE])
    ensures Next(Next(START, DoLock(0, 0, false)), DoLock(0, 1, false)) == BOTH
  {
    var s := Next(START, DoLock(0, 0, false));
    assert s.threads[0].owned == [0];
    var u := Next(s, DoLock(0, 1, false));
    assert u.threads[0].owned == [0, 1];
  }

  lemma SecondWaits()
    ensures Next(BOTH, DoLock(1, 0, false)) == RAISED
  {
    var u := Next(BOTH, DoLock(1, 0, false));
    assert u.mutexes[0].waiters == [1];
  }

  lemma ThirdWaits()
    ensures Next(RAISED, DoLock(2, 1, false)) == CONTENDED
  {
    var u := Next(RAISED, DoLock(2, 1, false));
    assert u.mutexes[1].waiters == [2];
  }

  lemma ContendedServed()
    ensures Served(CONTENDED) && Drops(CONTENDED, DoUnlock(0, 0))
    ensures !Documented(CONTENDED, DoUnlock(0, 0)) && !Follows(CONTENDED, DoUnlock(0, 0))
  {
    var s := CONTENDED;
    assert Serves(s.threads, s.mutexes[0]) && Serves(s.threads, s.mutexes[1]);
    assert Prio(s.threads, s.mutexes[1].waiters[0]) < 5;
    assert Owns(s, 0, 1) && Beaten(s, 1, 5) && BeatenElsewhere(s, 0, 0, 5);
    assert Contributes(s, s.threads[0].owned[1]) && s.threads[0].owned[0] == 0;
  }

  /** Whoever waits first for mutex `m` is better than the owner. */
  lemma LeftBehind(s: State, m: nat)
    requires m < |s.mutexes| && s.mutexes[m].owner.Some? && s.mutexes[m].waiters != []
    requires Prio(s.threads, s.mutexes[m].waiters[0]) < Prio(s.threads, s.mutexes[m].owner.value)
    ensures !Served(s)
  {
    hide Prio;
    assert 0 < |s.mutexes[m].waiters| && !Serves(s.threads, s.mutexes[m]);
  }

  lemma ContendedReleased()
    ensures !Served(Next(CONTENDED, DoUnlock(0, 0)))
  {
    hide Served;
    var s := CONTENDED;
    var u := Next(s, DoUnlock(0, 0));
    assert u == HandOff(Restore(s, 0, 0), 0);
    assert u.mutexes[1] == s.mutexes[1] && u.threads[0].prio == 5 && u.threads[2].prio == 3;
    LeftBehind(u, 1);
  }

  /**
   Releasing in the order of taking.  The first thread owns both mutexes, the second waits for the first one and the third for
   the second one.  Unlocking the first mutex meets the failing condition: the thread falls back to 5 although the third still
   waits at 3.  The documented nesting forbids it.
   */
  lemma TwoMutexes()
    ensures Run(START, [DoLock(0, 0, false), DoLock(0, 1, false), DoLock(1, 0, false), DoLock(2, 1, false)]) == CONTENDED
    ensures Served(CONTENDED) && Drops(CONTENDED, DoUnlock(0, 0)) && !Served(Next(CONTENDED, DoUnlock(0, 0)))
    ensures !Documented(CONTENDED, DoUnlock(0, 0)) && !Follows(CONTENDED, DoUnlock(0, 0))
  {
    ContendedServed();
    ContendedReleased();
    hide Next, Served, Drops, Documented, Follows;
    TakeBoth();
    SecondWaits();
    ThirdWaits();
    RunFour(START, [DoLock(0, 0, false), DoLock(0, 1, false), DoLock(1, 0, false), DoLock(2, 1, false)]);
  }

  lemma RaisedReleased()
    ensures !Served(Next(RAISED, DoUnlock(0, 1))) && Drops(RAISED, DoUnlock(0, 1))
  {
    hide Served;
    var u := Next(RAISED, DoUnlock(0, 1));
    assert u == HandOff(Restore(RAISED, 0, 1), 1);
    assert u.threads[0].prio == 5 && u.threads[1].prio == 2 && u.mutexes[0] == RAISED.mutexes[0];
    LeftBehind(u, 0);
    assert Prio(RAISED.threads, RAISED.mutexes[0].waiters[0]) < 5;
    assert Owns(RAISED, 0, 0) && Beaten(RAISED, 0, 5) && BeatenElsewhere(RAISED, 0, 1, 5);
  }

  /**
   The documented nesting is not enough.  Only the first mutex raises its owner, and the second one, taken before that and never
   waited for, is released first, in reverse order; yet this gives the thread back the priority that the second mutex recorded,
   5, while the second thread still waits for the first mutex at 2.
   */
  lemma DocumentedNotEnough()
    ensures var steps := [DoLock(0, 0, false), DoLock(0, 1, false), DoLock(1, 0, false), DoUnlock(0, 1)];
      AllDocumented(START, steps) && !Served(Run(START, steps))
    ensures Drops(RAISED, DoUnlock(0, 1)) && !Follows(BOTH, DoLock(1, 0, false))
  {
    var steps := [DoLock(0, 0, false), DoLock(0, 1, false), DoLock(1, 0, false), DoUnlock(0, 1)];
    assert Documented(RAISED, DoUnlock(0, 1));
    assert Documented(BOTH, DoLock(1, 0, false)) && !Follows(BOTH, DoLock(1, 0, false));
    hide Served, Drops, AllDocumented, Run;
    TakeBoth();
    assert Documented(START, DoLock(0, 0, false)) && Documented(Next(START, DoLock(0, 0, false)), DoLock(0, 1, false));
    hide Next, Documented, Follows;
    SecondWaits();
    RunFour(START, steps);
    RaisedReleased();
    AllDocumentedFour(START, steps);
  }

  // ----- An owner that waits -----

  /** Threads of priorities 4, 5 and 1, and two free mutexes. */
  const APART := State(-10, [Running(4, 4, []), Running(5, 5, []), Running(1, 1, [])], [FREE, FREE])

  /** The second thread has taken the second mutex and the first thread the first one. */
  const ONE_EACH := State(-10, [Running(4, 4, [0]), Running(5, 5, [1]), Running(1, 1, [])],
                          [Mutex(Some(0), 1, 4, 4, []), Mutex(Some(1), 1, 5, 5, [])])

  /** And the first thread waits for the second mutex. */
  const LINKED := State(-10, [Waiter(4, 1, 4, [0]), Running(4, 5, [1]), Running(1, 1, [])],
                        [Mutex(Some(0), 1, 4, 4, []), Mutex(Some(1), 1, 5, 4, [0])])

  lemma TakeOneEach()
    ensures Next(Next(APART, DoLock(1, 1, false)), DoLock(0, 0, false)) == ONE_EACH
  {
    var s := Next(APART, DoLock(1, 1, false));
    assert s.threads[1].owned == [1];
    var u := Next(s, DoLock(0, 0, false));
    assert u.threads[0].owned == [0];
  }

  lemma FirstWaits()
    ensures Next(ONE_EACH, DoLock(0, 1, false)) == LINKED
  {
    var s := ONE_EACH;
    var r := Raise(s, 0, 1);
    assert r == s.(threads := s.threads[1 := Running(4, 5, [1])]);
    assert Enter(r, 0, 1).mutexes[1].waiters == [0];
    assert Enter(r, 0, 1).threads[0] == Waiter(4, 1, 4, [0]);
  }

  lemma LinkedServed()
    ensures Served(LINKED) && Drops(LINKED, DoLock(2, 0, false))
  {
    assert Serves(LINKED.threads, LINKED.mutexes[0]) && Serves(LINKED.threads, LINKED.mutexes[1]);
  }

  lemma LinkedRaised()
    ensures var u := Next(LINKED, DoLock(2, 0, false)); u.threads[0].prio == 1 && u.threads[1].prio == 4 && !Served(u)
  {
    hide Served, Rank;
    var u := Next(LINKED, DoLock(2, 0, false));
    assert u == Enter(Raise(LINKED, 2, 0), 2, 0);
    assert u.mutexes[1] == LINKED.mutexes[1] && u.threads[0].prio == 1 && u.threads[1].prio == 4;
    LeftBehind(u, 1);
  }

  /**
   Raising goes no further than the owner.  The first thread, at 4, owns the first mutex and waits for the second one, whose
   owner is raised to 4.  The third thread, at 1, waits for the first mutex: the first thread becomes 1, and the owner it waits
   for stays at 4.
   */
  lemma Transitive()
    ensures Run(APART, [DoLock(1, 1, false), DoLock(0, 0, false), DoLock(0, 1, false)]) == LINKED
    ensures Served(LINKED) && Drops(LINKED, DoLock(2, 0, false))
    ensures var u := Next(LINKED, DoLock(2, 0, false)); u.threads[0].prio == 1 && u.threads[1].prio == 4 && !Served(u)
  {
    LinkedServed();
    LinkedRaised();
    hide Next, Served, Drops;
    TakeOneEach();
    FirstWaits();
    var steps := [DoLock(1, 1, false), DoLock(0, 0, false), DoLock(0, 1, false)];
    assert Run(APART, steps) == Run(Next(APART, steps[0]), steps[1..]);
    assert Run(Next(APART, steps[0]), steps[1..]) == Run(ONE_EACH, steps[1..][1..]);
    assert steps[1..][1..] == [steps[2]];
    assert Run(ONE_EACH, [steps[2]]) == Next(ONE_EACH, steps[2]);
  }

  // ----- Readjusting late -----

  const PAIR := State(-10, [Running(5, 5, []), Running(2, 2, [])], [FREE])

  /** The second thread waits for the mutex of the first. */
  const PENDED := State(-10, [Running(2, 5, [0]), Waiter(2, 0, 2, [])], [Mutex(Some(0), 1, 5, 2, [1])])

  /** It has waited in vain, and the owner keeps its priority. */
  const VAIN := State(-10, [Running(2, 5, [0]), Thread(2, None, Some(0), 2, [])], [Mutex(Some(0), 1, 5, 2, [])])

  lemma PairWaits()
    ensures Next(Next(PAIR, DoLock(0, 0, false)), DoLock(1, 0, false)) == PENDED
  {
    var s := Next(PAIR, DoLock(0, 0, false));
    assert s.threads[0].owned == [0];
    var u := Next(s, DoLock(1, 0, false));
    assert u.mutexes[0].waiters == [1];
  }

  lemma PairTimedOut()
    ensures Next(PENDED, DoTimeout(1)) == VAIN
  {
    assert Removed([1], 1) == [];
  }

  /**
   Between the two sections of a timeout the owner keeps the priority of the thread that is gone.  If the readjustment comes next
   the owner is back at 5; if the owner unlocks first there is no owner left to readjust, and the readjustment is undefined.
   */
  lemma TooLate()
    ensures Run(PAIR, [DoLock(0, 0, false), DoLock(1, 0, false), DoTimeout(1)]) == VAIN
    ensures Next(VAIN, DoAdjust(1)).threads[0].prio == 5
    ensures var u := Next(VAIN, DoUnlock(0, 0));
      u.mutexes[0].owner.None? && u.threads[1].adjusts == Some(0) && !Enabled(u, DoAdjust(1))
  {
    assert Unlock(VAIN, 0, 0) == HandOff(Restore(VAIN, 0, 0), 0);
    hide Removed;
    assert Next(VAIN, DoAdjust(1)).threads[0].prio == 5;
    assert Next(VAIN, DoUnlock(0, 0)).mutexes[0].owner.None?;
    hide Next;
    PairWaits();
    PairTimedOut();
    var steps := [DoLock(0, 0, false), DoLock(1, 0, false), DoTimeout(1)];
    assert Run(PAIR, steps) == Run(Next(PAIR, steps[0]), steps[1..]);
    assert Run(Next(PAIR, steps[0]), steps[1..]) == Run(PENDED, steps[1..][1..]);
    assert steps[1..][1..] == [steps[2]];
    assert Run(PENDED, [steps[2]]) == Next(PENDED, steps[2]);
  }

  // ----- The ceiling -----

  const ABOVE := State(0, [Running(-1, -1, []), Running(3, 3, []), Running(4, 4, [])], [FREE])

  const ABOVE_TWO := State(0, [Running(-1, -1, [0]), Waiter(3, 0, 3, []), Running(4, 4, [])], [Mutex(Some(0), 1, -1, -1, [1])])

  const ABOVE_THREE := State(0, [Running(-1, -1, [0]), Waiter(3, 0, 3, []), Waiter(4, 0, 4, [])], [Mutex(Some(0), 1, -1, -1, [1, 2])])

  lemma AboveTwo()
    ensures Next(Next(ABOVE, DoLock(0, 0, false)), DoLock(1, 0, false)) == ABOVE_TWO
  {
    var s := Next(ABOVE, DoLock(0, 0, false));
    assert s.threads[0].owned == [0];
    var u := Next(s, DoLock(1, 0, false));
    assert u.mutexes[0].waiters == [1];
  }

  lemma AboveThree()
    ensures Next(ABOVE_TWO, DoLock(2, 0, false)) == ABOVE_THREE
  {
    var s := ABOVE_TWO;
    assert Raise(s, 2, 0) == s;
    assert Rank(Prios(s.threads, s.mutexes[0].waiters), 4) == 1;
    assert Enter(s, 2, 0).mutexes[0].waiters == [1, 2];
  }

  lemma AboveTimedOut()
    ensures Next(Next(ABOVE_THREE, DoTimeout(2)), DoAdjust(2)).threads[0] == Running(0, -1, [0])
  {
    assert Removed([1, 2], 2) == [1];
    var s := Next(ABOVE_THREE, DoTimeout(2));
    assert s.mutexes[0].waiters == [1] && s.threads[2].adjusts == Some(0);
    assert Due(s, 0) == 0;
  }

  /**
   With a ceiling of 0, a thread of priority -1 owns a mutex for which threads of priorities 3 and 4 wait.  The last one times
   out and readjusts, and the owner ends at 0, worse than its own priority.
   */
  lemma CeilingRun()
    ensures var s := Run(ABOVE, [DoLock(0, 0, false), DoLock(1, 0, false), DoLock(2, 0, false), DoTimeout(2)]);
      s.threads[0] == Running(-1, -1, [0]) && Next(s, DoAdjust(2)).threads[0] == Running(0, -1, [0])
  {
    assert Next(ABOVE_THREE, DoTimeout(2)).threads[0] == Running(-1, -1, [0]) by {
      hide Removed;
    }
    hide Next;
    AboveTwo();
    AboveThree();
    AboveTimedOut();
    RunFour(ABOVE, [DoLock(0, 0, false), DoLock(1, 0, false), DoLock(2, 0, false), DoTimeout(2)]);
  }
}
