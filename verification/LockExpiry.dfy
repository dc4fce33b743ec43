/** The lock lives 10 seconds, a fetch may take REQUEST_TIMEOUT = 30: what happens when a section
    outlives its lock, and that nothing else can break the lock. */
module LockExpiry {
  import opened Models
  import opened TokenCache
  import opened Paths
  import opened TokenProtocol

  /** Any step but the passing of time. */
  predicate TimelessStep(s: State, l: Label, t: State) {
    Transition(s, l, t) && !l.Tick?
  }

  /** From `s` to `t` without the clock moving. */
  ghost predicate AtOnce(s: State, t: State) {
    Goes(TimelessStep, s, t)
  }

  /** Two callers are inside at once. */
  ghost predicate Overlap(s: State) {
    exists i, j :: 0 <= i < j < |s.clients| && Inside(s.clients[i]) && Inside(s.clients[j])
  }

  /** A caller is inside although no lock is in the cache. */
  ghost predicate Unguarded(s: State) {
    LockSlot !in s.cache && exists i :: 0 <= i < |s.clients| && Inside(s.clients[i])
  }

  /** More tokens were fetched than were removed, lost in a crash, or are cached or about to be. */
  predicate Overfetched(s: State) {
    s.fetched > s.removed + s.lost + 1
  }

  // ----- in time: the lock holds -----

  /** Only the clock can make a section outlive its lock. */
  lemma StepStaysInTime(s: State, l: Label)
    requires InTime(s) && Enabled(s, l) && !l.Tick?
    ensures InTime(Next(s, l))
  {
  }

  /** What holds as long as no section has outlived its lock. */
  ghost predicate Orderly(s: State) {
    Exclusive(s) && NamedTokens(s) && Accounted(s) && InTime(s)
  }

  lemma StaysInTime(s: State, t: State)
    requires Orderly(s) && AtOnce(s, t)
    ensures Orderly(t)
  {
    forall u, l, v | TimelessStep(u, l, v) && Orderly(u)
      ensures Orderly(v)
    {
      StepStaysInTime(u, l);
      StepKeepsExclusive(u, l);
      StepKeepsNamedTokens(u, l);
      StepKeepsAccounts(u, l);
    }
    GoesKeeps(TimelessStep, Orderly, s, t);
  }

  lemma ExclusiveIsSafe(s: State)
    requires Exclusive(s)
    ensures !Overlap(s) && !Unguarded(s)
  {
    forall i | 0 <= i < |s.clients| && Inside(s.clients[i])
      ensures LockSlot in s.cache && s.cache[LockSlot].setter == i
    {
      assert LockAgrees(s, i);
    }
  }

  // ----- too late: it does not -----

  /** A client with a given program counter joins the others. */
  predicate Joined(s: State, t: State, pc: Pc) {
    t.now == s.now && t.clients == s.clients + [Client(Calling(pc), None)]
  }

  /** Tokens fetched beyond those lost, removed or still cached. */
  function Excess(s: State): int {
    s.fetched - s.lost - s.removed - (if TokenLive(s) then 1 else 0)
  }

  lemma NewcomerArrives(s0: State, s: State) returns (t: State)
    requires AtOnce(s0, s)
    ensures AtOnce(s0, t) && Joined(s, t, Start) && t.cache == s.cache - {TokenSlot} && Excess(t) == Excess(s)
  {
    var u := DropToken(s);
    GoesNext(TimelessStep, s0, s, Invalidate, u);
    t := u.(clients := u.clients + [Client(Calling(Start), None)]);
    GoesNext(TimelessStep, s0, u, Enter, t);
  }

  lemma NewcomerReads(s: State, t: State) returns (u: State)
    requires Joined(s, t, Start) && TokenSlot !in t.cache
    ensures Enabled(t, Act(|s.clients|, NoToken)) && Next(t, Act(|s.clients|, NoToken)) == u
    ensures Joined(s, u, Trying(0)) && u.cache == t.cache && Excess(u) == Excess(t)
  {
    u := Next(t, Act(|s.clients|, NoToken));
  }

  lemma NewcomerLocks(s: State, t: State) returns (u: State)
    requires Joined(s, t, Trying(0)) && TokenSlot !in t.cache && !Live(t.cache, LockSlot, t.now)
    ensures Enabled(t, Act(|s.clients|, NoToken)) && Next(t, Act(|s.clients|, NoToken)) == u
    ensures Joined(s, u, Holding(t.now + LOCK_TIMEOUT)) && TokenSlot !in u.cache && Excess(u) == Excess(t)
    ensures Owns(u, |s.clients|, t.now + LOCK_TIMEOUT)
  {
    u := Next(t, Act(|s.clients|, NoToken));
  }

  /** Where no live lock is in the cache a newcomer gets in: an invalidation, and three steps of its own. */
  lemma NewcomerGetsIn(s0: State, s: State) returns (t: State)
    requires AtOnce(s0, s) && !Live(s.cache, LockSlot, s.now)
    ensures AtOnce(s0, t) && Joined(s, t, Holding(s.now + LOCK_TIMEOUT)) && TokenSlot !in t.cache
    ensures Owns(t, |s.clients|, s.now + LOCK_TIMEOUT) && Excess(t) == Excess(s)
  {
    var arrived := NewcomerArrives(s0, s);
    var trying := NewcomerReads(s, arrived);
    GoesNext(TimelessStep, s0, arrived, Act(|s.clients|, NoToken), trying);
    t := NewcomerLocks(s, trying);
    GoesNext(TimelessStep, s0, trying, Act(|s.clients|, NoToken), t);
  }

  /** Client `i` moved and no other. */
  predicate OneMoved(t: State, u: State, i: nat) {
    |u.clients| == |t.clients| && forall j :: 0 <= j < |t.clients| && j != i ==> u.clients[j] == t.clients[j]
  }

  /** One step of a client inside that finds no token and gets none. */
  lemma InsideActs(t: State, i: nat) returns (u: State)
    requires i < |t.clients| && Inside(t.clients[i]) && !t.clients[i].phase.pc.Leaving? && TokenSlot !in t.cache
    ensures Enabled(t, Act(i, NoToken)) && Next(t, Act(i, NoToken)) == u && OneMoved(t, u, i)
    ensures match t.clients[i].phase.pc
      case Holding(until) => u.clients[i].phase == Calling(Fetching(until)) && u.cache == t.cache
      case Fetching(until) => u.clients[i].phase == Calling(Leaving(until, None)) && u.cache == t.cache
      case Storing(until, token, _, _) => u.clients[i].phase == Calling(Leaving(until, Some(token)))
      case _ => false
    ensures Excess(u) >= Excess(t) - if IsStoring(t.clients[i]) then 1 else 0
  {
    u := Next(t, Act(i, NoToken));
  }

  /** A client at its `finally` deletes whatever lock there is. */
  lemma Unlocks(s0: State, t: State, i: nat) returns (u: State)
    requires AtOnce(s0, t) && i < |t.clients| && t.clients[i].phase.Calling? && t.clients[i].phase.pc.Leaving?
    ensures AtOnce(s0, u) && OneMoved(t, u, i) && LockSlot !in u.cache && Excess(u) == Excess(t)
  {
    u := Next(t, Act(i, NoToken));
    GoesNext(TimelessStep, s0, t, Act(i, NoToken), u);
  }

  /** A client inside leaves, and its delete takes away whatever lock there is. */
  lemma ClientLeaves(s0: State, t: State, i: nat) returns (u: State)
    requires AtOnce(s0, t) && i < |t.clients| && Inside(t.clients[i])
    requires TokenSlot !in t.cache || t.clients[i].phase.pc.Leaving?
    ensures AtOnce(s0, u) && OneMoved(t, u, i) && LockSlot !in u.cache
    ensures Excess(u) >= Excess(t) - if IsStoring(t.clients[i]) then 1 else 0
    decreases OpsLeft(t.clients[i].phase.pc)
  {
    if t.clients[i].phase.pc.Leaving? {
      u := Unlocks(s0, t, i);
    } else {
      var v := InsideActs(t, i);
      GoesNext(TimelessStep, s0, t, Act(i, NoToken), v);
      u := ClientLeaves(s0, v, i);
    }
  }

  /** A client that has the lock finds no token and fetches one. */
  lemma ClientFetches(s0: State, t: State, i: nat) returns (u: State)
    requires AtOnce(s0, t) && i < |t.clients| && TokenSlot !in t.cache
    requires t.clients[i].phase.Calling? && t.clients[i].phase.pc.Holding?
    ensures AtOnce(s0, u) && u.cache == t.cache && u.now == t.now && Excess(u) == Excess(t) + 1
  {
    var fetching := InsideActs(t, i);
    GoesNext(TimelessStep, s0, t, Act(i, NoToken), fetching);
    var reply := Token("token", 3599);
    u := Next(fetching, Act(i, reply));
    GoesNext(TimelessStep, s0, fetching, Act(i, reply), u);
  }

  /** A client that has lost its lock fetches, and a newcomer fetches too. */
  lemma BothFetch(s0: State, s: State, n: nat) returns (t: State)
    requires AtOnce(s0, s) && LockSlot !in s.cache && n < |s.clients| && Excess(s) >= 0
    requires s.clients[n].phase.Calling? && s.clients[n].phase.pc.Holding?
    ensures AtOnce(s0, t) && Overfetched(t)
  {
    var u := DropToken(s);
    GoesNext(TimelessStep, s0, s, Invalidate, u);
    assert Excess(u) == Excess(s);
    var v := ClientFetches(s0, u, n);
    var w := NewcomerGetsIn(s0, v);
    t := ClientFetches(s0, w, |v.clients|);
  }

  /** Client `i` has outlived its own lock. */
  predicate Outlived(s: State, i: nat) {
    && i < |s.clients| && Inside(s.clients[i])
    && Owns(s, i, s.clients[i].phase.pc.until) && s.clients[i].phase.pc.until <= s.now
  }

  /** Whoever outlives its lock can lose every guarantee: another caller gets in; then the latecomer's
      delete takes that caller's lock away; and then that one and a third both fetch. */
  lemma OutlivedLockFails(s: State, i: nat) returns (t: State, u: State, v: State)
    requires Outlived(s, i) && (Excess(s) >= if IsStoring(s.clients[i]) then 1 else 0)
    ensures AtOnce(s, t) && Overlap(t)
    ensures AtOnce(s, u) && Unguarded(u)
    ensures AtOnce(s, v) && Overfetched(v)
  {
    GoesHere(TimelessStep, s);
    t := NewcomerGetsIn(s, s);
    var n := |s.clients|;
    assert t.clients[i] == s.clients[i] && Inside(t.clients[n]);
    u := ClientLeaves(s, t, i);
    assert u.clients[n] == t.clients[n];
    v := BothFetch(s, u, n);
  }

  lemma LateStorersAreCounted(s: State, i: nat)
    requires Accounted(s) && i < |s.clients|
    ensures Excess(s) >= if IsStoring(s.clients[i]) then 1 else 0
  {
  }

  /** The exact condition. At the first point of any run at which that is in question, the run can,
      without the clock moving, bring two callers inside, or leave one inside without a lock, or
      fetch beyond the bound, if and only if some section has outlived its own lock. */
  lemma InTimeIsTheExactCondition(run: seq<State>, labels: seq<Label>, k: nat)
    requires IsRun(run, labels) && k < |run| && forall h :: 0 <= h < k ==> InTime(run[h])
    ensures !InTime(run[k]) <==> exists t :: AtOnce(run[k], t) && Overlap(t)
    ensures !InTime(run[k]) <==> exists t :: AtOnce(run[k], t) && Unguarded(t)
    ensures !InTime(run[k]) <==> exists t :: AtOnce(run[k], t) && Overfetched(t)
  {
    var s := run[k];
    RunKeepsExclusive(run, labels, k);
    RunKeepsAccounts(run, labels, k);
    if InTime(s) {
      forall t | AtOnce(s, t)
        ensures !Overlap(t) && !Unguarded(t) && !Overfetched(t)
      {
        StaysInTime(s, t);
        ExclusiveIsSafe(t);
      }
    } else {
      var i :| 0 <= i < |s.clients| && Inside(s.clients[i]) && !(s.now < s.clients[i].phase.pc.until);
      assert LockAgrees(s, i);
      LateStorersAreCounted(s, i);
      var t, u, v := OutlivedLockFails(s, i);
    }
  }

  // ----- a fetch of eleven seconds -----

  const EMPTY := State(map[], 0.0, [], 60, {}, 0, 0, 0, 0)

  /** The first caller gets the lock and starts to fetch. */
  lemma CallerFetches() returns (s: State)
    ensures AtOnce(EMPTY, s) && |s.clients| == 1 && s.clients[0].phase == Calling(Fetching(10.0)) && s.now == 0.0
    ensures Owns(s, 0, 10.0) && TokenSlot !in s.cache && Excess(s) >= 0
  {
    GoesHere(TimelessStep, EMPTY);
    var holding := NewcomerGetsIn(EMPTY, EMPTY);
    s := InsideActs(holding, 0);
    GoesNext(TimelessStep, EMPTY, holding, Act(0, NoToken), s);
  }

  lemma GoesOnAtOnce(s0: State, s: State, t: State)
    requires Goes(Transition, s0, s) && AtOnce(s, t)
    ensures Goes(Transition, s0, t)
  {
    GoesMore(TimelessStep, Transition, s, t);
    GoesThrough(Transition, s0, s, t);
  }

  /** Eleven seconds later it is still fetching. */
  lemma SlowCaller() returns (s: State)
    ensures Goes(Transition, EMPTY, s) && Outlived(s, 0) && IsFetching(s.clients[0]) && Excess(s) >= 0
  {
    var fetching := CallerFetches();
    GoesHere(Transition, EMPTY);
    GoesOnAtOnce(EMPTY, EMPTY, fetching);
    s := fetching.(now := 11.0);
    GoesNext(Transition, EMPTY, fetching, Tick(11.0), s);
  }

  /** So a fetch that takes 11 seconds leads from the empty cache to all three. */
  lemma SlowFetchBreaksTheLock() returns (t: State, u: State, v: State)
    ensures IsInitial(EMPTY)
    ensures Goes(Transition, EMPTY, t) && Overlap(t)
    ensures Goes(Transition, EMPTY, u) && Unguarded(u)
    ensures Goes(Transition, EMPTY, v) && Overfetched(v)
  {
    var s := SlowCaller();
    t, u, v := OutlivedLockFails(s, 0);
    GoesOnAtOnce(EMPTY, s, t);
    GoesOnAtOnce(EMPTY, s, u);
    GoesOnAtOnce(EMPTY, s, v);
  }
}
