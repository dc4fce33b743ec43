/** Not overlapping is the weakest condition under which a TransID settles once: from every state
    in which two workers are inside for it, the two can go on to settle a row each. */
module C2bOverlap {
  import opened Models
  import opened Payloads
  import opened Settlement
  import opened Paths
  import opened Protocol
  import opened ProtocolInvariant
  import opened Progress
  import opened C2bOnce

  /** Any step but passing the receipt check. */
  ghost predicate QuietStep(s: State, l: Label, t: State) {
    Transition(s, l, t) && !l.Check?
  }

  /** From `s` to `t` without anybody passing the receipt check. */
  ghost predicate Continues(s: State, t: State) {
    Goes(QuietStep, s, t)
  }

  // ----- two workers inside settle twice -----

  /** One step of worker `a` on the way: the invariant stays, `v` does not move, settled rows stay. */
  lemma StepOn(s0: State, s: State, l: Label, v: nat, t: State)
    requires Inv(s) && Continues(s0, s) && Enabled(s, l) && Next(s, l) == t && !l.Check?
    requires Actor(l).Some? && Actor(l) != Some(v) && v < |s.workers|
    ensures Inv(t) && Continues(s0, t) && |t.workers| == |s.workers| && t.workers[v] == s.workers[v]
  {
    StepKeepsInv(s, l);
    GoesNext(QuietStep, s0, s, l, t);
    OthersFrame(s, l, Actor(l).value);
  }

  /** The commit of a worker inside the block settles a row for its TransID. */
  lemma CommitSettles(s: State, w: nat, transId: Option<string>) returns (r: nat)
    requires Inv(s) && w < |s.workers| && s.workers[w].pc.Writing? && Inside(s.workers[w].pc, transId)
    ensures Enabled(s, Commit(w)) && Next(s, Commit(w)).workers[w].pc.Notifying?
    ensures SettledFor(Next(s, Commit(w)), r, transId) && Next(s, Commit(w)).owner[r] == w
  {
    assert WorkerOk(s, w);
    var Worker(task, log, Writing(write, _)) := s.workers[w];
    ParseIsSound(task, s.logs[log].body);
    r := if write.SettleRow? then write.row else |s.txns|;
    CommitKeepsIdentity(s, w, w);
    CommitAtLog(s, w, log);
  }

  /** What driving worker `w` home has achieved: it settled a row, and `v` has not moved. */
  ghost predicate Home(s0: State, s: State, t: State, w: nat, v: nat, r: nat, transId: Option<string>) {
    && Inv(t) && Continues(s0, t) && w < |t.workers| && v < |t.workers| && v < |s.workers|
    && t.workers[v] == s.workers[v]
    && t.workers[w].pc.Notifying? && SettledFor(t, r, transId) && t.owner[r] == w
  }

  lemma FromWriting(s0: State, s: State, w: nat, v: nat, transId: Option<string>) returns (t: State, r: nat)
    requires Inv(s) && Continues(s0, s) && w < |s.workers| && v < |s.workers| && v != w
    requires s.workers[w].pc.Writing? && Inside(s.workers[w].pc, transId)
    ensures Home(s0, s, t, w, v, r, transId)
  {
    r := CommitSettles(s, w, transId);
    t := Next(s, Commit(w));
    StepOn(s0, s, Commit(w), v, t);
  }

  /** A worker inside that has its row, or knows that there is none, writes for its own job. */
  lemma DecideInside(s: State, w: nat, transId: Option<string>)
    requires Enabled(s, Decide(w, 0)) && Inside(s.workers[w].pc, transId)
    ensures w < |Next(s, Decide(w, 0)).workers|
    ensures var will := Next(s, Decide(w, 0)).workers[w].pc; will.Writing? && Inside(will, transId)
  {
  }

  lemma FromDecision(s0: State, s: State, w: nat, v: nat, transId: Option<string>) returns (t: State, r: nat)
    requires Inv(s) && Continues(s0, s) && w < |s.workers| && v < |s.workers| && v != w
    requires Enabled(s, Decide(w, 0)) && Inside(s.workers[w].pc, transId)
    ensures Home(s0, s, t, w, v, r, transId)
  {
    var u := Next(s, Decide(w, 0));
    DecideInside(s, w, transId);
    StepOn(s0, s, Decide(w, 0), v, u);
    t, r := FromWriting(s0, u, w, v, transId);
  }

  /** The worker that holds a row can be stopped, and its lock is gone. */
  lemma HolderAborts(s: State, r: nat)
    requires Inv(s) && r in s.locks
    ensures Enabled(s, Abort(s.locks[r])) && r !in Next(s, Abort(s.locks[r])).locks
    ensures Holds(s.workers[s.locks[r]].pc) == Some(r)
  {
  }

  /** After that, the others are where they were. */
  lemma UnlockRow(s0: State, s: State, r: nat, w: nat, v: nat) returns (t: State)
    requires Inv(s) && Continues(s0, s) && r in s.locks && w < |s.workers| && v < |s.workers|
    requires Holds(s.workers[w].pc).None? && Holds(s.workers[v].pc).None?
    ensures Inv(t) && Continues(s0, t) && r !in t.locks
    ensures |t.workers| == |s.workers| && t.workers[w] == s.workers[w] && t.workers[v] == s.workers[v]
  {
    var l := Abort(s.locks[r]);
    t := Next(s, l);
    HolderAborts(s, r);
    StepOn(s0, s, l, v, t);
    StepOn(s0, s, l, w, t);
  }

  lemma TryInside(s: State, w: nat, transId: Option<string>)
    requires Enabled(s, Try(w)) && Inside(s.workers[w].pc, transId)
    ensures var was := s.workers[w].pc; var will := Next(s, Try(w)).workers[w].pc;
      && Inside(will, transId)
      && (will.Holding? || (will.Selecting? && will.cands == was.cands[1..]))
  {
  }

  /** The worker tries its candidates one after the other; whoever locks one gives up. */
  lemma FromSelection(s0: State, s: State, w: nat, v: nat, transId: Option<string>) returns (t: State, r: nat)
    requires Inv(s) && Continues(s0, s) && w < |s.workers| && v < |s.workers| && v != w
    requires s.workers[w].pc.Selecting? && Inside(s.workers[w].pc, transId) && Holds(s.workers[v].pc).None?
    ensures Home(s0, s, t, w, v, r, transId)
    decreases |s.workers[w].pc.cands|, |s.workers[w].pc.cands| > 0 && s.workers[w].pc.cands[0] in s.locks
  {
    assert WorkerOk(s, w);
    var cands := s.workers[w].pc.cands;
    if |cands| == 0 {
      t, r := FromDecision(s0, s, w, v, transId);
    } else if cands[0] in s.locks {
      var u := UnlockRow(s0, s, cands[0], w, v);
      t, r := FromSelection(s0, u, w, v, transId);
    } else {
      var u := Next(s, Try(w));
      TryInside(s, w, transId);
      StepOn(s0, s, Try(w), v, u);
      if u.workers[w].pc.Holding? {
        t, r := FromDecision(s0, u, w, v, transId);
      } else {
        t, r := FromSelection(s0, u, w, v, transId);
      }
    }
  }

  /** The query always has an answer. */
  lemma SelectInside(s: State, w: nat, transId: Option<string>) returns (l: Label, t: State)
    requires Inv(s) && w < |s.workers| && s.workers[w].pc.Checked? && Inside(s.workers[w].pc, transId)
    ensures Enabled(s, l) && l.Select? && l.w == w && Next(s, l) == t
    ensures w < |t.workers| && t.workers[w].pc.Selecting? && Inside(t.workers[w].pc, transId)
  {
    assert WorkerOk(s, w);
    var job := s.workers[w].pc.job;
    var cands := QueryAnswers(s.txns, job.c.billRef);
    SelectGoesOn(s, w, cands);
    l, t := Select(w, cands), Goto(s, w, Selecting(job, cands));
  }

  lemma FromCheck(s0: State, s: State, w: nat, v: nat, transId: Option<string>) returns (t: State, r: nat)
    requires Inv(s) && Continues(s0, s) && w < |s.workers| && v < |s.workers| && v != w
    requires s.workers[w].pc.Checked? && Inside(s.workers[w].pc, transId) && Holds(s.workers[v].pc).None?
    ensures Home(s0, s, t, w, v, r, transId)
  {
    var l, u := SelectInside(s, w, transId);
    StepOn(s0, s, l, v, u);
    t, r := FromSelection(s0, u, w, v, transId);
  }

  /** A worker inside can be driven to its commit past any worker `v` that it does not have to wait for. */
  lemma DriveHome(s0: State, s: State, w: nat, v: nat, transId: Option<string>) returns (t: State, r: nat)
    requires Inv(s) && Continues(s0, s) && w < |s.workers| && v < |s.workers| && v != w
    requires Inside(s.workers[w].pc, transId)
    requires Holds(s.workers[v].pc).None? || s.workers[w].pc.Holding? || s.workers[w].pc.Writing?
    ensures Home(s0, s, t, w, v, r, transId)
  {
    assert WorkerOk(s, w);
    match s.workers[w].pc
    case Checked(_) => t, r := FromCheck(s0, s, w, v, transId);
    case Selecting(_, _) => t, r := FromSelection(s0, s, w, v, transId);
    case Holding(_, _, _) => t, r := FromDecision(s0, s, w, v, transId);
    case Writing(_, _) => t, r := FromWriting(s0, s, w, v, transId);
  }

  /** Row `r`, settled for the TransID by worker `v`, stays so. */
  ghost predicate SettledBy(s: State, r: nat, v: nat, transId: Option<string>) {
    Inv(s) && SettledFor(s, r, transId) && s.owner[r] == v
  }

  lemma SettledByLasts(s: State, t: State, r: nat, v: nat, transId: Option<string>)
    requires Continues(s, t) && SettledBy(s, r, v, transId)
    ensures SettledBy(t, r, v, transId)
  {
    forall u, l, u' | QuietStep(u, l, u') && SettledBy(u, r, v, transId)
      ensures SettledBy(u', r, v, transId)
    {
      StepKeepsInv(u, l);
      StepEvolves(u, l);
      SettledForStays(u, u', Actor(l), r, transId);
    }
    GoesKeeps(QuietStep, (u: State) => SettledBy(u, r, v, transId), s, t);
  }

  /** Two different rows settled for the TransID. */
  ghost predicate Twice(s: State, transId: Option<string>) {
    exists q: nat, r: nat :: q != r && SettledFor(s, q, transId) && SettledFor(s, r, transId)
  }

  /** With `v` home, `w` follows. */
  lemma TheOther(s: State, mid: State, v: nat, w: nat, q: nat, transId: Option<string>) returns (t: State)
    requires w < |s.workers| && v != w && Home(s, s, mid, v, w, q, transId) && Inside(mid.workers[w].pc, transId)
    ensures Continues(s, t) && Twice(t, transId)
  {
    GoesHere(QuietStep, mid);
    var r: nat;
    t, r := DriveHome(mid, mid, w, v, transId);
    GoesThrough(QuietStep, s, mid, t);
    SettledByLasts(mid, t, q, v, transId);
    assert q != r;
  }

  /** First `v`, which the other need not wait for any more once it has committed, then `w`. */
  lemma OneAfterTheOther(s: State, v: nat, w: nat, transId: Option<string>) returns (t: State)
    requires Inv(s) && v < |s.workers| && w < |s.workers| && v != w
    requires Inside(s.workers[v].pc, transId) && Inside(s.workers[w].pc, transId)
    requires Holds(s.workers[w].pc).None? || s.workers[v].pc.Holding? || s.workers[v].pc.Writing?
    ensures Continues(s, t) && Twice(t, transId)
  {
    GoesHere(QuietStep, s);
    var mid, q := DriveHome(s, s, v, w, transId);
    t := TheOther(s, mid, v, w, q, transId);
  }

  /** Whatever the state, if two workers are inside for one TransID, the run can go on so that both
      settle a row for it, with no third worker entering. */
  lemma OverlapCanSettleTwice(s: State, v: nat, w: nat, transId: Option<string>) returns (t: State)
    requires Inv(s) && v < |s.workers| && w < |s.workers| && v != w
    requires Inside(s.workers[v].pc, transId) && Inside(s.workers[w].pc, transId)
    ensures Continues(s, t) && Twice(t, transId)
  {
    if Holds(s.workers[v].pc).Some? {
      t := OneAfterTheOther(s, v, w, transId);
    } else {
      t := OneAfterTheOther(s, w, v, transId);
    }
  }

  // ----- without an overlap they do not -----

  lemma StepKeepsApart(s: State, l: Label, transId: Option<string>)
    requires Enabled(s, l) && !l.Check? && NoOverlap(s, transId)
    ensures NoOverlap(Next(s, l), transId)
  {
    var t := Next(s, l);
    StepCountsWorkers(s, l);
    forall w | 0 <= w < |t.workers| && Inside(t.workers[w].pc, transId)
      ensures w < |s.workers| && Inside(s.workers[w].pc, transId)
    {
      if !(w < |s.workers| && Inside(s.workers[w].pc, transId)) {
        EnteringTheBlock(s, l, w, transId);
      }
    }
  }

  /** No overlap, and at most one row so far. */
  ghost predicate OnceAndApart(s: State, transId: Option<string>) {
    Inv(s) && ReceiptsOk(s) && OnceInv(s, transId) && NoOverlap(s, transId)
  }

  lemma StaysOnce(s: State, t: State, transId: Option<string>)
    requires Truthy(transId) && Continues(s, t) && OnceAndApart(s, transId)
    ensures OnceAndApart(t, transId)
  {
    forall u, l, v | QuietStep(u, l, v) && OnceAndApart(u, transId)
      ensures OnceAndApart(v, transId)
    {
      StepKeepsInv(u, l);
      StepKeepsReceipts(u, l);
      StepKeepsOnce(u, l, transId);
      StepKeepsApart(u, l, transId);
    }
    GoesKeeps(QuietStep, (u: State) => OnceAndApart(u, transId), s, t);
  }

  /** The run can go on, nobody passing the receipt check any more, to two rows for the TransID. */
  ghost predicate CanSettleTwice(s: State, transId: Option<string>) {
    exists t :: Continues(s, t) && Twice(t, transId)
  }

  /** The exact condition. At the first point of any run at which that is in question, the workers
      under way can settle two rows for a TransID if and only if two of them are inside for it. */
  lemma OverlapIsTheExactCondition(run: seq<State>, labels: seq<Label>, k: nat, transId: Option<string>)
    requires IsRun(run, labels) && k < |run| && Truthy(transId)
    requires forall i :: 0 <= i < k ==> NoOverlap(run[i], transId)
    ensures CanSettleTwice(run[k], transId) <==> !NoOverlap(run[k], transId)
  {
    var s := run[k];
    RunKeepsInv(run, labels, k);
    RunKeepsReceipts(run, labels, k);
    RunKeepsOnce(run, labels, k, transId);
    if NoOverlap(s, transId) {
      forall t | Continues(s, t)
        ensures !Twice(t, transId)
      {
        StaysOnce(s, t, transId);
      }
    } else {
      var v, w :| 0 <= v < w < |s.workers| && Inside(s.workers[v].pc, transId) && Inside(s.workers[w].pc, transId);
      var t := OverlapCanSettleTwice(s, v, w, transId);
    }
  }

  // ----- an overlap that happens -----

  /** Two workers, one for each of two logs of the same confirmation. */
  function Pair(a: Pc, b: Pc): State {
    State([], [LOG, LOG], [Worker(C2bConfirmation, 0, a), Worker(C2bConfirmation, 1, b)], map[], [], [], map[])
  }

  lemma PairStarts()
    ensures Reaches(Pair(Called, Called))
  {
    var s0 := INITIAL.(logs := [LOG]);
    var s1 := INITIAL.(logs := [LOG, LOG]);
    var s2 := s1.(workers := [Worker(C2bConfirmation, 0, Called)]);
    ReachInitial();
    ReachNext(INITIAL, Receive(C2bConfirmation, PAID), s0);
    ReachNext(s0, Receive(C2bConfirmation, PAID), s1);
    ReachNext(s1, Dispatch(C2bConfirmation, 0), s2);
    ReachNext(s2, Dispatch(C2bConfirmation, 1), Pair(Called, Called));
  }

  lemma PairChecks()
    ensures Reaches(Pair(Checked(JOB), Checked(JOB)))
  {
    PairStarts();
    ReachNext(Pair(Called, Called), Load(0), Pair(Parsed(JOB), Called));
    ReachNext(Pair(Parsed(JOB), Called), Load(1), Pair(Parsed(JOB), Parsed(JOB)));
    ReachNext(Pair(Parsed(JOB), Parsed(JOB)), Check(0), Pair(Checked(JOB), Parsed(JOB)));
    ReachNext(Pair(Checked(JOB), Parsed(JOB)), Check(1), Pair(Checked(JOB), Checked(JOB)));
  }

  ghost predicate InvAndReceipts(s: State) {
    Inv(s) && ReceiptsOk(s)
  }

  lemma ReachableReceipts(s: State)
    requires Reaches(s)
    ensures Inv(s) && ReceiptsOk(s)
  {
    InitialInv();
    forall u, l, v | Transition(u, l, v) && InvAndReceipts(u)
      ensures InvAndReceipts(v)
    {
      StepKeepsInv(u, l);
      StepKeepsReceipts(u, l);
    }
    GoesKeeps(Transition, InvAndReceipts, INITIAL, s);
  }

  /** A reachable state that can settle twice leads to one with two such rows, both SUCCESS. */
  lemma TwiceIsReachable(s: State, t: State, transId: Option<string>) returns (q: nat, r: nat)
    requires Reaches(s) && Continues(s, t) && Twice(t, transId) && Truthy(transId)
    ensures Reaches(t) && q != r && q < |t.txns| && r < |t.txns|
    ensures t.txns[q].status == t.txns[r].status == Success && t.txns[q].receipt == t.txns[r].receipt == transId
  {
    GoesMore(QuietStep, Transition, s, t);
    GoesThrough(Transition, INITIAL, s, t);
    ReachableReceipts(t);
    q, r :| q != r && SettledFor(t, q, transId) && SettledFor(t, r, transId);
    assert RowOk(t.txns[q]) && RowOk(t.txns[r]);
  }

  /** Two deliveries of one confirmation end in two SUCCESS rows with its TransID as receipt. */
  lemma OverlapSettlesTwice() returns (t: State, q: nat, r: nat)
    ensures Reaches(t) && q != r && q < |t.txns| && r < |t.txns|
    ensures t.txns[q].status == t.txns[r].status == Success
    ensures t.txns[q].receipt == t.txns[r].receipt == PAID.c2b.transId
  {
    var s := Pair(Checked(JOB), Checked(JOB));
    PairChecks();
    ReachableReceipts(s);
    t := OverlapCanSettleTwice(s, 0, 1, PAID.c2b.transId);
    q, r := TwiceIsReachable(s, t, PAID.c2b.transId);
  }
}
