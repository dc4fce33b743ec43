/** Deadlock freedom and termination of the callback protocol. */
module Progress {
  import opened Models
  import opened Settlement
  import opened Protocol
  import opened ProtocolInvariant
  import opened ProtocolSafety

  // ----- the candidates query always has an answer -----

  /** `cands` answers the query on the first `n` rows. */
  ghost predicate CandidatesUpTo(txns: seq<Row>, n: nat, ref: Option<string>, cands: seq<nat>) {
    && n <= |txns|
    && (forall k :: 0 <= k < |cands| ==> cands[k] < n && Awaits(txns[cands[k]], ref))
    && (forall i :: 0 <= i < n && Awaits(txns[i], ref) ==> i in cands)
    && (forall j, k :: 0 <= j < k < |cands| ==>
          cands[j] != cands[k] && txns[cands[k]].initiatedAt <= txns[cands[j]].initiatedAt)
  }

  /** Where a row initiated at `time` belongs: before it only younger rows, from it on none. */
  lemma InsertionPoint(txns: seq<Row>, n: nat, ref: Option<string>, cands: seq<nat>, time: nat) returns (p: nat)
    requires CandidatesUpTo(txns, n, ref, cands)
    ensures p <= |cands|
    ensures forall k :: 0 <= k < p ==> time < txns[cands[k]].initiatedAt
    ensures forall k :: p <= k < |cands| ==> txns[cands[k]].initiatedAt <= time
  {
    p := 0;
    while p < |cands| && time < txns[cands[p]].initiatedAt
      invariant p <= |cands|
      invariant forall k :: 0 <= k < p ==> time < txns[cands[k]].initiatedAt
    {
      p := p + 1;
    }
  }

  function InsertAt(s: seq<nat>, p: nat, x: nat): (out: seq<nat>)
    requires p <= |s|
    ensures |out| == |s| + 1
    ensures forall k {:trigger out[k]} :: 0 <= k < |out| ==>
              out[k] == if k < p then s[k] else if k == p then x else s[k - 1]
  {
    s[..p] + [x] + s[p..]
  }

  /** Row `a` may come before row `b` in the answer. */
  predicate Precedes(txns: seq<Row>, a: nat, b: nat) {
    a < |txns| && b < |txns| && a != b && txns[b].initiatedAt <= txns[a].initiatedAt
  }

  lemma InsertedInOrder(txns: seq<Row>, n: nat, before: seq<nat>, p: nat, j: nat, k: nat)
    requires p <= |before| && j < k < |before| + 1
    requires forall j, k :: 0 <= j < k < |before| ==> Precedes(txns, before[j], before[k])
    requires forall k :: 0 <= k < p ==> Precedes(txns, before[k], n)
    requires forall k :: p <= k < |before| ==> Precedes(txns, n, before[k])
    ensures Precedes(txns, InsertAt(before, p, n)[j], InsertAt(before, p, n)[k])
  {
  }

  lemma InsertedElements(before: seq<nat>, p: nat, n: nat, i: nat)
    requires p <= |before|
    ensures i in InsertAt(before, p, n) <==> i == n || i in before
  {
    var cands := InsertAt(before, p, n);
    if k :| 0 <= k < |before| && before[k] == i {
      assert cands[if k < p then k else k + 1] == i;
    }
    assert cands[p] == n;
  }

  lemma AddCandidateInOrder(txns: seq<Row>, n: nat, ref: Option<string>, before: seq<nat>, p: nat, j: nat, k: nat)
    requires n < |txns| && CandidatesUpTo(txns, n, ref, before) && p <= |before|
    requires forall k :: 0 <= k < p ==> txns[n].initiatedAt <= txns[before[k]].initiatedAt
    requires forall k :: p <= k < |before| ==> txns[before[k]].initiatedAt <= txns[n].initiatedAt
    requires j < k < |before| + 1
    ensures Precedes(txns, InsertAt(before, p, n)[j], InsertAt(before, p, n)[k])
  {
    InsertedInOrder(txns, n, before, p, j, k);
  }

  lemma AddCandidate(txns: seq<Row>, n: nat, ref: Option<string>, before: seq<nat>, p: nat)
    requires n < |txns| && CandidatesUpTo(txns, n, ref, before) && Awaits(txns[n], ref) && p <= |before|
    requires forall k :: 0 <= k < p ==> txns[n].initiatedAt <= txns[before[k]].initiatedAt
    requires forall k :: p <= k < |before| ==> txns[before[k]].initiatedAt <= txns[n].initiatedAt
    ensures CandidatesUpTo(txns, n + 1, ref, InsertAt(before, p, n))
  {
    var cands := InsertAt(before, p, n);
    forall j, k | 0 <= j < k < |cands|
      ensures Precedes(txns, cands[j], cands[k])
    {
      AddCandidateInOrder(txns, n, ref, before, p, j, k);
    }
    forall i | 0 <= i < n + 1 && Awaits(txns[i], ref)
      ensures i in cands
    {
      InsertedElements(before, p, n, i);
    }
    forall k | 0 <= k < |cands|
      ensures cands[k] < n + 1 && Awaits(txns[cands[k]], ref)
    {
    }
  }

  lemma {:induction false} CandidatesExist(txns: seq<Row>, n: nat, ref: Option<string>) returns (cands: seq<nat>)
    requires n <= |txns|
    ensures CandidatesUpTo(txns, n, ref, cands)
    ensures Newest(txns[..n], ref) == if |cands| == 0 then None else Some(cands[0])
  {
    if n == 0 {
      cands := [];
    } else {
      assert txns[..n][..n - 1] == txns[..n - 1];
      cands := CandidatesExist(txns, n - 1, ref);
      if Awaits(txns[n - 1], ref) {
        var p := InsertionPoint(txns, n - 1, ref, cands, txns[n - 1].initiatedAt);
        AddCandidate(txns, n - 1, ref, cands, p);
        cands := InsertAt(cands, p, n - 1);
      }
    }
  }

  /** So the query always has an answer. */
  lemma QueryAnswers(txns: seq<Row>, ref: Option<string>) returns (cands: seq<nat>)
    ensures ValidCandidates(txns, ref, cands)
    ensures Newest(txns, ref) == if |cands| == 0 then None else Some(cands[0])
  {
    cands := CandidatesExist(txns, |txns|, ref);
    assert txns[..|txns|] == txns;
  }

  lemma SelectGoesOn(s: State, w: nat, cands: seq<nat>)
    requires At(s, w) && s.workers[w].pc.Checked? && s.workers[w].pc.job.Confirm?
    requires ValidCandidates(s.txns, s.workers[w].pc.job.c.billRef, cands)
    ensures Enabled(s, Select(w, cands))
    ensures Next(s, Select(w, cands)) == Goto(s, w, Selecting(s.workers[w].pc.job, cands))
  {
  }

  // ----- no deadlock -----

  /** A step that carries a worker forward, as opposed to stopping it. */
  predicate Forward(l: Label) {
    Actor(l).Some? && !l.Abort? && !l.Crash?
  }

  /** The locked row a worker is waiting for. */
  ghost predicate WaitsFor(s: State, w: nat, r: nat)
    requires w < |s.workers|
  {
    match s.workers[w].pc
    case Parsed(job) => job.Keyed? && Find(s.txns, job.key) == Some(r)
    case Selecting(_, cands) => |cands| > 0 && cands[0] == r
    case _ => false
  }

  lemma ParsedWorkersMove(s: State, w: nat) returns (l: Label)
    requires w < |s.workers| && WorkerOk(s, w) && s.workers[w].pc.Parsed?
    requires forall r :: r in s.locks ==> !WaitsFor(s, w, r)
    ensures Enabled(s, l) && Forward(l) && Actor(l) == Some(w)
  {
    l := if s.workers[w].pc.job.Keyed? then Lock(w, 0) else Check(w);
  }

  lemma SelectingWorkersMove(s: State, w: nat) returns (l: Label)
    requires w < |s.workers| && WorkerOk(s, w) && s.workers[w].pc.Selecting?
    requires forall r :: r in s.locks ==> !WaitsFor(s, w, r)
    ensures Enabled(s, l) && Forward(l) && Actor(l) == Some(w)
  {
    l := if |s.workers[w].pc.cands| == 0 then Decide(w, 0) else Try(w);
  }

  lemma CheckedWorkersMove(s: State, w: nat) returns (l: Label)
    requires w < |s.workers| && WorkerOk(s, w) && s.workers[w].pc.Checked?
    ensures Enabled(s, l) && Forward(l) && Actor(l) == Some(w)
  {
    var cands := QueryAnswers(s.txns, s.workers[w].pc.job.c.billRef);
    l := Select(w, cands);
  }

  /** A worker that is not waiting can move. */
  lemma FreeWorkersMove(s: State, w: nat) returns (l: Label)
    requires w < |s.workers| && WorkerOk(s, w) && !s.workers[w].pc.Finished?
    requires forall r :: r in s.locks ==> !WaitsFor(s, w, r)
    ensures Enabled(s, l) && Forward(l) && Actor(l) == Some(w)
  {
    match s.workers[w].pc
    case Called => l := Load(w);
    case Parsed(_) => l := ParsedWorkersMove(s, w);
    case Checked(_) => l := CheckedWorkersMove(s, w);
    case Selecting(_, _) => l := SelectingWorkersMove(s, w);
    case Holding(_, _, _) => l := Decide(w, 0);
    case Writing(_, _) => l := Commit(w);
    case Notifying(_, _) => l := Notify(w);
  }

  /** Deadlock freedom: an unfinished worker can move, or the one worker that holds the row it
      waits for can. */
  lemma NoDeadlock(run: seq<State>, labels: seq<Label>, k: nat, w: nat) returns (l: Label)
    requires IsRun(run, labels) && k < |run| && w < |run[k].workers| && !run[k].workers[w].pc.Finished?
    ensures Enabled(run[k], l) && Forward(l)
    ensures Actor(l) == Some(w) ||
            exists r :: r in run[k].locks && WaitsFor(run[k], w, r) && Actor(l) == Some(run[k].locks[r])
  {
    var s := run[k];
    RunKeepsInv(run, labels, k);
    assert WorkerOk(s, w);
    if r :| r in s.locks && WaitsFor(s, w, r) {
      assert WorkerOk(s, s.locks[r]);
      l := FreeWorkersMove(s, s.locks[r]);
    } else {
      l := FreeWorkersMove(s, w);
    }
  }

  /** When every worker has finished, no row is locked. */
  lemma CompletedRunsHoldNoLocks(run: seq<State>, labels: seq<Label>, k: nat)
    requires IsRun(run, labels) && k < |run| && Completed(run[k])
    ensures run[k].locks == map[]
  {
    RunKeepsInv(run, labels, k);
    assert forall r :: r !in run[k].locks;
  }

  // ----- termination -----

  /** Stages a worker still has ahead of it. */
  function Stages(pc: Pc): nat {
    match pc
    case Called => 7
    case Parsed(_) => 6
    case Checked(_) => 5
    case Selecting(_, _) => 4
    case Holding(_, _, _) => 3
    case Writing(_, _) => 2
    case Notifying(_, _) => 1
    case Finished(_) => 0
  }

  /** Candidate rows a worker still has to try. */
  function Tries(pc: Pc): nat {
    if pc.Selecting? then |pc.cands| else 0
  }

  function TotalStages(workers: seq<Worker>): nat {
    if |workers| == 0 then 0 else TotalStages(workers[..|workers| - 1]) + Stages(workers[|workers| - 1].pc)
  }

  function TotalTries(workers: seq<Worker>): nat {
    if |workers| == 0 then 0 else TotalTries(workers[..|workers| - 1]) + Tries(workers[|workers| - 1].pc)
  }

  /** Both totals change by what the one moving worker changes. */
  lemma {:induction false} TotalsAfter(workers: seq<Worker>, w: nat, worker: Worker)
    requires w < |workers|
    ensures TotalStages(workers[w := worker]) == TotalStages(workers) - Stages(workers[w].pc) + Stages(worker.pc)
    ensures TotalTries(workers[w := worker]) == TotalTries(workers) - Tries(workers[w].pc) + Tries(worker.pc)
    decreases |workers|
  {
    var n := |workers| - 1;
    var after := workers[w := worker];
    if w < n {
      assert after[..n] == workers[..n][w := worker];
      TotalsAfter(workers[..n], w, worker);
    } else {
      assert after[..n] == workers[..n];
    }
  }

  predicate Nearer(was: Pc, will: Pc) {
    Stages(will) < Stages(was) || (Stages(will) == Stages(was) && Tries(will) < Tries(was))
  }

  lemma CommitsApproachTheEnd(s: State, w: nat)
    requires Enabled(s, Commit(w))
    ensures Nearer(s.workers[w].pc, Next(s, Commit(w)).workers[w].pc)
  {
  }

  lemma DecisionsApproachTheEnd(s: State, w: nat, now: nat)
    requires Enabled(s, Decide(w, now))
    ensures Nearer(s.workers[w].pc, Next(s, Decide(w, now)).workers[w].pc)
  {
  }

  lemma TriesApproachTheEnd(s: State, w: nat)
    requires Enabled(s, Try(w))
    ensures Nearer(s.workers[w].pc, Next(s, Try(w)).workers[w].pc)
  {
  }

  lemma OthersApproachTheEnd(s: State, l: Label, w: nat)
    requires Enabled(s, l) && Actor(l) == Some(w) && !l.Commit? && !l.Decide? && !l.Try?
    ensures Nearer(s.workers[w].pc, Next(s, l).workers[w].pc)
  {
  }

  /** What one step does to its worker's own measure. */
  lemma ActorsApproachTheEnd(s: State, l: Label, w: nat)
    requires Enabled(s, l) && Actor(l) == Some(w)
    ensures w < |s.workers| == |Next(s, l).workers|
    ensures Next(s, l).workers == s.workers[w := Next(s, l).workers[w]]
    ensures Nearer(s.workers[w].pc, Next(s, l).workers[w].pc)
  {
    OthersFrame(s, l, w);
    match l
    case Commit(_) => CommitsApproachTheEnd(s, w);
    case Decide(_, now) => DecisionsApproachTheEnd(s, w, now);
    case Try(_) => TriesApproachTheEnd(s, w);
    case _ => OthersApproachTheEnd(s, l, w);
  }

  /** Every worker step, forward or not, decreases (stages, tries) lexicographically; receiving a
      body and inserting a row leave both alone. Only dispatching a task adds work. */
  lemma WorkRunsOut(s: State, l: Label)
    requires Enabled(s, l)
    ensures Actor(l).Some? ==>
              || TotalStages(Next(s, l).workers) < TotalStages(s.workers)
              || (TotalStages(Next(s, l).workers) == TotalStages(s.workers) &&
                  TotalTries(Next(s, l).workers) < TotalTries(s.workers))
    ensures l.Receive? || l.Create? ==> Next(s, l).workers == s.workers
  {
    if Actor(l).Some? {
      var w := Actor(l).value;
      ActorsApproachTheEnd(s, l, w);
      TotalsAfter(s.workers, w, Next(s, l).workers[w]);
    }
  }
}
