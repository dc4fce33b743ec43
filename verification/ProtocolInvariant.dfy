/** The inductive invariant of the callback protocol. */
module ProtocolInvariant {
  import opened Models
  import opened Payloads
  import opened Settlement
  import opened Protocol

  /** A row is locked by exactly the worker whose program counter says so. */
  ghost predicate LocksOk(s: State) {
    && (forall r :: r in s.locks ==> s.locks[r] < |s.workers| && Holds(s.workers[s.locks[r]].pc) == Some(r))
    && (forall w :: 0 <= w < |s.workers| && Holds(s.workers[w].pc).Some? ==>
          var r := Holds(s.workers[w].pc).value; r in s.locks && s.locks[r] == w)
  }

  /** The job a worker carries is the one its log parses to. */
  ghost predicate Carries(s: State, worker: Worker, job: Job) {
    && worker.log < |s.logs|
    && s.logs[worker.log].task == worker.task
    && Parse(worker.task, s.logs[worker.log].body) == Ready(job)
  }

  /** A locked row that a job is about to settle. */
  ghost predicate Target(s: State, job: Job, r: nat) {
    && r < |s.txns|
    && (if job.Keyed? then Matches(s.txns[r], job.key) else Awaits(s.txns[r], job.c.billRef))
  }

  ghost predicate WriteOk(s: State, worker: Worker, write: Write, held: Option<nat>) {
    match write
    case NoteRejected(_) => held.None?
    case NoteProcessed =>
      && (held.Some? ==>
            && held.value < |s.txns| && Terminal(s.txns[held.value].status)
            && exists job :: Carries(s, worker, job) && job.Keyed? && Matches(s.txns[held.value], job.key))
      && (worker.task == C2bConfirmation <==> held.None?)
      && (held.None? ==> worker.log < |s.logs| && Recorded(s.txns, s.logs[worker.log].body.c2b.transId))
    case SettleRow(r, written, job, now) =>
      && held == Some(r)
      && Carries(s, worker, job)
      && Target(s, job, r)
      && !Terminal(s.txns[r].status)
      && (job.Keyed? ==> Storable(job) && written == Settle(s.txns[r], job, s.logs[worker.log].body, now))
      && (job.Confirm? ==> written == SettleC2b(s.txns[r], job.c, s.logs[worker.log].body, now))
    case CreateRow(written, job) =>
      && held.None?
      && Carries(s, worker, job)
      && job.Confirm?
      && exists now :: written == NewC2b(job.c, s.logs[worker.log].body, now)
  }

  /** What the database must look like for worker `w` at its program counter. */
  ghost predicate WorkerOk(s: State, w: nat)
    requires w < |s.workers|
  {
    var worker := s.workers[w];
    && worker.log < |s.logs| && s.logs[worker.log].task == worker.task
    && match worker.pc
       case Called => true
       case Parsed(job) => Carries(s, worker, job)
       case Checked(job) => Carries(s, worker, job) && job.Confirm?
       case Selecting(job, cands) =>
         Carries(s, worker, job) && job.Confirm? && forall k :: 0 <= k < |cands| ==> cands[k] < |s.txns|
       case Holding(job, r, seen) => Carries(s, worker, job) && Target(s, job, r) && seen == s.txns[r]
       case Writing(write, held) => WriteOk(s, worker, write, held)
       case Notifying(r, job) =>
         && Carries(s, worker, job)
         && r in s.owner && s.owner[r] == w
         && r < |s.txns| && Truthful(SignalFor(job), s.txns[r])
       case Finished(fate) =>
         var settled := SettledRow(worker.pc);
         settled.Some? ==> settled.value in s.owner && s.owner[settled.value] == w
  }

  ghost predicate WorkersOk(s: State) {
    forall w :: 0 <= w < |s.workers| ==> WorkerOk(s, w)
  }

  /** Exactly the terminal rows have a settler, and that worker remembers the row. */
  ghost predicate OwnerOk(s: State) {
    && (forall r :: r in s.owner <==> 0 <= r < |s.txns| && Terminal(s.txns[r].status))
    && (forall r :: r in s.owner ==> s.owner[r] < |s.workers| && SettledRow(s.workers[s.owner[r]].pc) == Some(r))
  }

  /** The committed table is the sequential replay of the history. */
  ghost predicate HistoryOk(s: State) {
    s.txns == Replay(s.history)
  }

  ghost predicate Inv(s: State) {
    TableOk(s.txns) && LocksOk(s) && WorkersOk(s) && OwnerOk(s) && HistoryOk(s)
  }

  lemma InitialInv()
    ensures Inv(INITIAL)
  {
  }

  // ----- how one step changes the tables -----

  /** Terminal rows are frozen, and no row ever changes its kind, keys or amount. */
  ghost predicate Extends(before: seq<Row>, after: seq<Row>) {
    && |before| <= |after|
    && forall r :: 0 <= r < |before| ==>
         && (Terminal(before[r].status) ==> after[r] == before[r])
         && after[r].kind == before[r].kind
         && after[r].checkoutId == before[r].checkoutId
         && after[r].conversationId == before[r].conversationId
         && after[r].amount == before[r].amount
         && after[r].reference == before[r].reference
  }

  /** Logs are never removed; type and body never change; `processed` never goes back. */
  ghost predicate LogsExtend(before: seq<LogRow>, after: seq<LogRow>) {
    && |before| <= |after|
    && forall k :: 0 <= k < |before| ==>
         && after[k].task == before[k].task
         && after[k].body == before[k].body
         && (before[k].processed ==> after[k].processed)
  }

  /** The worker a label belongs to. */
  function Actor(l: Label): Option<nat> {
    match l
    case Receive(_, _) => None
    case Dispatch(_, _) => None
    case Create(_) => None
    case Load(w) => Some(w)
    case Lock(w, _) => Some(w)
    case Check(w) => Some(w)
    case Select(w, _) => Some(w)
    case Try(w) => Some(w)
    case Decide(w, _) => Some(w)
    case Commit(w) => Some(w)
    case Notify(w) => Some(w)
    case Abort(w) => Some(w)
    case Crash(w) => Some(w)
  }

  /** How a step of `actor` may change the state: tables only grow, only the actor moves, settlers
      are never replaced, and rows locked by others are left alone. */
  ghost predicate Evolves(s: State, s': State, actor: Option<nat>) {
    && Extends(s.txns, s'.txns)
    && LogsExtend(s.logs, s'.logs)
    && |s.workers| <= |s'.workers|
    && (forall i :: 0 <= i < |s.workers| ==>
          && s'.workers[i].task == s.workers[i].task && s'.workers[i].log == s.workers[i].log
          && (actor != Some(i) ==> s'.workers[i] == s.workers[i]))
    && (forall r :: r in s.owner ==> r in s'.owner && s'.owner[r] == s.owner[r])
    && (forall r :: 0 <= r < |s.txns| && r in s.locks && actor != Some(s.locks[r]) ==> s'.txns[r] == s.txns[r])
  }

  /** What a commit overwrites: a row its worker has locked, not yet terminal, whose identity is kept. */
  lemma CommitTarget(s: State, w: nat)
    requires w < |s.workers| && s.workers[w].pc.Writing? && s.workers[w].pc.write.SettleRow?
    requires WorkerOk(s, w) && LocksOk(s)
    ensures var SettleRow(r, written, job, now) := s.workers[w].pc.write;
      && r < |s.txns| && r in s.locks && s.locks[r] == w
      && !Terminal(s.txns[r].status) && Terminal(written.status)
      && written.kind == s.txns[r].kind
      && written.checkoutId == s.txns[r].checkoutId && written.conversationId == s.txns[r].conversationId
      && written.amount == s.txns[r].amount && written.reference == s.txns[r].reference
  {
    assert Holds(s.workers[w].pc) == Some(s.workers[w].pc.write.row);
  }

  /** The states before and after a step that settles row `r`, or only updates a log. */
  ghost predicate Rewrites(s: State, s': State, w: nat, log: nat) {
    && |s.workers| == |s'.workers| && |s.logs| == |s'.logs| && w < |s.workers| && log < |s.logs|
    && s'.workers[w].task == s.workers[w].task && s'.workers[w].log == s.workers[w].log
    && (forall i :: 0 <= i < |s.workers| && i != w ==> s'.workers[i] == s.workers[i])
    && (forall k :: 0 <= k < |s.logs| && k != log ==> s'.logs[k] == s.logs[k])
    && s'.logs[log].task == s.logs[log].task && s'.logs[log].body == s.logs[log].body
    && (s.logs[log].processed ==> s'.logs[log].processed)
  }

  lemma NoteEvolves(s: State, s': State, w: nat, log: nat)
    requires Rewrites(s, s', w, log) && s'.txns == s.txns && s'.owner == s.owner
    ensures Evolves(s, s', Some(w))
  {
  }

  lemma SettleEvolves(s: State, s': State, w: nat, log: nat, r: nat, written: Row)
    requires Rewrites(s, s', w, log) && r < |s.txns| && r !in s.owner && r in s.locks && s.locks[r] == w
    requires s'.txns == s.txns[r := written] && s'.owner == s.owner[r := w]
    requires !Terminal(s.txns[r].status) && written.kind == s.txns[r].kind
    requires written.checkoutId == s.txns[r].checkoutId && written.conversationId == s.txns[r].conversationId
    requires written.amount == s.txns[r].amount && written.reference == s.txns[r].reference
    ensures Evolves(s, s', Some(w))
  {
  }

  lemma CreateEvolves(s: State, s': State, w: nat, log: nat, written: Row)
    requires Rewrites(s, s', w, log) && |s.txns| !in s.owner
    requires s'.txns == s.txns + [written] && s'.owner == s.owner[|s.txns| := w]
    ensures Evolves(s, s', Some(w))
  {
  }

  lemma CommitAtLog(s: State, w: nat, k: nat)
    requires Enabled(s, Commit(w)) && k < |s.logs|
    ensures |Next(s, Commit(w)).logs| == |s.logs|
    ensures var log := s.logs[k]; var log' := Next(s, Commit(w)).logs[k];
      && (k != s.workers[w].log ==> log' == log)
      && log'.task == log.task && log'.body == log.body && (log.processed ==> log'.processed)
  {
  }

  lemma CommitRewrites(s: State, w: nat)
    requires Enabled(s, Commit(w))
    ensures Rewrites(s, Next(s, Commit(w)), w, s.workers[w].log)
  {
    var s' := Next(s, Commit(w));
    StepCountsWorkers(s, Commit(w));
    forall i | 0 <= i < |s.workers|
      ensures s'.workers[i].task == s.workers[i].task && s'.workers[i].log == s.workers[i].log
      ensures i != w ==> s'.workers[i] == s.workers[i]
    {
      StepAtWorker(s, Commit(w), i);
    }
    CommitAtLog(s, w, s.workers[w].log);
    forall k | 0 <= k < |s.logs| && k != s.workers[w].log
      ensures s'.logs[k] == s.logs[k]
    {
      CommitAtLog(s, w, k);
    }
  }

  lemma CommitEvolves(s: State, w: nat)
    requires Enabled(s, Commit(w)) && WorkerOk(s, w) && LocksOk(s) && OwnerOk(s)
    ensures Evolves(s, Next(s, Commit(w)), Some(w))
  {
    var Worker(_, log, Writing(write, _)) := s.workers[w];
    var s' := Next(s, Commit(w));
    CommitRewrites(s, w);
    if write.SettleRow? {
      CommitTarget(s, w);
      SettleEvolves(s, s', w, log, write.row, write.written);
    } else if write.CreateRow? {
      CreateEvolves(s, s', w, log, write.written);
    } else {
      NoteEvolves(s, s', w, log);
    }
  }

  /** Every step but a commit leaves the tables alone, or appends to one of them. */
  lemma QuietStepFrames(s: State, l: Label)
    requires Enabled(s, l) && !l.Commit?
    ensures Next(s, l).owner == s.owner
    ensures Next(s, l).txns == if l.Create? then s.txns + [l.row] else s.txns
    ensures Next(s, l).logs == if l.Receive? then s.logs + [LogRow(l.task, l.body, None, false, None)] else s.logs
    ensures !l.Notify? ==> Next(s, l).signals == s.signals
  {
  }

  /** Only commits give rows a settler. */
  lemma NewOwners(s: State, l: Label, r: nat)
    requires Enabled(s, l) && r !in s.owner && r in Next(s, l).owner
    ensures l.Commit? && Next(s, l).owner[r] == l.w
  {
    if !l.Commit? {
      QuietStepFrames(s, l);
    }
  }

  /** What a commit does, field by field, when it gives a row a settler. */
  lemma CommitShape(s: State, w: nat, r: nat)
    requires Enabled(s, Commit(w)) && r in Next(s, Commit(w)).owner && r !in s.owner
    ensures var Worker(_, _, Writing(write, _)) := s.workers[w]; var s' := Next(s, Commit(w));
      && (write.SettleRow? || write.CreateRow?)
      && r < |s'.txns| && s'.txns[r] == write.written && s'.workers[w].pc.Notifying?
  {
  }

  lemma CommitKeepsIdentity(s: State, w: nat, i: nat)
    requires Enabled(s, Commit(w)) && i < |s.workers|
    ensures var s' := Next(s, Commit(w)); i < |s'.workers| && s'.workers[i] == s.workers[i].(pc := s'.workers[i].pc)
  {
  }

  lemma DecideKeepsIdentity(s: State, w: nat, now: nat, i: nat)
    requires Enabled(s, Decide(w, now)) && i < |s.workers|
    ensures var s' := Next(s, Decide(w, now));
      i < |s'.workers| && s'.workers[i] == s.workers[i].(pc := s'.workers[i].pc)
  {
  }

  lemma StepKeepsIdentity(s: State, l: Label, i: nat)
    requires Enabled(s, l) && i < |s.workers|
    ensures var s' := Next(s, l); i < |s'.workers| && s'.workers[i] == s.workers[i].(pc := s'.workers[i].pc)
  {
    match l
    case Commit(w) => CommitKeepsIdentity(s, w, i);
    case Decide(w, now) => DecideKeepsIdentity(s, w, now, i);
    case _ =>
  }

  lemma StepKeepsOthers(s: State, l: Label, i: nat)
    requires Enabled(s, l) && i < |s.workers| && Actor(l) != Some(i)
    ensures i < |Next(s, l).workers| && Next(s, l).workers[i] == s.workers[i]
  {
  }

  /** Workers never disappear or change task and log; only the actor's program counter changes. */
  lemma StepAtWorker(s: State, l: Label, i: nat)
    requires Enabled(s, l) && i < |s.workers|
    ensures i < |Next(s, l).workers|
    ensures Next(s, l).workers[i].task == s.workers[i].task && Next(s, l).workers[i].log == s.workers[i].log
    ensures Actor(l) != Some(i) ==> Next(s, l).workers[i] == s.workers[i]
  {
    StepKeepsIdentity(s, l, i);
    if Actor(l) != Some(i) {
      StepKeepsOthers(s, l, i);
    }
  }

  lemma StepCountsWorkers(s: State, l: Label)
    requires Enabled(s, l)
    ensures |Next(s, l).workers| == |s.workers| + (if l.Dispatch? then 1 else 0)
  {
  }

  lemma FramesEvolve(s: State, s': State, actor: Option<nat>)
    requires s.txns <= s'.txns && s.logs <= s'.logs && s'.owner == s.owner && |s.workers| <= |s'.workers|
    requires forall i :: 0 <= i < |s.workers| ==>
               && s'.workers[i].task == s.workers[i].task && s'.workers[i].log == s.workers[i].log
               && (actor != Some(i) ==> s'.workers[i] == s.workers[i])
    ensures Evolves(s, s', actor)
  {
  }

  lemma QuietStepEvolves(s: State, l: Label)
    requires Enabled(s, l) && !l.Commit?
    ensures Evolves(s, Next(s, l), Actor(l))
  {
    var s' := Next(s, l);
    QuietStepFrames(s, l);
    StepCountsWorkers(s, l);
    forall i | 0 <= i < |s.workers|
      ensures s'.workers[i].task == s.workers[i].task && s'.workers[i].log == s.workers[i].log
      ensures Actor(l) != Some(i) ==> s'.workers[i] == s.workers[i]
    {
      StepAtWorker(s, l, i);
    }
    FramesEvolve(s, s', Actor(l));
  }

  lemma StepEvolves(s: State, l: Label)
    requires Inv(s) && Enabled(s, l)
    ensures Evolves(s, Next(s, l), Actor(l))
  {
    if l.Commit? {
      assert WorkerOk(s, l.w);
      CommitEvolves(s, l.w);
    } else {
      QuietStepEvolves(s, l);
    }
  }

  // ----- preservation -----

  lemma CommitKeepsTable(s: State, w: nat)
    requires Enabled(s, Commit(w)) && TableOk(s.txns) && WorkerOk(s, w)
    ensures TableOk(Next(s, Commit(w)).txns)
  {
    var log := s.workers[w].log;
    match s.workers[w].pc.write {
      case SettleRow(r, written, job, now) =>
        if job.Keyed? {
          ParseIsSound(s.workers[w].task, s.logs[log].body);
          SettleKeepsRowOk(s.txns[r], job, s.logs[log].body, now);
        } else {
          SettleC2bKeepsRowOk(s.txns[r], job.c, s.logs[log].body, now);
        }
        UpdateKeepsTableOk(s.txns, r, written);
      case CreateRow(written, job) => InsertKeepsTableOk(s.txns, written);
      case _ =>
    }
  }

  /** A receipt on record stays on record: its row is terminal. */
  lemma RecordedStays(before: seq<Row>, after: seq<Row>, transId: Option<string>)
    requires TableOk(before) && Extends(before, after) && Recorded(before, transId)
    ensures Recorded(after, transId)
  {
    var i :| 0 <= i < |before| && before[i].receipt == transId;
    assert RowOk(before[i]) && after[i].receipt == transId;
  }

  /** A worker that did not move is still right about the database. */
  lemma OthersStayOk(s: State, s': State, actor: Option<nat>, i: nat)
    requires Evolves(s, s', actor) && LocksOk(s) && TableOk(s.txns)
    requires i < |s.workers| && actor != Some(i) && WorkerOk(s, i)
    ensures WorkerOk(s', i)
  {
    var worker := s.workers[i];
    assert forall job :: Carries(s, worker, job) ==> Carries(s', worker, job);
    if Holds(worker.pc).Some? {
      assert s.locks[Holds(worker.pc).value] == i;
    } else if worker.pc.Writing? && worker.pc.write.NoteProcessed? {
      RecordedStays(s.txns, s'.txns, s.logs[worker.log].body.c2b.transId);
    }
  }

  /** The three ways a worker may change the lock table: keep, take a free row, release its own. */
  lemma LocksAfter(s: State, s': State, w: nat)
    requires LocksOk(s) && w < |s.workers| == |s'.workers|
    requires forall i :: 0 <= i < |s.workers| && i != w ==> s'.workers[i] == s.workers[i]
    requires LockMove(s, s', w)
    ensures LocksOk(s')
  {
  }

  /** How the acting worker changes the lock table. */
  ghost predicate LockMove(s: State, s': State, w: nat)
    requires w < |s.workers| && w < |s'.workers|
  {
    var was := Holds(s.workers[w].pc);
    var will := Holds(s'.workers[w].pc);
    || (will == was && s'.locks == s.locks)
    || (was.None? && will.Some? && will.value !in s.locks && s'.locks == s.locks[will.value := w])
    || (will.None? && s'.locks == Release(s.locks, was))
  }

  lemma CommitMovesLock(s: State, w: nat)
    requires Enabled(s, Commit(w))
    ensures LockMove(s, Next(s, Commit(w)), w)
  {
  }

  lemma DecideMovesLock(s: State, w: nat, now: nat)
    requires Enabled(s, Decide(w, now))
    ensures LockMove(s, Next(s, Decide(w, now)), w)
  {
  }

  lemma TryMovesLock(s: State, w: nat)
    requires Enabled(s, Try(w))
    ensures LockMove(s, Next(s, Try(w)), w)
  {
  }

  lemma LockMovesLock(s: State, w: nat, now: nat)
    requires Enabled(s, Lock(w, now))
    ensures LockMove(s, Next(s, Lock(w, now)), w)
  {
  }

  lemma StopMovesLock(s: State, l: Label)
    requires Enabled(s, l) && (l.Abort? || l.Crash?)
    ensures l.w < |s.workers| && LockMove(s, Next(s, l), l.w)
  {
  }

  lemma ActorMovesLock(s: State, l: Label, w: nat)
    requires Enabled(s, l) && Actor(l) == Some(w)
    ensures w < |s.workers| && w < |Next(s, l).workers| && LockMove(s, Next(s, l), w)
  {
    match l
    case Commit(_) => CommitMovesLock(s, w);
    case Decide(_, now) => DecideMovesLock(s, w, now);
    case Try(_) => TryMovesLock(s, w);
    case Lock(_, now) => LockMovesLock(s, w, now);
    case Abort(_) => StopMovesLock(s, l);
    case Crash(_) => StopMovesLock(s, l);
    case _ =>
  }

  lemma OthersFrame(s: State, l: Label, w: nat)
    requires Enabled(s, l) && Actor(l) == Some(w)
    ensures w < |s.workers| == |Next(s, l).workers|
    ensures forall i :: 0 <= i < |s.workers| && i != w ==> Next(s, l).workers[i] == s.workers[i]
  {
    StepCountsWorkers(s, l);
    forall i | 0 <= i < |s.workers| && i != w
      ensures Next(s, l).workers[i] == s.workers[i]
    {
      StepAtWorker(s, l, i);
    }
  }

  lemma IdleKeepsLocks(s: State, l: Label)
    requires LocksOk(s) && Enabled(s, l) && Actor(l).None?
    ensures LocksOk(Next(s, l))
  {
  }

  lemma StepKeepsLocks(s: State, l: Label)
    requires LocksOk(s) && Enabled(s, l)
    ensures LocksOk(Next(s, l))
  {
    if Actor(l).Some? {
      var w := Actor(l).value;
      OthersFrame(s, l, w);
      ActorMovesLock(s, l, w);
      LocksAfter(s, Next(s, l), w);
    } else {
      IdleKeepsLocks(s, l);
    }
  }

  lemma LoaderStaysOk(s: State, w: nat)
    requires Enabled(s, Load(w)) && WorkerOk(s, w)
    ensures WorkerOk(Next(s, Load(w)), w)
  {
    ParseIsSound(s.workers[w].task, s.logs[s.workers[w].log].body);
  }

  lemma LockerStaysOk(s: State, w: nat, now: nat)
    requires Enabled(s, Lock(w, now)) && WorkerOk(s, w)
    ensures WorkerOk(Next(s, Lock(w, now)), w)
  {
  }

  lemma TrierStaysOk(s: State, w: nat)
    requires Enabled(s, Try(w)) && WorkerOk(s, w)
    ensures WorkerOk(Next(s, Try(w)), w)
  {
    assert s.workers[w].pc.job.Confirm?;
  }

  lemma ConfirmDeciderStaysOk(s: State, w: nat, now: nat)
    requires Enabled(s, Decide(w, now)) && WorkerOk(s, w) && s.workers[w].pc.job.Confirm?
    ensures WorkerOk(Next(s, Decide(w, now)), w)
  {
    var worker := s.workers[w];
    ParseIsSound(worker.task, s.logs[worker.log].body);
  }

  /** The row is terminal already: the log is marked. */
  lemma NotingDeciderStaysOk(s: State, w: nat, now: nat)
    requires Enabled(s, Decide(w, now)) && WorkerOk(s, w) && s.workers[w].pc.Holding? && s.workers[w].pc.job.Keyed?
    requires Terminal(s.workers[w].pc.seen.status)
    ensures WorkerOk(Next(s, Decide(w, now)), w)
  {
    var worker := s.workers[w];
    var s' := Next(s, Decide(w, now));
    ParseIsSound(worker.task, s.logs[worker.log].body);
    assert Carries(s', s'.workers[w], worker.pc.job);
  }

  lemma SettlingDeciderStaysOk(s: State, w: nat, now: nat)
    requires Enabled(s, Decide(w, now)) && WorkerOk(s, w) && s.workers[w].pc.Holding? && s.workers[w].pc.job.Keyed?
    requires !Terminal(s.workers[w].pc.seen.status)
    ensures WorkerOk(Next(s, Decide(w, now)), w)
  {
  }

  lemma DeciderStaysOk(s: State, w: nat, now: nat)
    requires Enabled(s, Decide(w, now)) && WorkerOk(s, w)
    ensures WorkerOk(Next(s, Decide(w, now)), w)
  {
    if s.workers[w].pc.job.Confirm? {
      ConfirmDeciderStaysOk(s, w, now);
    } else {
      assert s.workers[w].pc.Holding?;
      if Terminal(s.workers[w].pc.seen.status) {
        NotingDeciderStaysOk(s, w, now);
      } else {
        SettlingDeciderStaysOk(s, w, now);
      }
    }
  }

  lemma CheckerStaysOk(s: State, w: nat)
    requires Enabled(s, Check(w)) && WorkerOk(s, w)
    ensures WorkerOk(Next(s, Check(w)), w)
  {
    ParseIsSound(s.workers[w].task, s.logs[s.workers[w].log].body);
  }

  lemma StopperStaysOk(s: State, l: Label)
    requires Enabled(s, l) && (l.Select? || l.Notify? || l.Abort? || l.Crash?) && WorkerOk(s, l.w)
    ensures WorkerOk(Next(s, l), l.w)
  {
  }

  /** The acting worker is right about the database it has just changed. */
  lemma ActorStaysOk(s: State, l: Label)
    requires TableOk(s.txns) && Enabled(s, l) && Actor(l).Some? && WorkerOk(s, Actor(l).value)
    ensures WorkerOk(Next(s, l), Actor(l).value)
  {
    match l {
      case Load(w) => LoaderStaysOk(s, w);
      case Lock(w, now) => LockerStaysOk(s, w, now);
      case Check(w) => CheckerStaysOk(s, w);
      case Try(w) => TrierStaysOk(s, w);
      case Decide(w, now) => DeciderStaysOk(s, w, now);
      case Commit(w) => CommitterStaysOk(s, w);
      case _ => StopperStaysOk(s, l);
    }
  }

  lemma SettlerStaysOk(s: State, w: nat)
    requires TableOk(s.txns) && Enabled(s, Commit(w)) && WorkerOk(s, w) && s.workers[w].pc.write.SettleRow?
    ensures WorkerOk(Next(s, Commit(w)), w)
  {
    var worker := s.workers[w];
    var SettleRow(r, written, job, now) := worker.pc.write;
    var body := s.logs[worker.log].body;
    ParseIsSound(worker.task, body);
    if job.Keyed? {
      SettleKeepsRowOk(s.txns[r], job, body, now);
    } else {
      SettleC2bKeepsRowOk(s.txns[r], job.c, body, now);
    }
  }

  lemma CommitterStaysOk(s: State, w: nat)
    requires TableOk(s.txns) && Enabled(s, Commit(w)) && WorkerOk(s, w)
    ensures WorkerOk(Next(s, Commit(w)), w)
  {
    if s.workers[w].pc.write.SettleRow? {
      SettlerStaysOk(s, w);
    } else {
      ParseIsSound(s.workers[w].task, s.logs[s.workers[w].log].body);
    }
  }

  lemma StepKeepsWorker(s: State, l: Label, i: nat)
    requires Inv(s) && Enabled(s, l) && i < |s.workers|
    ensures i < |Next(s, l).workers| && WorkerOk(Next(s, l), i)
  {
    StepEvolves(s, l);
    assert WorkerOk(s, i);
    if Actor(l) == Some(i) {
      ActorStaysOk(s, l);
    } else {
      OthersStayOk(s, Next(s, l), Actor(l), i);
    }
  }

  lemma NewWorkersAreOk(s: State, l: Label, i: nat)
    requires Enabled(s, l) && |s.workers| <= i < |Next(s, l).workers|
    ensures WorkerOk(Next(s, l), i)
  {
  }

  lemma StepKeepsWorkers(s: State, l: Label)
    requires Inv(s) && Enabled(s, l)
    ensures WorkersOk(Next(s, l))
  {
    forall i | 0 <= i < |Next(s, l).workers|
      ensures WorkerOk(Next(s, l), i)
    {
      if i < |s.workers| {
        StepKeepsWorker(s, l, i);
      } else {
        NewWorkersAreOk(s, l, i);
      }
    }
  }

  lemma QuietStepKeepsSettled(s: State, l: Label, i: nat)
    requires Enabled(s, l) && !l.Commit? && i < |s.workers|
    ensures SettledRow(Next(s, l).workers[i].pc) == SettledRow(s.workers[i].pc)
  {
  }

  lemma QuietStepKeepsOwner(s: State, l: Label)
    requires Inv(s) && Enabled(s, l) && !l.Commit?
    ensures OwnerOk(Next(s, l))
  {
    QuietStepFrames(s, l);
    StepCountsWorkers(s, l);
    forall i | 0 <= i < |s.workers|
      ensures SettledRow(Next(s, l).workers[i].pc) == SettledRow(s.workers[i].pc)
    {
      QuietStepKeepsSettled(s, l, i);
    }
  }

  /** Worker `w`, settler of nothing so far, becomes the settler of row `r`. */
  lemma OwnerAfter(s: State, s': State, w: nat, r: nat)
    requires OwnerOk(s) && w < |s.workers| == |s'.workers| && SettledRow(s.workers[w].pc).None?
    requires forall i :: 0 <= i < |s.workers| && i != w ==> s'.workers[i] == s.workers[i]
    requires SettledRow(s'.workers[w].pc) == Some(r) && s'.owner == s.owner[r := w]
    requires |s.txns| <= |s'.txns| && r < |s'.txns| && Terminal(s'.txns[r].status)
    requires forall i :: 0 <= i < |s'.txns| && i != r ==> i < |s.txns| && s'.txns[i] == s.txns[i]
    requires r !in s.owner
    ensures OwnerOk(s')
  {
  }

  lemma OwnerStays(s: State, s': State)
    requires OwnerOk(s) && s'.owner == s.owner && s'.txns == s.txns && |s'.workers| == |s.workers|
    requires forall i :: 0 <= i < |s.workers| ==> SettledRow(s'.workers[i].pc) == SettledRow(s.workers[i].pc)
    ensures OwnerOk(s')
  {
  }

  lemma SettleKeepsOwner(s: State, w: nat)
    requires OwnerOk(s) && LocksOk(s) && Enabled(s, Commit(w)) && WorkerOk(s, w) && s.workers[w].pc.write.SettleRow?
    ensures OwnerOk(Next(s, Commit(w)))
  {
    OthersFrame(s, Commit(w), w);
    CommitTarget(s, w);
    OwnerAfter(s, Next(s, Commit(w)), w, s.workers[w].pc.write.row);
  }

  lemma CreateKeepsOwner(s: State, w: nat)
    requires OwnerOk(s) && Enabled(s, Commit(w)) && WorkerOk(s, w) && s.workers[w].pc.write.CreateRow?
    ensures OwnerOk(Next(s, Commit(w)))
  {
    OthersFrame(s, Commit(w), w);
    OwnerAfter(s, Next(s, Commit(w)), w, |s.txns|);
  }

  lemma NoteKeepsOwner(s: State, w: nat)
    requires OwnerOk(s) && Enabled(s, Commit(w))
    requires s.workers[w].pc.write.NoteRejected? || s.workers[w].pc.write.NoteProcessed?
    ensures OwnerOk(Next(s, Commit(w)))
  {
    OthersFrame(s, Commit(w), w);
    OwnerStays(s, Next(s, Commit(w)));
  }

  lemma CommitKeepsOwner(s: State, w: nat)
    requires OwnerOk(s) && LocksOk(s) && Enabled(s, Commit(w)) && WorkerOk(s, w)
    ensures OwnerOk(Next(s, Commit(w)))
  {
    match s.workers[w].pc.write
    case SettleRow(_, _, _, _) => SettleKeepsOwner(s, w);
    case CreateRow(_, _) => CreateKeepsOwner(s, w);
    case _ => NoteKeepsOwner(s, w);
  }

  /** A delivery that settles nothing is also a no-op of the replay. */
  lemma NoOpDelivery(txns: seq<Row>, job: Job, r: nat, body: Body, now: nat)
    requires TableOk(txns) && job.Keyed? && r < |txns| && Matches(txns[r], job.key)
    requires Terminal(txns[r].status) || !Storable(job)
    ensures Deliver(txns, job, body, now) == txns
  {
    FindIsTheOnly(txns, job.key, r);
  }

  lemma DecideKeepsHistory(s: State, w: nat, now: nat)
    requires HistoryOk(s) && TableOk(s.txns) && Enabled(s, Decide(w, now)) && WorkerOk(s, w)
    ensures HistoryOk(Next(s, Decide(w, now)))
  {
    var worker := s.workers[w];
    if worker.pc.Holding? && worker.pc.job.Keyed? {
      var job := worker.pc.job;
      var body := s.logs[worker.log].body;
      ReplaySnoc(s.history, Delivered(worker.log, job, body, now));
      if Terminal(worker.pc.seen.status) || !Storable(job) {
        NoOpDelivery(s.txns, job, worker.pc.row, body, now);
      }
    }
  }

  /** Settling a locked row is what the sequential delivery would have done. */
  lemma SettleIsDelivery(txns: seq<Row>, job: Job, r: nat, body: Body, now: nat)
    requires UniqueKeys(txns) && job.Keyed? && Storable(job) && r < |txns|
    requires Matches(txns[r], job.key) && !Terminal(txns[r].status)
    ensures Deliver(txns, job, body, now) == txns[r := Settle(txns[r], job, body, now)]
  {
    FindIsTheOnly(txns, job.key, r);
  }

  lemma SettleKeepsHistory(s: State, w: nat)
    requires HistoryOk(s) && UniqueKeys(s.txns) && Enabled(s, Commit(w)) && WorkerOk(s, w)
    requires s.workers[w].pc.write.SettleRow? && s.workers[w].pc.write.job.Keyed?
    ensures HistoryOk(Next(s, Commit(w)))
  {
    var Worker(_, log, Writing(SettleRow(r, _, job, now), _)) := s.workers[w];
    SettleIsDelivery(s.txns, job, r, s.logs[log].body, now);
    ReplaySnoc(s.history, Delivered(log, job, s.logs[log].body, now));
  }

  lemma ConfirmKeepsHistory(s: State, w: nat)
    requires HistoryOk(s) && Enabled(s, Commit(w)) && WorkerOk(s, w)
    requires s.workers[w].pc.write.SettleRow? && s.workers[w].pc.write.job.Confirm?
    ensures HistoryOk(Next(s, Commit(w)))
  {
    var Worker(_, log, Writing(SettleRow(r, written, _, _), _)) := s.workers[w];
    ReplaySnoc(s.history, Confirmed(log, r, written));
  }

  lemma CreateKeepsHistory(s: State, w: nat)
    requires HistoryOk(s) && Enabled(s, Commit(w)) && s.workers[w].pc.write.CreateRow?
    ensures HistoryOk(Next(s, Commit(w)))
  {
    var Worker(_, log, Writing(write, _)) := s.workers[w];
    ReplaySnoc(s.history, Confirmed(log, |s.txns|, write.written));
  }

  lemma NoteKeepsHistory(s: State, w: nat)
    requires HistoryOk(s) && Enabled(s, Commit(w))
    requires s.workers[w].pc.write.NoteRejected? || s.workers[w].pc.write.NoteProcessed?
    ensures HistoryOk(Next(s, Commit(w)))
  {
  }

  lemma CommitKeepsHistory(s: State, w: nat)
    requires HistoryOk(s) && UniqueKeys(s.txns) && Enabled(s, Commit(w)) && WorkerOk(s, w)
    ensures HistoryOk(Next(s, Commit(w)))
  {
    var write := s.workers[w].pc.write;
    if write.SettleRow? && write.job.Keyed? {
      SettleKeepsHistory(s, w);
    } else if write.SettleRow? {
      ConfirmKeepsHistory(s, w);
    } else if write.CreateRow? {
      CreateKeepsHistory(s, w);
    } else {
      NoteKeepsHistory(s, w);
    }
  }

  lemma LockKeepsHistory(s: State, w: nat, now: nat)
    requires HistoryOk(s) && Enabled(s, Lock(w, now))
    ensures HistoryOk(Next(s, Lock(w, now)))
  {
    var worker := s.workers[w];
    ReplaySnoc(s.history, Delivered(worker.log, worker.pc.job, s.logs[worker.log].body, now));
  }

  lemma OthersKeepHistory(s: State, l: Label)
    requires HistoryOk(s) && Enabled(s, l) && !l.Lock? && !l.Decide? && !l.Commit?
    ensures HistoryOk(Next(s, l))
  {
    if l.Create? {
      ReplaySnoc(s.history, Created(l.row));
    }
  }

  lemma StepKeepsHistory(s: State, l: Label)
    requires Inv(s) && Enabled(s, l)
    ensures HistoryOk(Next(s, l))
  {
    match l
    case Lock(w, now) => LockKeepsHistory(s, w, now);
    case Decide(w, now) =>
      assert WorkerOk(s, w);
      DecideKeepsHistory(s, w, now);
    case Commit(w) =>
      assert WorkerOk(s, w);
      CommitKeepsHistory(s, w);
    case _ => OthersKeepHistory(s, l);
  }

  lemma StepKeepsTable(s: State, l: Label)
    requires Inv(s) && Enabled(s, l)
    ensures TableOk(Next(s, l).txns)
  {
    if l.Commit? {
      assert WorkerOk(s, l.w);
      CommitKeepsTable(s, l.w);
    } else {
      QuietStepFrames(s, l);
      if l.Create? {
        InsertKeepsTableOk(s.txns, l.row);
      }
    }
  }

  /** Every step of every worker and of the environment keeps the invariant. */
  lemma StepKeepsInv(s: State, l: Label)
    requires Inv(s) && Enabled(s, l)
    ensures Inv(Next(s, l))
  {
    StepKeepsTable(s, l);
    StepKeepsLocks(s, l);
    StepKeepsWorkers(s, l);
    if l.Commit? {
      assert WorkerOk(s, l.w);
      CommitKeepsOwner(s, l.w);
    } else {
      QuietStepKeepsOwner(s, l);
    }
    StepKeepsHistory(s, l);
  }

  lemma {:induction false} RunKeepsInv(run: seq<State>, labels: seq<Label>, k: nat)
    requires IsRun(run, labels) && k < |run|
    ensures Inv(run[k])
  {
    if k == 0 {
      InitialInv();
    } else {
      RunKeepsInv(run, labels, k - 1);
      assert Enabled(run[k - 1], labels[k - 1]);
      StepKeepsInv(run[k - 1], labels[k - 1]);
    }
  }
}
