/** A worker with the database to itself does exactly what the sequential task does. */
module SoloRuns {
  import opened Models
  import opened Payloads
  import opened Settlement
  import opened Paths
  import opened Protocol
  import opened ProtocolInvariant
  import opened Progress

  /** The steps of worker `w`. */
  ghost function StepsOf(w: nat): (State, Label, State) -> bool {
    (s, l, t) => Transition(s, l, t) && Actor(l) == Some(w)
  }

  /** Worker `w` alone gets from `s` to `t`. */
  ghost predicate Alone(s: State, w: nat, t: State) {
    Goes(StepsOf(w), s, t)
  }

  lemma AloneNext(s: State, w: nat, t: State, l: Label, u: State)
    requires Alone(s, w, t) && Enabled(t, l) && Actor(l) == Some(w) && Next(t, l) == u
    ensures Alone(s, w, u)
  {
    GoesNext(StepsOf(w), s, t, l, u);
  }

  lemma AloneIsReachable(s: State, w: nat, t: State)
    requires Reaches(s) && Alone(s, w, t)
    ensures Reaches(t)
  {
    GoesMore(StepsOf(w), Transition, s, t);
    GoesThrough(Transition, INITIAL, s, t);
  }

  lemma AloneKeepsWorkers(s: State, w: nat, t: State)
    requires Alone(s, w, t)
    ensures |t.workers| == |s.workers|
  {
    var n := |s.workers|;
    forall u, l, v | StepsOf(w)(u, l, v) && |u.workers| == n
      ensures |v.workers| == n
    {
      StepCountsWorkers(u, l);
    }
    GoesKeeps(StepsOf(w), (u: State) => |u.workers| == n, s, t);
  }

  /** The database part of a state. */
  function Database(s: State): Db {
    Db(s.txns, s.logs, s.signals)
  }

  /** What a finished solo run must have achieved. */
  ghost predicate Achieves(s: State, w: nat, ran: Ran)
    requires w < |s.workers|
  {
    && Database(s) == ran.db
    && s.locks == map[]
    && s.workers[w].pc.Finished?
    && (if ran.ending == Raised then s.workers[w].pc.fate.Threw? else s.workers[w].pc.fate.Ended?)
  }

  /** Committing a note. */
  lemma SoloNote(s0: State, s: State, w: nat) returns (t: State)
    requires Alone(s0, w, s) && At(s, w) && s.workers[w].pc.Writing? && Release(s.locks, s.workers[w].pc.held) == map[]
    requires s.workers[w].pc.write.NoteRejected? || s.workers[w].pc.write.NoteProcessed?
    ensures Alone(s0, w, t) && w < |t.workers|
    ensures var Worker(_, log, Writing(write, _)) := s.workers[w];
      var logs := if write.NoteProcessed? then MarkProcessed(s.logs, log) else Reject(s.logs, log, write.message);
      Achieves(t, w, Ran(Db(s.txns, logs, s.signals), Returned))
  {
    t := Next(s, Commit(w));
    AloneNext(s0, w, s, Commit(w), t);
  }

  lemma SoloNotify(s0: State, s: State, w: nat) returns (t: State)
    requires Alone(s0, w, s) && At(s, w) && s.workers[w].pc.Notifying? && s.locks == map[]
    ensures Alone(s0, w, t) && w < |t.workers|
    ensures var Notifying(r, job) := s.workers[w].pc;
      Achieves(t, w, Ran(Db(s.txns, s.logs, s.signals + [Signal(r, SignalFor(job))]), Returned))
  {
    t := Next(s, Notify(w));
    AloneNext(s0, w, s, Notify(w), t);
  }

  /** Committing a settlement or a creation, and sending its signal. */
  lemma SoloCommit(s0: State, s: State, w: nat) returns (t: State)
    requires Alone(s0, w, s) && At(s, w) && s.workers[w].pc.Writing? && Release(s.locks, s.workers[w].pc.held) == map[]
    requires var write := s.workers[w].pc.write;
      write.CreateRow? || (write.SettleRow? && write.row < |s.txns|)
    ensures Alone(s0, w, t) && w < |t.workers|
    ensures var Worker(_, log, Writing(write, _)) := s.workers[w];
      var r := if write.CreateRow? then |s.txns| else write.row;
      var txns := if write.CreateRow? then s.txns + [write.written] else s.txns[r := write.written];
      Achieves(t, w, Ran(Db(txns, LinkTo(s.logs, log, r), s.signals + [Signal(r, SignalFor(write.job))]), Returned))
  {
    var s1 := Next(s, Commit(w));
    AloneNext(s0, w, s, Commit(w), s1);
    t := SoloNotify(s0, s1, w);
  }

  /** A keyed row, locked by the only worker. */
  lemma SoloHolding(s0: State, s: State, w: nat, now: nat) returns (t: State)
    requires At(s, w) && s.workers[w].pc.Holding? && s.workers[w].pc.job.Keyed?
    requires var Holding(job, r, seen) := s.workers[w].pc;
      s.locks == map[r := w] && r < |s.txns| && seen == s.txns[r] && Find(s.txns, job.key) == Some(r)
    requires Alone(s0, w, s)
    ensures Alone(s0, w, t) && w < |t.workers|
    ensures var Worker(_, log, pc) := s.workers[w];
      Achieves(t, w, RunKeyed(Database(s), log, pc.job, s.logs[log].body, now))
  {
    var Holding(job, r, seen) := s.workers[w].pc;
    t := Next(s, Decide(w, now));
    AloneNext(s0, w, s, Decide(w, now), t);
    if Terminal(seen.status) {
      t := SoloNote(s0, t, w);
    } else if Storable(job) {
      t := SoloCommit(s0, t, w);
    }
  }

  /** From a parsed keyed job, in a database without locks. */
  lemma SoloKeyed(s0: State, s: State, w: nat, now: nat) returns (t: State)
    requires s.locks == map[] && At(s, w)
    requires s.workers[w].pc.Parsed? && s.workers[w].pc.job.Keyed? && Alone(s0, w, s)
    ensures Alone(s0, w, t) && w < |t.workers|
    ensures var Worker(_, log, pc) := s.workers[w];
      Achieves(t, w, RunKeyed(Database(s), log, pc.job, s.logs[log].body, now))
  {
    t := Next(s, Lock(w, now));
    AloneNext(s0, w, s, Lock(w, now), t);
    if Find(s.txns, s.workers[w].pc.job.key).None? {
      t := SoloNote(s0, t, w);
    } else {
      t := SoloHolding(s0, t, w, now);
    }
  }

  /** From the first candidate, locked, or from none. */
  lemma SoloMatched(s0: State, s: State, w: nat, now: nat) returns (t: State)
    requires Enabled(s, Decide(w, now)) && Alone(s0, w, s) && s.workers[w].pc.job.Confirm?
    requires var pc := s.workers[w].pc;
      && !Recorded(s.txns, pc.job.c.transId)
      && (pc.Selecting? ==> s.locks == map[] && Newest(s.txns, pc.job.c.billRef) == None)
      && (pc.Holding? ==>
            && s.locks == map[pc.row := w] && pc.row < |s.txns| && pc.seen == s.txns[pc.row]
            && Newest(s.txns, pc.job.c.billRef) == Some(pc.row))
    ensures Alone(s0, w, t) && w < |t.workers|
    ensures var Worker(_, log, pc) := s.workers[w];
      Achieves(t, w, RunConfirm(Database(s), log, pc.job.c, s.logs[log].body, now))
  {
    var u := Next(s, Decide(w, now));
    AloneNext(s0, w, s, Decide(w, now), u);
    t := SoloCommit(s0, u, w);
  }

  /** A C2B confirmation past the receipt check, with the answer of its query. */
  lemma SoloSelecting(s0: State, s: State, w: nat, now: nat) returns (t: State)
    requires s.locks == map[] && At(s, w) && Alone(s0, w, s)
    requires s.workers[w].pc.Selecting? && s.workers[w].pc.job.Confirm?
    requires var Selecting(job, cands) := s.workers[w].pc;
      && !Recorded(s.txns, job.c.transId)
      && Newest(s.txns, job.c.billRef) == if |cands| == 0 then None else Some(cands[0])
    ensures Alone(s0, w, t) && w < |t.workers|
    ensures var Worker(_, log, pc) := s.workers[w];
      Achieves(t, w, RunConfirm(Database(s), log, pc.job.c, s.logs[log].body, now))
  {
    if |s.workers[w].pc.cands| > 0 {
      t := Next(s, Try(w));
      AloneNext(s0, w, s, Try(w), t);
      t := SoloMatched(s0, t, w, now);
    } else {
      t := SoloMatched(s0, s, w, now);
    }
  }

  lemma SoloConfirm(s0: State, s: State, w: nat, now: nat) returns (t: State)
    requires s.locks == map[] && At(s, w) && Alone(s0, w, s)
    requires s.workers[w].pc.Parsed? && s.workers[w].pc.job.Confirm?
    ensures Alone(s0, w, t) && w < |t.workers|
    ensures var Worker(_, log, pc) := s.workers[w];
      Achieves(t, w, RunConfirm(Database(s), log, pc.job.c, s.logs[log].body, now))
  {
    var job := s.workers[w].pc.job;
    t := Next(s, Check(w));
    AloneNext(s0, w, s, Check(w), t);
    if Recorded(s.txns, job.c.transId) {
      t := SoloNote(s0, t, w);
    } else {
      var cands := QueryAnswers(t.txns, job.c.billRef);
      SelectGoesOn(t, w, cands);
      var u := Goto(t, w, Selecting(job, cands));
      AloneNext(s0, w, t, Select(w, cands), u);
      t := SoloSelecting(s0, u, w, now);
    }
  }

  /** Whatever the log and the (unlocked) database, a task entered with nobody else moving can run
      to its end, and there it has done what RunTask says: same tables, same signals, and it
      raised exactly if RunTask raises. */
  lemma SoloRunIsTheTask(s: State, w: nat, now: nat) returns (t: State)
    requires s.locks == map[] && At(s, w) && s.workers[w].pc == Called
    ensures Alone(s, w, t) && w < |t.workers|
    ensures Achieves(t, w, RunTask(Database(s), s.workers[w].task, s.workers[w].log, now))
  {
    var Worker(task, log, _) := s.workers[w];
    GoesHere(StepsOf(w), s);
    t := Next(s, Load(w));
    AloneNext(s, w, s, Load(w), t);
    match Parse(task, s.logs[log].body)
    case Broken =>
    case Missing(_) => t := SoloNote(s, t, w);
    case Ready(job) =>
      if job.Keyed? {
        t := SoloKeyed(s, t, w, now);
      } else {
        t := SoloConfirm(s, t, w, now);
      }
  }
}
