/** What every settled row of every interleaved run holds, told by the body of the log behind it. */
module Outcomes {
  import opened Models
  import opened Payloads
  import opened Settlement
  import opened Requirements
  import opened Paths
  import opened Protocol
  import opened ProtocolInvariant
  import opened ProtocolSafety
  import opened LogBook

  /** On the table `before`, a callback with this body turns row `r` into `now`: the waiting row its
      task names, or for a confirmation without one a new row. */
  predicate Tells(task: Task, before: seq<Row>, r: nat, body: Body, time: nat, now: Row) {
    if r < |before| then
      && before[r].status == Status.Pending && before[r].receipt == None && before[r].settledAt == None
      && match task
         case StkCallback =>
           body.stk.Stk? && body.stk.checkoutId.Some? && before[r].checkoutId == body.stk.checkoutId
           && StkSettles(before[r], body, time, now)
         case B2cResult =>
           body.result.Outcome? && body.result.conversationId.Some?
           && before[r].conversationId == body.result.conversationId
           && B2cSettles(before[r], body, time, now)
         case B2cTimeout =>
           body.result.Outcome? && body.result.conversationId.Some?
           && before[r].conversationId == body.result.conversationId
           && TimeoutSettles(before[r], body, time, now)
         case C2bConfirmation => Waits(before[r], body.c2b.billRef) && C2bSettles(before[r], body, time, now)
    else task == C2bConfirmation && r == |before| && C2bCreates(body, time, now)
  }

  // ----- one worker -----

  /** The worker is about to commit a settlement or a new row. */
  predicate Writes(pc: Pc) {
    pc.Writing? && (pc.write.SettleRow? || pc.write.CreateRow?)
  }

  lemma DecisionStamps(s: State, w: nat, now: nat)
    requires Enabled(s, Decide(w, now)) && w < |Next(s, Decide(w, now)).workers|
    requires Writes(Next(s, Decide(w, now)).workers[w].pc)
    ensures Next(s, Decide(w, now)).workers[w].pc.write.written.settledAt == Some(now)
  {
  }

  lemma OthersDoNotWrite(s: State, l: Label, w: nat)
    requires Enabled(s, l) && Actor(l) == Some(w) && !l.Decide? && w < |Next(s, l).workers|
    ensures !Writes(Next(s, l).workers[w].pc)
  {
  }

  lemma NewWorkersDoNotWrite(s: State, l: Label, w: nat)
    requires Enabled(s, l) && |s.workers| <= w < |Next(s, l).workers|
    ensures !Writes(Next(s, l).workers[w].pc)
  {
  }

  /** Only its own decision makes a worker write, and stamps what it writes. */
  lemma WritingIsDeciding(s: State, l: Label, w: nat)
    requires Enabled(s, l) && w < |Next(s, l).workers| && Writes(Next(s, l).workers[w].pc)
    requires w < |s.workers| ==> s.workers[w].pc != Next(s, l).workers[w].pc
    ensures l.Decide? && l.w == w && Next(s, l).workers[w].pc.write.written.settledAt == Some(l.now)
  {
    if w >= |s.workers| {
      NewWorkersDoNotWrite(s, l, w);
    } else if Actor(l) != Some(w) {
      StepKeepsOthers(s, l, w);
    } else if l.Decide? {
      DecisionStamps(s, w, l.now);
    } else {
      OthersDoNotWrite(s, l, w);
    }
  }

  /** A worker that will overwrite a row tells the row by its log's body. */
  lemma KeyedWriteTells(s: State, w: nat, time: nat)
    requires Inv(s) && w < |s.workers| && Writes(s.workers[w].pc) && s.workers[w].pc.write.SettleRow?
    requires s.workers[w].task != C2bConfirmation && s.workers[w].pc.write.written.settledAt == Some(time)
    ensures s.workers[w].log < |s.logs|
    ensures var Worker(task, log, Writing(write, _)) := s.workers[w];
      Tells(task, s.txns, write.row, s.logs[log].body, time, write.written)
  {
    assert WorkerOk(s, w);
    var Worker(task, log, Writing(write, _)) := s.workers[w];
    var body := s.logs[log].body;
    ParseIsSound(task, body);
    assert RowOk(s.txns[write.row]);
    match task
    case StkCallback => StkRowMeets(s.txns[write.row], body, time);
    case B2cResult => B2cRowMeets(s.txns[write.row], body, time);
    case B2cTimeout => TimeoutRowMeets(s.txns[write.row], body, time);
  }

  lemma ConfirmWriteTells(s: State, w: nat, time: nat)
    requires Inv(s) && w < |s.workers| && Writes(s.workers[w].pc) && s.workers[w].pc.write.SettleRow?
    requires s.workers[w].task == C2bConfirmation && s.workers[w].pc.write.written.settledAt == Some(time)
    ensures s.workers[w].log < |s.logs|
    ensures var Worker(task, log, Writing(write, _)) := s.workers[w];
      Tells(task, s.txns, write.row, s.logs[log].body, time, write.written)
  {
    assert WorkerOk(s, w);
    ParseIsSound(s.workers[w].task, s.logs[s.workers[w].log].body);
  }

  lemma CreateWriteTells(s: State, w: nat, time: nat)
    requires Inv(s) && w < |s.workers| && Writes(s.workers[w].pc) && s.workers[w].pc.write.CreateRow?
    requires s.workers[w].pc.write.written.settledAt == Some(time)
    ensures s.workers[w].log < |s.logs|
    ensures var Worker(task, log, Writing(write, _)) := s.workers[w];
      Tells(task, s.txns, |s.txns|, s.logs[log].body, time, write.written)
  {
    assert WorkerOk(s, w);
    ParseIsSound(s.workers[w].task, s.logs[s.workers[w].log].body);
  }

  /** The commit that gives row `r` its settler leaves it as the body tells. */
  lemma CommitTells(s: State, w: nat, r: nat, time: nat)
    requires Inv(s) && Enabled(s, Commit(w)) && r !in s.owner && r in Next(s, Commit(w)).owner
    requires Writes(s.workers[w].pc) ==> s.workers[w].pc.write.written.settledAt == Some(time)
    ensures Writes(s.workers[w].pc) && s.workers[w].log < |s.logs| && r < |Next(s, Commit(w)).txns|
    ensures Tells(s.workers[w].task, s.txns, r, s.logs[s.workers[w].log].body, time, Next(s, Commit(w)).txns[r])
  {
    CommitShape(s, w, r);
    CommitNamesItsRow(s, w, r);
    if s.workers[w].pc.write.CreateRow? {
      CreateWriteTells(s, w, time);
    } else if s.workers[w].task == C2bConfirmation {
      ConfirmWriteTells(s, w, time);
    } else {
      KeyedWriteTells(s, w, time);
    }
  }

  // ----- whole runs -----

  /** Between two points of a run settlers stay, and with them their tasks, logs and bodies. */
  ghost predicate SettlerStays(s: State, t: State, r: nat) {
    r in s.owner && s.owner[r] < |s.workers| && s.workers[s.owner[r]].log < |s.logs| ==>
      && r in t.owner && t.owner[r] == s.owner[r] && t.owner[r] < |t.workers|
      && t.workers[t.owner[r]].task == s.workers[s.owner[r]].task
      && t.workers[t.owner[r]].log == s.workers[s.owner[r]].log
      && t.workers[t.owner[r]].log < |t.logs|
      && t.logs[t.workers[t.owner[r]].log].body == s.logs[s.workers[s.owner[r]].log].body
  }

  lemma StepKeepsSettler(s: State, l: Label, r: nat)
    requires Inv(s) && Enabled(s, l)
    ensures SettlerStays(s, Next(s, l), r)
  {
    StepEvolves(s, l);
  }

  lemma SettlerStaysTwice(a: State, b: State, c: State, r: nat)
    requires SettlerStays(a, b, r) && SettlerStays(b, c, r)
    ensures SettlerStays(a, c, r)
  {
  }

  lemma RunStepKeepsSettler(run: seq<State>, labels: seq<Label>, i: nat, r: nat)
    requires IsRun(run, labels) && i < |labels|
    ensures SettlerStays(run[i], run[i + 1], r)
  {
    RunKeepsInv(run, labels, i);
    assert Enabled(run[i], labels[i]);
    StepKeepsSettler(run[i], labels[i], r);
  }

  lemma {:induction false} RunKeepsSettler(run: seq<State>, labels: seq<Label>, i: nat, j: nat, r: nat)
    requires IsRun(run, labels) && i <= j < |run|
    ensures SettlerStays(run[i], run[j], r)
    decreases j - i
  {
    if i == j {
    } else {
      RunKeepsSettler(run, labels, i, j - 1, r);
      RunStepKeepsSettler(run, labels, j - 1, r);
      SettlerStaysTwice(run[i], run[j - 1], run[j], r);
    }
  }

  /** The step at which a worker began to write what it writes at `i`. */
  lemma WriterDecided(run: seq<State>, labels: seq<Label>, i: nat, w: nat) returns (d: nat, time: nat)
    requires IsRun(run, labels) && i < |run| && w < |run[i].workers| && Writes(run[i].workers[w].pc)
    ensures d < i && labels[d] == Decide(w, time)
    ensures run[i].workers[w].pc.write.written.settledAt == Some(time)
  {
    var pc := run[i].workers[w].pc;
    d := BecomesTrue((j: nat) => j < |run| && w < |run[j].workers| && run[j].workers[w].pc == pc, i);
    StepDecided(run, labels, d, w);
    time := labels[d].now;
  }

  lemma StepDecided(run: seq<State>, labels: seq<Label>, d: nat, w: nat)
    requires IsRun(run, labels) && d < |labels| && w < |run[d + 1].workers| && Writes(run[d + 1].workers[w].pc)
    requires w < |run[d].workers| ==> run[d].workers[w].pc != run[d + 1].workers[w].pc
    ensures labels[d].Decide? && labels[d].w == w
    ensures run[d + 1].workers[w].pc.write.written.settledAt == Some(labels[d].now)
  {
    assert Enabled(run[d], labels[d]);
    WritingIsDeciding(run[d], labels[d], w);
  }

  /** The step that gave row `r` its settler. */
  lemma SettlerCommitted(run: seq<State>, labels: seq<Label>, k: nat, r: nat) returns (i: nat, w: nat)
    requires IsRun(run, labels) && k < |run| && r in run[k].owner
    ensures i < k && labels[i] == Commit(w) && r !in run[i].owner
    ensures r in run[i + 1].owner && run[i + 1].owner[r] == w
  {
    i := BecomesTrue((j: nat) => j < |run| && r in run[j].owner, k);
    assert Enabled(run[i], labels[i]);
    NewOwners(run[i], labels[i], r);
    w := labels[i].w;
  }

  /** In state `t`, row `r` is what its settler `w` made of it on the table `before` at this time. */
  ghost predicate ToldBy(before: seq<Row>, t: State, r: nat, w: nat, time: nat) {
    && r in t.owner && t.owner[r] == w && r < |t.txns| && Terminal(t.txns[r].status)
    && w < |t.workers| && t.workers[w].log < |t.logs|
    && Tells(t.workers[w].task, before, r, t.logs[t.workers[w].log].body, time, t.txns[r])
  }

  lemma CommitTellsAfterwards(s: State, w: nat, r: nat, time: nat)
    requires Inv(s) && Enabled(s, Commit(w)) && r !in s.owner && r in Next(s, Commit(w)).owner
    requires Writes(s.workers[w].pc) ==> s.workers[w].pc.write.written.settledAt == Some(time)
    ensures ToldBy(s.txns, Next(s, Commit(w)), r, w, time)
  {
    CommitTells(s, w, r, time);
    NewOwners(s, Commit(w), r);
    CommitKeepsIdentity(s, w, w);
    CommitAtLog(s, w, s.workers[w].log);
    StepKeepsInv(s, Commit(w));
  }

  lemma ToldForGood(before: seq<Row>, s: State, t: State, r: nat, w: nat, time: nat)
    requires ToldBy(before, s, r, w, time) && SettlerStays(s, t, r) && Extends(s.txns, t.txns)
    ensures ToldBy(before, t, r, w, time)
  {
  }

  /** The step by which row `r` was settled: the committed row is what the body of the settler's log
      makes of the row at that step, stamped with the time of the settler's decision. */
  lemma CommitStepTells(run: seq<State>, labels: seq<Label>, i: nat, w: nat, r: nat) returns (d: nat, time: nat)
    requires IsRun(run, labels) && i < |labels| && labels[i] == Commit(w)
    requires r !in run[i].owner && r in run[i + 1].owner
    ensures d < i && labels[d] == Decide(w, time) && ToldBy(run[i].txns, run[i + 1], r, w, time)
  {
    RunKeepsInv(run, labels, i);
    assert Enabled(run[i], labels[i]);
    CommitShape(run[i], w, r);
    d, time := WriterDecided(run, labels, i, w);
    CommitTellsAfterwards(run[i], w, r, time);
  }

  lemma RunStillTells(run: seq<State>, labels: seq<Label>, i: nat, k: nat, before: seq<Row>, r: nat, w: nat, time: nat)
    requires IsRun(run, labels) && i <= k < |run| && ToldBy(before, run[i], r, w, time)
    ensures ToldBy(before, run[k], r, w, time)
  {
    RunKeepsSettler(run, labels, i, k, r);
    RunExtends(run, labels, i, k);
    ToldForGood(before, run[i], run[k], r, w, time);
  }

  /** Only the settler's log names a row. */
  lemma NamedBySettler(s: State, r: nat, j: nat)
    requires BooksOk(s) && r in s.owner && s.owner[r] < |s.workers| && j < |s.logs| && s.logs[j].related == Some(r)
    ensures j == s.workers[s.owner[r]].log
  {
    assert NamesRightly(s, j);
  }

  lemma FinalRowsHaveSettlers(run: seq<State>, labels: seq<Label>, k: nat, r: nat)
    requires IsRun(run, labels) && k < |run| && r < |run[k].txns| && Final(run[k].txns[r].status)
    ensures r in run[k].owner
  {
    RunKeepsInv(run, labels, k);
  }

  lemma CommitStillTells(run: seq<State>, labels: seq<Label>, i: nat, k: nat, w: nat, r: nat)
    returns (d: nat, time: nat)
    requires IsRun(run, labels) && i < k < |run| && labels[i] == Commit(w)
    requires r !in run[i].owner && r in run[i + 1].owner
    ensures d < i && labels[d] == Decide(w, time) && ToldBy(run[i].txns, run[k], r, w, time)
  {
    d, time := CommitStepTells(run, labels, i, w, r);
    RunStillTells(run, labels, i + 1, k, run[i].txns, r, w, time);
  }

  lemma SettlementTells(run: seq<State>, labels: seq<Label>, k: nat, r: nat)
    returns (d: nat, i: nat, w: nat, time: nat)
    requires IsRun(run, labels) && k < |run| && r in run[k].owner
    ensures d < i < k && labels[d] == Decide(w, time) && labels[i] == Commit(w)
    ensures ToldBy(run[i].txns, run[k], r, w, time)
  {
    i, w := SettlerCommitted(run, labels, k, r);
    d, time := CommitStillTells(run, labels, i, k, w, r);
  }

  lemma NamesFollow(run: seq<State>, labels: seq<Label>, k: nat, r: nat)
    requires IsRun(run, labels) && k < |run| && r in run[k].owner && run[k].owner[r] < |run[k].workers|
    ensures forall j :: 0 <= j < |run[k].logs| && run[k].logs[j].related == Some(r) ==>
              j == run[k].workers[run[k].owner[r]].log
  {
    RunKeepsBooks(run, labels, k);
    forall j | 0 <= j < |run[k].logs| && run[k].logs[j].related == Some(r)
      ensures j == run[k].workers[run[k].owner[r]].log
    {
      NamedBySettler(run[k], r, j);
    }
  }

  /** Every settled row of every run, STK, B2C or C2B, settled or created, interleaved with whatever
      else: one worker decided at step `d`, at the time the row says, and committed at step `i`; and
      column by column the row is what the body of that worker's log makes of the row as it was. No
      other log names the row. */
  lemma SettledRowsTellTheirBodies(run: seq<State>, labels: seq<Label>, k: nat, r: nat)
    returns (d: nat, i: nat, w: nat, time: nat)
    requires IsRun(run, labels) && k < |run| && r < |run[k].txns| && Final(run[k].txns[r].status)
    ensures d < i < k && labels[d] == Decide(w, time) && labels[i] == Commit(w)
    ensures w < |run[k].workers| && run[k].workers[w].log < |run[k].logs|
    ensures var Worker(task, log, _) := run[k].workers[w];
      && Tells(task, run[i].txns, r, run[k].logs[log].body, time, run[k].txns[r])
      && forall j :: 0 <= j < |run[k].logs| && run[k].logs[j].related == Some(r) ==> j == log
  {
    FinalRowsHaveSettlers(run, labels, k, r);
    d, i, w, time := SettlementTells(run, labels, k, r);
    NamesFollow(run, labels, k, r);
  }
}
