/** What the callback log says about the transactions, over whole runs. */
module LogBook {
  import opened Models
  import opened Payloads
  import opened Settlement
  import opened Protocol
  import opened ProtocolInvariant
  import opened SoloRuns

  /** The log's body parses to a keyed job and row `r` has that key. */
  predicate Concerns(log: LogRow, row: Row) {
    var parsed := Parse(log.task, log.body);
    parsed.Ready? && parsed.job.Keyed? && Matches(row, parsed.job.key)
  }

  /** Everything a settled row says is what its log's body says. */
  predicate Reflects(row: Row, log: LogRow)
    requires Concerns(log, row)
  {
    var job := Parse(log.task, log.body).job;
    && Storable(job)
    && row.status == StatusFor(job)
    && row.resultCode == (if job.task == B2cTimeout then None else Stored(job.code).value)
    && row.resultDesc == job.desc
    && row.payload == Some(log.body)
    && row.receipt == (if Truthy(job.receipt) then job.receipt else None)
  }

  /** A settled STK or B2C row is named by its settler's log, which concerns it and is reflected in it. */
  ghost predicate Linked(s: State, r: nat) {
    r in s.owner && r < |s.txns| && s.txns[r].kind != C2bPayment && s.owner[r] < |s.workers| ==>
      var log := s.workers[s.owner[r]].log;
      && log < |s.logs| && Concerns(s.logs[log], s.txns[r]) && s.logs[log].related == Some(r)
      && Reflects(s.txns[r], s.logs[log])
  }

  /** A log that names a row names a settled one, and its worker settled it. */
  ghost predicate NamesRightly(s: State, k: nat)
    requires k < |s.logs|
  {
    s.logs[k].related.Some? ==>
      var r := s.logs[k].related.value;
      && r in s.owner && r < |s.txns| && s.owner[r] < |s.workers|
      && s.workers[s.owner[r]].log == k
  }

  /** A processed STK or B2C log concerns a terminal row. */
  ghost predicate ProcessedRightly(s: State, k: nat)
    requires k < |s.logs|
  {
    s.logs[k].processed && s.logs[k].task != C2bConfirmation ==>
      exists r :: 0 <= r < |s.txns| && Concerns(s.logs[k], s.txns[r]) && Terminal(s.txns[r].status)
  }

  /** A processed C2B log with a TransID has that TransID on record. */
  ghost predicate ConfirmedRightly(s: State, k: nat)
    requires k < |s.logs|
  {
    var LogRow(task, body, _, processed, _) := s.logs[k];
    processed && task == C2bConfirmation && Truthy(body.c2b.transId) ==> Recorded(s.txns, body.c2b.transId)
  }

  /** A task that returned normally left its log processed or with an error. */
  ghost predicate LeftMark(s: State, w: nat)
    requires w < |s.workers|
  {
    var Worker(_, log, pc) := s.workers[w];
    && (pc.Finished? && pc.fate.Ended? ==> log < |s.logs| && (s.logs[log].processed || s.logs[log].error.Some?))
    && (pc.Notifying? ==> log < |s.logs| && s.logs[log].processed)
  }

  ghost predicate BooksOk(s: State) {
    && (forall r :: r in s.owner ==> Linked(s, r))
    && (forall k :: 0 <= k < |s.logs| ==> NamesRightly(s, k) && ProcessedRightly(s, k) && ConfirmedRightly(s, k))
    && (forall w :: 0 <= w < |s.workers| ==> LeftMark(s, w))
  }

  // ----- steps that are not commits leave the books as they are -----

  /** Only the settler of a row, by its identity, matters for the links. */
  lemma LinkKept(s: State, s': State, r: nat)
    requires Linked(s, r) && r in s.owner && s.owner[r] < |s.workers| && r < |s.txns| && Terminal(s.txns[r].status)
    requires Extends(s.txns, s'.txns) && r in s'.owner && s'.owner[r] == s.owner[r] && s.owner[r] < |s'.workers|
    requires s'.workers[s.owner[r]].log == s.workers[s.owner[r]].log && s.logs <= s'.logs
    ensures Linked(s', r)
  {
  }

  lemma NameKept(s: State, s': State, k: nat)
    requires k < |s.logs| && k < |s'.logs| && NamesRightly(s, k) && s'.logs[k].related == s.logs[k].related
    requires Extends(s.txns, s'.txns) && |s.workers| <= |s'.workers|
    requires forall r :: r in s.owner ==> r in s'.owner && s'.owner[r] == s.owner[r]
    requires forall i :: 0 <= i < |s.workers| ==> s'.workers[i].log == s.workers[i].log
    ensures NamesRightly(s', k)
  {
  }

  lemma QuietStepKeepsMark(s: State, l: Label, w: nat)
    requires Enabled(s, l) && !l.Commit? && w < |s.workers| && LeftMark(s, w) && s.logs <= Next(s, l).logs
    ensures w < |Next(s, l).workers| && LeftMark(Next(s, l), w)
  {
    StepKeepsIdentity(s, l, w);
    QuietStepsEndNobody(s, l, w);
  }

  lemma NewWorkersOweNoMark(s: State, l: Label, w: nat)
    requires Enabled(s, l) && |s.workers| <= w < |Next(s, l).workers|
    ensures LeftMark(Next(s, l), w)
  {
  }

  lemma QuietStepKeepsBooks(s: State, l: Label)
    requires Inv(s) && BooksOk(s) && Enabled(s, l) && !l.Commit?
    ensures BooksOk(Next(s, l))
  {
    var s' := Next(s, l);
    QuietStepEvolves(s, l);
    QuietStepFrames(s, l);
    forall r | r in s'.owner
      ensures Linked(s', r)
    {
      LinkKept(s, s', r);
    }
    forall k | 0 <= k < |s'.logs|
      ensures NamesRightly(s', k) && ProcessedRightly(s', k) && ConfirmedRightly(s', k)
    {
      if k < |s.logs| {
        NameKept(s, s', k);
        KeepsProcessedRightly(s, s', k);
        KeepsConfirmedRightly(s, s', k);
      }
    }
    forall w | 0 <= w < |s'.workers|
      ensures LeftMark(s', w)
    {
      if w < |s.workers| {
        QuietStepKeepsMark(s, l, w);
      } else {
        NewWorkersOweNoMark(s, l, w);
      }
    }
  }

  lemma KeepsProcessedRightly(s: State, s': State, k: nat)
    requires Extends(s.txns, s'.txns) && k < |s.logs| && k < |s'.logs| && ProcessedRightly(s, k)
    requires s'.logs[k].task == s.logs[k].task && s'.logs[k].body == s.logs[k].body
    requires s'.logs[k].processed == s.logs[k].processed
    ensures ProcessedRightly(s', k)
  {
    if s.logs[k].processed && s.logs[k].task != C2bConfirmation {
      var r :| 0 <= r < |s.txns| && Concerns(s.logs[k], s.txns[r]) && Terminal(s.txns[r].status);
      assert Concerns(s'.logs[k], s'.txns[r]) && Terminal(s'.txns[r].status);
    }
  }

  lemma KeepsConfirmedRightly(s: State, s': State, k: nat)
    requires TableOk(s.txns) && Extends(s.txns, s'.txns) && k < |s.logs| && k < |s'.logs| && ConfirmedRightly(s, k)
    requires s'.logs[k].task == s.logs[k].task && s'.logs[k].body == s.logs[k].body
    requires s'.logs[k].processed == s.logs[k].processed
    ensures ConfirmedRightly(s', k)
  {
    var transId := s.logs[k].body.c2b.transId;
    if Recorded(s.txns, transId) {
      RecordedStays(s.txns, s'.txns, transId);
    }
  }

  /** Without a commit, only a worker that had committed can end normally. */
  lemma QuietStepsEndNobody(s: State, l: Label, w: nat)
    requires Enabled(s, l) && !l.Commit? && w < |s.workers|
    ensures var was := s.workers[w].pc; var will := Next(s, l).workers[w].pc;
      && (will.Finished? && will.fate.Ended? ==> was.Notifying? || was == will)
      && (will.Notifying? ==> was == will)
  {
    if Actor(l) != Some(w) {
      StepKeepsOthers(s, l, w);
    } else if l.Decide? {
      DecideEndsNobody(s, w, l.now);
    } else {
      OthersEndNobody(s, l, w);
    }
  }

  lemma DecideEndsNobody(s: State, w: nat, now: nat)
    requires Enabled(s, Decide(w, now))
    ensures var will := Next(s, Decide(w, now)).workers[w].pc; !will.Notifying? && !(will.Finished? && will.fate.Ended?)
  {
  }

  lemma OthersEndNobody(s: State, l: Label, w: nat)
    requires Enabled(s, l) && Actor(l) == Some(w) && !l.Commit? && !l.Decide?
    ensures var will := Next(s, l).workers[w].pc;
      !will.Notifying? && (will.Finished? && will.fate.Ended? ==> s.workers[w].pc.Notifying?)
  {
  }

  // ----- commits -----

  /** The row a commit settles concerns nobody else's log: keys are unique and the row was open. */
  lemma CommitSparesLinkedLogs(s: State, w: nat, r: nat)
    requires UniqueKeys(s.txns) && LocksOk(s) && OwnerOk(s) && w < |s.workers| && WorkerOk(s, w)
    requires s.workers[w].pc.Writing? && s.workers[w].pc.write.SettleRow?
    requires r in s.owner && Linked(s, r) && s.txns[r].kind != C2bPayment
    ensures s.workers[s.owner[r]].log != s.workers[w].log
  {
    CommitTarget(s, w);
  }

  lemma LinkKeptByCommit(s: State, s': State, w: nat, r: nat)
    requires Linked(s, r) && r in s.owner && s.owner[r] < |s.workers| && r < |s.txns| && Terminal(s.txns[r].status)
    requires Evolves(s, s', Some(w))
    requires var log := s.workers[s.owner[r]].log; log < |s.logs| ==> s'.logs[log].related == s.logs[log].related
    ensures Linked(s', r)
  {
  }

  lemma CommitAtRelated(s: State, w: nat, k: nat)
    requires Enabled(s, Commit(w)) && k < |s.logs|
    ensures k < |Next(s, Commit(w)).logs|
    ensures k != s.workers[w].log || s.workers[w].pc.write.NoteRejected? || s.workers[w].pc.write.NoteProcessed? ==>
              Next(s, Commit(w)).logs[k].related == s.logs[k].related
  {
  }

  /** The log of an STK or B2C row's settler is no C2B log. */
  lemma LinkedLogsAreKeyed(s: State, w: nat, r: nat)
    requires w < |s.workers| && WorkerOk(s, w) && s.workers[w].pc.Writing? && s.workers[w].pc.write.CreateRow?
    requires r in s.owner && r < |s.txns| && s.owner[r] < |s.workers| && Linked(s, r) && s.txns[r].kind != C2bPayment
    ensures s.workers[s.owner[r]].log != s.workers[w].log
  {
  }

  lemma CommitKeepsLinks(s: State, w: nat, r: nat)
    requires Inv(s) && BooksOk(s) && Enabled(s, Commit(w)) && r in s.owner
    ensures Linked(Next(s, Commit(w)), r)
  {
    assert Linked(s, r) && WorkerOk(s, w);
    StepEvolves(s, Commit(w));
    if s.txns[r].kind != C2bPayment {
      CommitAtRelated(s, w, s.workers[s.owner[r]].log);
      if s.workers[w].pc.write.SettleRow? {
        CommitSparesLinkedLogs(s, w, r);
      } else if s.workers[w].pc.write.CreateRow? {
        LinkedLogsAreKeyed(s, w, r);
      }
      LinkKeptByCommit(s, Next(s, Commit(w)), w, r);
    }
  }

  lemma SettlementLinksItsRow(s: State, w: nat, r: nat)
    requires Inv(s) && Enabled(s, Commit(w)) && s.workers[w].pc.write.SettleRow? && r == s.workers[w].pc.write.row
    ensures Linked(Next(s, Commit(w)), r)
  {
    assert WorkerOk(s, w);
    CommitTarget(s, w);
    ParseIsSound(s.workers[w].task, s.logs[s.workers[w].log].body);
  }

  lemma CreationLinksItsRow(s: State, w: nat)
    requires Inv(s) && Enabled(s, Commit(w)) && s.workers[w].pc.write.CreateRow?
    ensures Linked(Next(s, Commit(w)), |s.txns|)
  {
    assert WorkerOk(s, w);
  }

  /** The row a commit gives its settler. */
  lemma CommitNamesItsRow(s: State, w: nat, r: nat)
    requires Enabled(s, Commit(w)) && r in Next(s, Commit(w)).owner && r !in s.owner
    ensures var write := s.workers[w].pc.write; var s' := Next(s, Commit(w)); var log := s.workers[w].log;
      && (if write.SettleRow? then r == write.row else write.CreateRow? && r == |s.txns|)
      && s'.owner[r] == w && log < |s'.logs| && s'.logs[log].related == Some(r) && s'.logs[log].processed
  {
  }

  lemma CommitLinksItsRow(s: State, w: nat, r: nat)
    requires Inv(s) && Enabled(s, Commit(w)) && r in Next(s, Commit(w)).owner && r !in s.owner
    ensures Linked(Next(s, Commit(w)), r)
  {
    CommitNamesItsRow(s, w, r);
    if s.workers[w].pc.write.SettleRow? {
      SettlementLinksItsRow(s, w, r);
    } else {
      CreationLinksItsRow(s, w);
    }
  }

  /** The log of a settlement or creation names the row its worker has just settled. */
  lemma CommitNamesRightly(s: State, w: nat)
    requires Inv(s) && Enabled(s, Commit(w)) && (s.workers[w].pc.write.SettleRow? || s.workers[w].pc.write.CreateRow?)
    ensures s.workers[w].log < |Next(s, Commit(w)).logs| && NamesRightly(Next(s, Commit(w)), s.workers[w].log)
  {
    assert WorkerOk(s, w);
    CommitKeepsIdentity(s, w, w);
  }

  lemma CommitKeepsNames(s: State, w: nat, k: nat)
    requires Inv(s) && BooksOk(s) && Enabled(s, Commit(w)) && k < |s.logs|
    ensures k < |Next(s, Commit(w)).logs| && NamesRightly(Next(s, Commit(w)), k)
  {
    var write := s.workers[w].pc.write;
    if k == s.workers[w].log && (write.SettleRow? || write.CreateRow?) {
      CommitNamesRightly(s, w);
    } else {
      StepEvolves(s, Commit(w));
      CommitAtRelated(s, w, k);
      NameKept(s, Next(s, Commit(w)), k);
    }
  }

  /** A worker that only marks its log has found the row terminal. */
  lemma NoteFindsTheRow(s: State, w: nat)
    requires Inv(s) && Enabled(s, Commit(w)) && s.workers[w].pc.write.NoteProcessed?
    requires s.workers[w].task != C2bConfirmation
    ensures s.workers[w].log < |s.logs|
    ensures exists r :: 0 <= r < |s.txns| && Concerns(s.logs[s.workers[w].log], s.txns[r]) && Terminal(s.txns[r].status)
  {
    assert WorkerOk(s, w);
    assert Concerns(s.logs[s.workers[w].log], s.txns[s.workers[w].pc.held.value]);
  }

  lemma SettlementConcernsItsLog(s: State, w: nat)
    requires Inv(s) && Enabled(s, Commit(w)) && s.workers[w].pc.write.SettleRow?
    requires s.workers[w].task != C2bConfirmation
    ensures s.workers[w].log < |s.logs|
    ensures var r := s.workers[w].pc.write.row; var s' := Next(s, Commit(w));
      && r < |s'.txns| && Concerns(s.logs[s.workers[w].log], s'.txns[r]) && Terminal(s'.txns[r].status)
  {
    assert WorkerOk(s, w);
    CommitTarget(s, w);
    ParseIsSound(s.workers[w].task, s.logs[s.workers[w].log].body);
  }

  /** The log a commit marks has its terminal row. */
  lemma CommitProcessesRightly(s: State, w: nat)
    requires Inv(s) && Enabled(s, Commit(w)) && s.workers[w].task != C2bConfirmation
    requires s.workers[w].pc.write.NoteProcessed? || s.workers[w].pc.write.SettleRow?
    ensures s.workers[w].log < |Next(s, Commit(w)).logs| && ProcessedRightly(Next(s, Commit(w)), s.workers[w].log)
  {
    var s' := Next(s, Commit(w));
    var log := s.workers[w].log;
    CommitAtLog(s, w, log);
    if s.workers[w].pc.write.NoteProcessed? {
      NoteFindsTheRow(s, w);
      var r :| 0 <= r < |s.txns| && Concerns(s.logs[log], s.txns[r]) && Terminal(s.txns[r].status);
      assert Concerns(s'.logs[log], s'.txns[r]);
    } else {
      SettlementConcernsItsLog(s, w);
      assert Concerns(s'.logs[log], s'.txns[s.workers[w].pc.write.row]);
    }
  }

  lemma CommitKeepsProcessed(s: State, w: nat, k: nat)
    requires Inv(s) && BooksOk(s) && Enabled(s, Commit(w)) && k < |s.logs|
    ensures k < |Next(s, Commit(w)).logs| && ProcessedRightly(Next(s, Commit(w)), k)
  {
    var s' := Next(s, Commit(w));
    StepEvolves(s, Commit(w));
    assert WorkerOk(s, w) && ProcessedRightly(s, k);
    var worker := s.workers[w];
    if k != worker.log || s'.logs[k].processed == s.logs[k].processed {
      KeepsProcessedRightly(s, s', k);
    } else if worker.task != C2bConfirmation {
      ParseIsSound(worker.task, s.logs[k].body);
      CommitProcessesRightly(s, w);
    }
  }

  /** What a C2B commit settles or creates carries the TransID of its log. */
  lemma ConfirmationIsRecorded(s: State, w: nat)
    requires Inv(s) && Enabled(s, Commit(w)) && s.workers[w].task == C2bConfirmation
    requires s.workers[w].pc.write.SettleRow? || s.workers[w].pc.write.CreateRow?
    ensures s.workers[w].log < |s.logs|
    ensures var transId := s.logs[s.workers[w].log].body.c2b.transId;
      Truthy(transId) ==> Recorded(Next(s, Commit(w)).txns, transId)
  {
    assert WorkerOk(s, w);
    var Worker(task, log, Writing(write, _)) := s.workers[w];
    ParseIsSound(task, s.logs[log].body);
    var r := if write.SettleRow? then write.row else |s.txns|;
    assert Next(s, Commit(w)).txns[r].receipt == s.logs[log].body.c2b.transId;
  }

  lemma CommitKeepsConfirmed(s: State, w: nat, k: nat)
    requires Inv(s) && BooksOk(s) && Enabled(s, Commit(w)) && k < |s.logs|
    ensures k < |Next(s, Commit(w)).logs| && ConfirmedRightly(Next(s, Commit(w)), k)
  {
    var s' := Next(s, Commit(w));
    StepEvolves(s, Commit(w));
    assert WorkerOk(s, w) && ConfirmedRightly(s, k);
    if k != s.workers[w].log || s'.logs[k].processed == s.logs[k].processed {
      KeepsConfirmedRightly(s, s', k);
    } else if s.workers[w].task == C2bConfirmation {
      if s.workers[w].pc.write.SettleRow? || s.workers[w].pc.write.CreateRow? {
        ConfirmationIsRecorded(s, w);
      } else {
        assert s'.txns == s.txns;
      }
    }
  }

  lemma CommitKeepsMarks(s: State, w: nat, i: nat)
    requires Inv(s) && BooksOk(s) && Enabled(s, Commit(w)) && i < |s.workers|
    ensures i < |Next(s, Commit(w)).workers| && LeftMark(Next(s, Commit(w)), i)
  {
    assert LeftMark(s, i) && WorkerOk(s, w);
  }

  lemma CommitKeepsBooks(s: State, w: nat)
    requires Inv(s) && BooksOk(s) && Enabled(s, Commit(w))
    ensures BooksOk(Next(s, Commit(w)))
  {
    var s' := Next(s, Commit(w));
    CommitRewrites(s, w);
    forall r | r in s'.owner
      ensures Linked(s', r)
    {
      if r in s.owner {
        CommitKeepsLinks(s, w, r);
      } else {
        CommitLinksItsRow(s, w, r);
      }
    }
    forall k | 0 <= k < |s'.logs|
      ensures NamesRightly(s', k) && ProcessedRightly(s', k) && ConfirmedRightly(s', k)
    {
      CommitKeepsNames(s, w, k);
      CommitKeepsProcessed(s, w, k);
      CommitKeepsConfirmed(s, w, k);
    }
    forall i | 0 <= i < |s'.workers|
      ensures LeftMark(s', i)
    {
      CommitKeepsMarks(s, w, i);
    }
  }

  lemma StepKeepsBooks(s: State, l: Label)
    requires Inv(s) && BooksOk(s) && Enabled(s, l)
    ensures BooksOk(Next(s, l))
  {
    if l.Commit? {
      CommitKeepsBooks(s, l.w);
    } else {
      QuietStepKeepsBooks(s, l);
    }
  }

  lemma {:induction false} RunKeepsBooks(run: seq<State>, labels: seq<Label>, k: nat)
    requires IsRun(run, labels) && k < |run|
    ensures BooksOk(run[k])
  {
    if k == 0 {
    } else {
      RunKeepsBooks(run, labels, k - 1);
      RunKeepsInv(run, labels, k - 1);
      assert Enabled(run[k - 1], labels[k - 1]);
      StepKeepsBooks(run[k - 1], labels[k - 1]);
    }
  }

  /** Each settled STK or B2C row is named by exactly one log, and says exactly what that log's
      body says. */
  lemma NamedByExactlyOneLog(run: seq<State>, labels: seq<Label>, i: nat, r: nat) returns (k: nat)
    requires IsRun(run, labels) && i < |run| && r < |run[i].txns|
    requires Terminal(run[i].txns[r].status) && run[i].txns[r].kind != C2bPayment
    ensures k < |run[i].logs| && Concerns(run[i].logs[k], run[i].txns[r]) && Reflects(run[i].txns[r], run[i].logs[k])
    ensures forall j :: 0 <= j < |run[i].logs| ==> (run[i].logs[j].related == Some(r) <==> j == k)
  {
    var s := run[i];
    RunKeepsInv(run, labels, i);
    RunKeepsBooks(run, labels, i);
    k := s.workers[s.owner[r]].log;
    assert Linked(s, r);
    forall j | 0 <= j < |s.logs| && s.logs[j].related == Some(r)
      ensures j == k
    {
      assert NamesRightly(s, j);
    }
  }

  /** A processed STK or B2C log has a terminal row behind it, a processed C2B log has its TransID
      on record, and every task that returned left its log processed or with an error. */
  lemma LogsTellTheOutcome(run: seq<State>, labels: seq<Label>, i: nat)
    requires IsRun(run, labels) && i < |run|
    ensures forall k :: 0 <= k < |run[i].logs| ==> ProcessedRightly(run[i], k) && ConfirmedRightly(run[i], k)
    ensures forall w :: 0 <= w < |run[i].workers| ==> LeftMark(run[i], w)
  {
    RunKeepsBooks(run, labels, i);
  }

  // ----- result code 0 -----

  /** "0 = success" as the result code's help text has it, exactly: a settled STK or B2C row with
      result code 0 is no SUCCESS if and only if its log's body gave the code as a text for 0. */
  lemma CodeZeroFailsIff(run: seq<State>, labels: seq<Label>, i: nat, r: nat) returns (k: nat)
    requires IsRun(run, labels) && i < |run| && r < |run[i].txns|
    requires Terminal(run[i].txns[r].status) && run[i].txns[r].kind != C2bPayment
    ensures k < |run[i].logs| && run[i].logs[k].related == Some(r) && Concerns(run[i].logs[k], run[i].txns[r])
    ensures var job := Parse(run[i].logs[k].task, run[i].logs[k].body).job;
      run[i].txns[r].resultCode == Some(0) && run[i].txns[r].status != Success <==>
      job.code.Text? && job.code.parse == Some(0)
  {
    k := NamedByExactlyOneLog(run, labels, i, r);
    ParseIsSound(run[i].logs[k].task, run[i].logs[k].body);
  }

  const TEXT_ZERO :=
    Body(Stk(Some("ws_CO_1"), Text("0", Some(0)), None, Some([])), NoResult, C2bPart(None, None, None, None))

  lemma TextZeroArrives() returns (s: State)
    ensures Reaches(s) && s.locks == map[] && s.workers == [Worker(StkCallback, 0, Called)]
    ensures Database(s) == Db([WAITING], [LogRow(StkCallback, TEXT_ZERO, None, false, None)], [])
  {
    var s1 := INITIAL.(txns := [WAITING], history := [Created(WAITING)]);
    var s2 := s1.(logs := [LogRow(StkCallback, TEXT_ZERO, None, false, None)]);
    s := s2.(workers := [Worker(StkCallback, 0, Called)]);
    ReachInitial();
    ReachNext(INITIAL, Create(WAITING), s1);
    ReachNext(s1, Label.Receive(StkCallback, TEXT_ZERO), s2);
    ReachNext(s2, Dispatch(StkCallback, 0), s);
  }

  lemma TextZeroSettles(db: Db)
    requires db == Db([WAITING], [LogRow(StkCallback, TEXT_ZERO, None, false, None)], [])
    ensures var out := RunTask(db, StkCallback, 0, 0).db;
      && |out.txns| == 1 && out.txns[0].status == Status.Failed && out.txns[0].resultCode == Some(0)
      && |out.logs| == 1 && out.logs[0].body == TEXT_ZERO && out.logs[0].related == Some(0)
  {
    assert Matches(WAITING, Checkout("ws_CO_1"));
  }

  /** Such a body: ResultCode "0" leads to a reachable FAILED row with result code 0. */
  lemma TextZeroFails() returns (t: State)
    ensures Reaches(t) && |t.txns| == 1 && t.txns[0].status == Status.Failed && t.txns[0].resultCode == Some(0)
    ensures |t.logs| == 1 && t.logs[0].body == TEXT_ZERO && t.logs[0].related == Some(0)
  {
    var s := TextZeroArrives();
    t := SoloRunIsTheTask(s, 0, 0);
    TextZeroSettles(Database(s));
    AloneIsReachable(s, 0, t);
  }

  // ----- a callback that comes too early -----

  const SUCCEEDED :=
    Body(Stk(Some("ws_CO_1"), Num(0), None, Some([])), NoResult, C2bPart(None, None, None, None))

  lemma EarlyCallbackArrives() returns (s: State)
    ensures Reaches(s) && s.locks == map[] && s.workers == [Worker(StkCallback, 0, Called)]
    ensures Database(s) == Db([], [LogRow(StkCallback, SUCCEEDED, None, false, None)], [])
  {
    var s1 := INITIAL.(logs := [LogRow(StkCallback, SUCCEEDED, None, false, None)]);
    s := s1.(workers := [Worker(StkCallback, 0, Called)]);
    ReachInitial();
    ReachNext(INITIAL, Label.Receive(StkCallback, SUCCEEDED), s1);
    ReachNext(s1, Dispatch(StkCallback, 0), s);
  }

  lemma EarlyCallbackIsRejected(db: Db)
    requires db == Db([], [LogRow(StkCallback, SUCCEEDED, None, false, None)], [])
    ensures var ran := RunTask(db, StkCallback, 0, 0);
      && ran.ending == Returned && ran.db.txns == [] && |ran.db.logs| == 1
      && ran.db.logs[0].body == SUCCEEDED && !ran.db.logs[0].processed && ran.db.logs[0].error.Some?
  {
  }

  /** A success callback that overtakes the insertion of its row is used up: its task has returned
      with an error in its log, and the row inserted after it is PENDING. */
  lemma EarlyCallbackIsUsedUp() returns (t: State)
    ensures Reaches(t) && t.txns == [WAITING] && |t.logs| == 1 && t.logs[0].body == SUCCEEDED
    ensures !t.logs[0].processed && t.logs[0].error.Some?
    ensures |t.workers| == 1 && t.workers[0].pc.Finished? && t.workers[0].pc.fate.Ended?
  {
    var s := EarlyCallbackArrives();
    var u := SoloRunIsTheTask(s, 0, 0);
    EarlyCallbackIsRejected(Database(s));
    AloneIsReachable(s, 0, u);
    AloneKeepsWorkers(s, 0, u);
    t := Next(u, Create(WAITING));
    ReachNext(u, Create(WAITING), t);
  }
}
