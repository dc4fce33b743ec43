/** A C2B confirmation decides on a snapshot and commits later: when its commit still is what the
    sequential task would do at that point. */
module C2bSnapshot {
  import opened Models
  import opened Payloads
  import opened Settlement
  import opened Protocol
  import opened ProtocolInvariant
  import opened Progress
  import opened C2bOnce

  /** What the worker found before it decided is still so: its TransID is not on record, and its row
      is the newest one waiting, or none is. */
  predicate StillSo(txns: seq<Row>, c: C2bPart, write: Write) {
    && !Recorded(txns, c.transId)
    && Newest(txns, c.billRef) == if write.SettleRow? then Some(write.row) else None
  }

  /** The table a C2B commit leaves. */
  lemma ConfirmCommit(s: State, w: nat) returns (now: nat)
    requires Inv(s) && Enabled(s, Commit(w)) && s.workers[w].task == C2bConfirmation
    requires s.workers[w].pc.write.SettleRow? || s.workers[w].pc.write.CreateRow?
    ensures s.workers[w].log < |s.logs|
    ensures var Worker(_, log, Writing(write, _)) := s.workers[w]; var body := s.logs[log].body;
      if write.SettleRow? then
        && write.row < |s.txns| && Awaits(s.txns[write.row], body.c2b.billRef)
        && Next(s, Commit(w)).txns == s.txns[write.row := SettleC2b(s.txns[write.row], body.c2b, body, now)]
      else
        Next(s, Commit(w)).txns == s.txns + [NewC2b(body.c2b, body, now)]
  {
    assert WorkerOk(s, w);
    var Worker(task, log, Writing(write, _)) := s.workers[w];
    ParseIsSound(task, s.logs[log].body);
    if write.SettleRow? {
      now := write.now;
    } else {
      now :| write.written == NewC2b(write.job.c, s.logs[log].body, now);
    }
  }

  /** Settling one waiting row differs from settling another and from adding a row. */
  lemma SettlementsDiffer(txns: seq<Row>, ref: Option<string>, q: nat, r: nat, a: Row, b: Row)
    requires q < |txns| && r < |txns| && q != r && Awaits(txns[q], ref) && a.status == Success
    ensures txns[q := a] != txns[r := b] && txns[q := a] != txns
  {
    assert txns[q := a][q] == a && txns[r := b][q] == txns[q];
  }

  /** A C2B commit does what the sequential task would do at that point if and only if what its
      worker found is still so. */
  lemma CommitIsSequentialIff(s: State, w: nat) returns (now: nat)
    requires Inv(s) && Enabled(s, Commit(w)) && s.workers[w].task == C2bConfirmation
    requires s.workers[w].pc.write.SettleRow? || s.workers[w].pc.write.CreateRow?
    ensures s.workers[w].log < |s.logs|
    ensures var Worker(_, log, Writing(write, _)) := s.workers[w]; var body := s.logs[log].body;
      Next(s, Commit(w)).txns == ConfirmTxns(s.txns, body.c2b, body, now) <==> StillSo(s.txns, body.c2b, write)
  {
    now := ConfirmCommit(s, w);
    var Worker(_, log, Writing(write, _)) := s.workers[w];
    var body := s.logs[log].body;
    var newest := Newest(s.txns, body.c2b.billRef);
    if write.SettleRow? && !Recorded(s.txns, body.c2b.transId) && newest != Some(write.row) {
      var r := newest.value;
      SettlementsDiffer(s.txns, body.c2b.billRef, write.row, r, SettleC2b(s.txns[write.row], body.c2b, body, now),
                        SettleC2b(s.txns[r], body.c2b, body, now));
    } else if write.SettleRow? && Recorded(s.txns, body.c2b.transId) {
      var settled := SettleC2b(s.txns[write.row], body.c2b, body, now);
      assert s.txns[write.row := settled][write.row] == settled;
    }
  }

  // ----- a snapshot that is out of date -----

  const WAITING_C2B :=
    Row(C2bPayment, Pending, None, None, None, "254712345678", 100.0, "INV-1", None, None, None, 0, None)

  /** One worker for one confirmation. */
  function Single(pc: Pc, txns: seq<Row>, history: seq<Event>): State {
    State(txns, [LOG], [Worker(C2bConfirmation, 0, pc)], map[], [], history, map[])
  }

  lemma SingleStarts()
    ensures Reaches(Single(Called, [], []))
  {
    var s0 := INITIAL.(logs := [LOG]);
    ReachInitial();
    ReachNext(INITIAL, Receive(C2bConfirmation, PAID), s0);
    ReachNext(s0, Dispatch(C2bConfirmation, 0), Single(Called, [], []));
  }

  lemma SingleLoads()
    ensures Reaches(Single(Parsed(JOB), [], []))
  {
    SingleStarts();
    ReachNext(Single(Called, [], []), Load(0), Single(Parsed(JOB), [], []));
  }

  lemma SingleChecks()
    ensures Reaches(Single(Checked(JOB), [], []))
  {
    SingleLoads();
    var s := Single(Parsed(JOB), [], []);
    assert !Recorded(s.txns, JOB.c.transId);
    ReachNext(s, Check(0), Single(Checked(JOB), [], []));
  }

  lemma NothingToSelect(txns: seq<Row>, ref: Option<string>)
    requires txns == []
    ensures ValidCandidates(txns, ref, [])
  {
  }

  /** On an empty table the query returns nothing. */
  lemma SelectsNothing(s: State, w: nat)
    requires Reaches(s) && s.txns == [] && At(s, w) && s.workers[w].pc == Checked(JOB)
    ensures Reaches(Goto(s, w, Selecting(JOB, [])))
  {
    NothingToSelect(s.txns, JOB.c.billRef);
    SelectGoesOn(s, w, []);
    ReachNext(s, Select(w, []), Goto(s, w, Selecting(JOB, [])));
  }

  lemma SingleSelects()
    ensures Reaches(Single(Selecting(JOB, []), [], []))
  {
    SingleChecks();
    SelectsNothing(Single(Checked(JOB), [], []), 0);
    assert Single(Selecting(JOB, []), [], []) == Goto(Single(Checked(JOB), [], []), 0, Selecting(JOB, []));
  }

  lemma SingleIsOvertaken()
    ensures Reaches(Single(Selecting(JOB, []), [WAITING_C2B], [Created(WAITING_C2B)]))
  {
    SingleSelects();
    ReachNext(Single(Selecting(JOB, []), [], []), Create(WAITING_C2B),
              Single(Selecting(JOB, []), [WAITING_C2B], [Created(WAITING_C2B)]));
  }

  /** The query finds no waiting row; then one is inserted; then the worker is to commit a new row beside it. */
  lemma SnapshotsGoStale() returns (s: State)
    ensures Reaches(s) && Enabled(s, Commit(0)) && s.workers[0].task == C2bConfirmation
    ensures s.workers[0].pc.write.CreateRow? && s.workers[0].log < |s.logs|
    ensures !StillSo(s.txns, s.logs[s.workers[0].log].body.c2b, s.workers[0].pc.write)
  {
    SingleIsOvertaken();
    s := Single(Writing(CreateRow(NewC2b(PAID.c2b, PAID, 0), JOB), None), [WAITING_C2B], [Created(WAITING_C2B)]);
    ReachNext(Single(Selecting(JOB, []), [WAITING_C2B], [Created(WAITING_C2B)]), Decide(0, 0), s);
    assert Awaits(s.txns[0], PAID.c2b.billRef);
  }
}
