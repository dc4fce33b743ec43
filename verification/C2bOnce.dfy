/** C2B confirmations are looked up by receipt without a lock: once per TransID holds as long as
    confirmations with that TransID do not overlap. */
module C2bOnce {
  import opened Models
  import opened Payloads
  import opened Settlement
  import opened Protocol
  import opened ProtocolInvariant
  import opened ProtocolSafety
  import opened LogBook

  /** The job of a worker inside the atomic block and past the receipt check. */
  function BlockJob(pc: Pc): Option<Job> {
    match pc
    case Checked(job) => Some(job)
    case Selecting(job, _) => Some(job)
    case Holding(job, _, _) => Some(job)
    case Writing(SettleRow(_, _, job, _), _) => Some(job)
    case Writing(CreateRow(_, job), _) => Some(job)
    case _ => None
  }

  /** The worker is inside the block for a confirmation with this TransID. */
  predicate Inside(pc: Pc, transId: Option<string>) {
    BlockJob(pc).Some? && BlockJob(pc).value.Confirm? && BlockJob(pc).value.c.transId == transId
  }

  /** No two workers are inside the block for this TransID. */
  ghost predicate NoOverlap(s: State, transId: Option<string>) {
    forall v, w :: 0 <= v < w < |s.workers| ==>
      !(Inside(s.workers[v].pc, transId) && Inside(s.workers[w].pc, transId))
  }

  /** Row `r` was settled or created by a C2B task for this TransID. */
  ghost predicate SettledFor(s: State, r: nat, transId: Option<string>) {
    && r in s.owner && s.owner[r] < |s.workers|
    && s.workers[s.owner[r]].task == C2bConfirmation
    && s.workers[s.owner[r]].log < |s.logs|
    && s.logs[s.workers[s.owner[r]].log].body.c2b.transId == transId
  }

  /** Such a row is a C2B row with the TransID as its receipt. */
  ghost predicate ReceiptsOk(s: State) {
    forall r: nat, transId :: SettledFor(s, r, transId) ==>
      r < |s.txns| && s.txns[r].kind == C2bPayment && s.txns[r].receipt == transId
  }

  /** Every settled C2B row is settled for the receipt it carries. */
  ghost predicate CarriersOk(s: State) {
    forall r: nat :: r in s.owner && r < |s.txns| && s.txns[r].kind == C2bPayment ==>
      SettledFor(s, r, s.txns[r].receipt)
  }

  /** While a worker is inside for the TransID, no row has been settled for it. */
  ghost predicate BlocksOk(s: State, transId: Option<string>) {
    forall w, r: nat :: 0 <= w < |s.workers| && Inside(s.workers[w].pc, transId) ==> !SettledFor(s, r, transId)
  }

  ghost predicate AtMostOne(s: State, transId: Option<string>) {
    forall q: nat, r: nat :: SettledFor(s, q, transId) && SettledFor(s, r, transId) ==> q == r
  }

  ghost predicate OnceInv(s: State, transId: Option<string>) {
    BlocksOk(s, transId) && AtMostOne(s, transId)
  }

  /** A row that had a settler was settled for the same TransID. */
  lemma SettledForBefore(s: State, s': State, actor: Option<nat>, r: nat, transId: Option<string>)
    requires Evolves(s, s', actor) && SettledFor(s', r, transId) && r in s.owner
    requires s.owner[r] < |s.workers| && s.workers[s.owner[r]].log < |s.logs|
    ensures SettledFor(s, r, transId)
  {
  }

  /** A row settled for a TransID after a step was so before, or the step is the commit that did it. */
  lemma SettledForGrows(s: State, l: Label, r: nat, transId: Option<string>)
    requires Inv(s) && Enabled(s, l) && SettledFor(Next(s, l), r, transId)
    ensures SettledFor(s, r, transId) || (r !in s.owner && l.Commit? && Next(s, l).owner[r] == l.w)
  {
    if r in s.owner {
      assert WorkerOk(s, s.owner[r]);
      StepEvolves(s, l);
      SettledForBefore(s, Next(s, l), Actor(l), r, transId);
    } else {
      NewOwners(s, l, r);
    }
  }

  /** A worker about to commit a row for its log carries the log's own job. */
  lemma C2bJob(s: State, w: nat)
    requires Inv(s) && w < |s.workers| && s.workers[w].pc.Writing? && s.workers[w].task == C2bConfirmation
    requires s.workers[w].pc.write.SettleRow? || s.workers[w].pc.write.CreateRow?
    ensures var Worker(_, log, Writing(write, _)) := s.workers[w];
      && log < |s.logs| && write.job == Confirm(s.logs[log].body.c2b)
      && write.written.kind == C2bPayment && write.written.receipt == s.logs[log].body.c2b.transId
  {
    assert WorkerOk(s, w);
    ParseIsSound(s.workers[w].task, s.logs[s.workers[w].log].body);
  }

  /** The settler's task and log body are the committing worker's. */
  lemma CommitterIsC2b(s: State, w: nat, r: nat, transId: Option<string>)
    requires Inv(s) && Enabled(s, Commit(w))
    requires SettledFor(Next(s, Commit(w)), r, transId) && Next(s, Commit(w)).owner[r] == w
    ensures s.workers[w].task == C2bConfirmation && s.workers[w].log < |s.logs|
    ensures s.logs[s.workers[w].log].body.c2b.transId == transId
  {
    CommitKeepsIdentity(s, w, w);
    CommitAtLog(s, w, s.workers[w].log);
  }

  /** What a C2B commit writes carries its TransID, and its worker was inside the block. */
  lemma C2bCommit(s: State, w: nat, r: nat, transId: Option<string>)
    requires Inv(s) && Enabled(s, Commit(w)) && r !in s.owner
    requires SettledFor(Next(s, Commit(w)), r, transId) && Next(s, Commit(w)).owner[r] == w
    ensures r < |Next(s, Commit(w)).txns| && Next(s, Commit(w)).txns[r].receipt == transId
    ensures Next(s, Commit(w)).txns[r].kind == C2bPayment
    ensures Inside(s.workers[w].pc, transId) && !Inside(Next(s, Commit(w)).workers[w].pc, transId)
  {
    CommitShape(s, w, r);
    CommitterIsC2b(s, w, r, transId);
    C2bJob(s, w);
  }

  lemma StepKeepsReceipts(s: State, l: Label)
    requires Inv(s) && ReceiptsOk(s) && Enabled(s, l)
    ensures ReceiptsOk(Next(s, l))
  {
    var s' := Next(s, l);
    StepEvolves(s, l);
    forall r: nat, transId | SettledFor(s', r, transId)
      ensures r < |s'.txns| && s'.txns[r].kind == C2bPayment && s'.txns[r].receipt == transId
    {
      SettledForGrows(s, l, r, transId);
      if SettledFor(s, r, transId) {
        assert Terminal(s.txns[r].status);
      } else {
        C2bCommit(s, l.w, r, transId);
      }
    }
  }

  /** A row settled for a TransID stays so. */
  lemma SettledForStays(s: State, s': State, actor: Option<nat>, r: nat, transId: Option<string>)
    requires Evolves(s, s', actor) && SettledFor(s, r, transId)
    ensures SettledFor(s', r, transId)
  {
  }

  /** Only a confirmation gives a C2B row its settler: no key matches such a row. */
  lemma CarrierCommit(s: State, w: nat, r: nat)
    requires Inv(s) && Enabled(s, Commit(w)) && r !in s.owner && r in Next(s, Commit(w)).owner
    requires r < |Next(s, Commit(w)).txns| && Next(s, Commit(w)).txns[r].kind == C2bPayment
    requires Next(s, Commit(w)).owner[r] == w
    ensures SettledFor(Next(s, Commit(w)), r, Next(s, Commit(w)).txns[r].receipt)
  {
    assert WorkerOk(s, w);
    CommitShape(s, w, r);
    var worker := s.workers[w];
    ParseIsSound(worker.task, s.logs[worker.log].body);
    if worker.pc.write.SettleRow? {
      CommitTarget(s, w);
      assert RowOk(s.txns[worker.pc.write.row]);
    }
    C2bJob(s, w);
    CommitKeepsIdentity(s, w, w);
    CommitAtLog(s, w, worker.log);
  }

  lemma StepKeepsCarriers(s: State, l: Label)
    requires Inv(s) && CarriersOk(s) && Enabled(s, l)
    ensures CarriersOk(Next(s, l))
  {
    var s' := Next(s, l);
    StepEvolves(s, l);
    forall r: nat | r in s'.owner && r < |s'.txns| && s'.txns[r].kind == C2bPayment
      ensures SettledFor(s', r, s'.txns[r].receipt)
    {
      if r in s.owner {
        assert Terminal(s.txns[r].status);
        SettledForStays(s, s', Actor(l), r, s.txns[r].receipt);
      } else {
        NewOwners(s, l, r);
        CarrierCommit(s, l.w, r);
      }
    }
  }

  /** In every run, with or without overlaps: the C2B rows settled for a TransID are exactly the
      settled C2B rows that carry it. */
  lemma {:induction false} RunKeepsReceipts(run: seq<State>, labels: seq<Label>, k: nat)
    requires IsRun(run, labels) && k < |run|
    ensures ReceiptsOk(run[k]) && CarriersOk(run[k])
  {
    if k == 0 {
    } else {
      RunKeepsReceipts(run, labels, k - 1);
      RunKeepsInv(run, labels, k - 1);
      assert Enabled(run[k - 1], labels[k - 1]);
      StepKeepsReceipts(run[k - 1], labels[k - 1]);
      StepKeepsCarriers(run[k - 1], labels[k - 1]);
    }
  }

  lemma WorkInTheBlock(s: State, l: Label)
    requires Enabled(s, l) && (l.Try? || l.Lock?)
    ensures var was := BlockJob(s.workers[l.w].pc); var will := BlockJob(Next(s, l).workers[l.w].pc);
      will.Some? && will.value.Confirm? ==> will == was
  {
  }

  lemma DecideInTheBlock(s: State, l: Label)
    requires Enabled(s, l) && l.Decide?
    ensures var was := BlockJob(s.workers[l.w].pc); var will := BlockJob(Next(s, l).workers[l.w].pc);
      will.Some? && will.value.Confirm? ==> will == was
  {
  }

  lemma CommitLeavesTheBlock(s: State, w: nat)
    requires Enabled(s, Commit(w))
    ensures BlockJob(Next(s, Commit(w)).workers[w].pc).None?
  {
  }

  lemma OtherwiseInTheBlock(s: State, l: Label, w: nat)
    requires Enabled(s, l) && Actor(l) == Some(w) && !l.Try? && !l.Lock? && !l.Decide? && !l.Commit? && !l.Check?
    ensures var was := BlockJob(s.workers[w].pc); var will := BlockJob(Next(s, l).workers[w].pc);
      will.Some? ==> will == was
  {
  }

  /** A worker enters the block only through a receipt check that found nothing. */
  lemma EnteringTheBlock(s: State, l: Label, w: nat, transId: Option<string>)
    requires Enabled(s, l) && w < |Next(s, l).workers|
    requires Inside(Next(s, l).workers[w].pc, transId) && !(w < |s.workers| && Inside(s.workers[w].pc, transId))
    ensures l == Check(w) && !Recorded(s.txns, transId)
  {
    StepCountsWorkers(s, l);
    if w < |s.workers| {
      StepAtWorker(s, l, w);
      match l
      case Check(_) =>
      case Try(_) => WorkInTheBlock(s, l);
      case Lock(_, _) => WorkInTheBlock(s, l);
      case Decide(_, _) => DecideInTheBlock(s, l);
      case Commit(_) => CommitLeavesTheBlock(s, l.w);
      case _ =>
        if Actor(l) == Some(w) {
          OtherwiseInTheBlock(s, l, w);
        }
    }
  }

  lemma StepKeepsBlocks(s: State, l: Label, w: nat, r: nat, transId: Option<string>)
    requires Inv(s) && ReceiptsOk(s) && OnceInv(s, transId) && NoOverlap(s, transId) && Enabled(s, l)
    requires Truthy(transId) && w < |Next(s, l).workers| && Inside(Next(s, l).workers[w].pc, transId)
    ensures !SettledFor(Next(s, l), r, transId)
  {
    if SettledFor(Next(s, l), r, transId) {
      SettledForGrows(s, l, r, transId);
      var wasInside := w < |s.workers| && Inside(s.workers[w].pc, transId);
      if !wasInside {
        EnteringTheBlock(s, l, w, transId);
      } else if !SettledFor(s, r, transId) {
        C2bCommit(s, l.w, r, transId);
        OthersFrame(s, l, l.w);
      }
    }
  }

  lemma StepKeepsUnique(s: State, l: Label, q: nat, r: nat, transId: Option<string>)
    requires Inv(s) && OnceInv(s, transId) && Enabled(s, l)
    requires SettledFor(Next(s, l), q, transId) && SettledFor(Next(s, l), r, transId)
    ensures q == r
  {
    SettledForGrows(s, l, q, transId);
    SettledForGrows(s, l, r, transId);
    if !SettledFor(s, q, transId) || !SettledFor(s, r, transId) {
      var added := if SettledFor(s, q, transId) then r else q;
      C2bCommit(s, l.w, added, transId);
      OneRowPerCommit(s, l.w, q, r);
    }
  }

  /** A commit gives at most one row a settler. */
  lemma OneRowPerCommit(s: State, w: nat, q: nat, r: nat)
    requires Enabled(s, Commit(w)) && q in Next(s, Commit(w)).owner && r in Next(s, Commit(w)).owner
    requires q !in s.owner && r !in s.owner
    ensures q == r
  {
  }

  lemma StepKeepsOnce(s: State, l: Label, transId: Option<string>)
    requires Inv(s) && ReceiptsOk(s) && OnceInv(s, transId) && NoOverlap(s, transId) && Enabled(s, l) && Truthy(transId)
    ensures OnceInv(Next(s, l), transId)
  {
    var s' := Next(s, l);
    forall w, r: nat | 0 <= w < |s'.workers| && Inside(s'.workers[w].pc, transId)
      ensures !SettledFor(s', r, transId)
    {
      StepKeepsBlocks(s, l, w, r, transId);
    }
    forall q: nat, r: nat | SettledFor(s', q, transId) && SettledFor(s', r, transId)
      ensures q == r
    {
      StepKeepsUnique(s, l, q, r, transId);
    }
  }

  lemma NothingSettledYet(transId: Option<string>)
    ensures OnceInv(INITIAL, transId)
  {
  }

  lemma RunStepKeepsOnce(run: seq<State>, labels: seq<Label>, k: nat, transId: Option<string>)
    requires IsRun(run, labels) && k < |labels| && Truthy(transId) && NoOverlap(run[k], transId)
    requires OnceInv(run[k], transId)
    ensures OnceInv(run[k + 1], transId)
  {
    RunKeepsInv(run, labels, k);
    RunKeepsReceipts(run, labels, k);
    assert Enabled(run[k], labels[k]);
    StepKeepsOnce(run[k], labels[k], transId);
  }

  lemma {:induction false} RunKeepsOnce(run: seq<State>, labels: seq<Label>, k: nat, transId: Option<string>)
    requires IsRun(run, labels) && k < |run| && Truthy(transId) && forall i :: 0 <= i < k ==> NoOverlap(run[i], transId)
    ensures OnceInv(run[k], transId)
  {
    if k == 0 {
      NothingSettledYet(transId);
    } else {
      RunKeepsOnce(run, labels, k - 1, transId);
      RunStepKeepsOnce(run, labels, k - 1, transId);
    }
  }

  /** C2B at most once: if no two workers are inside for this TransID together, one C2B row and one
      signal at most for it, whatever happens to other TransIDs. */
  lemma C2bAtMostOnce(run: seq<State>, labels: seq<Label>, k: nat, transId: Option<string>)
    requires IsRun(run, labels) && k < |run| && Truthy(transId)
    requires forall i :: 0 <= i < k ==> NoOverlap(run[i], transId)
    ensures AtMostOne(run[k], transId)
    ensures forall i, j :: 0 <= i < j < |run[k].signals| ==>
              var q := run[k].signals[i].row; var r := run[k].signals[j].row;
              !(SettledFor(run[k], q, transId) && SettledFor(run[k], r, transId))
  {
    RunKeepsOnce(run, labels, k, transId);
    RunKeepsSignals(run, labels, k);
  }

  /** A C2B row with this receipt. */
  predicate HasReceipt(s: State, r: nat, receipt: Option<string>) {
    r < |s.txns| && s.txns[r].kind == C2bPayment && s.txns[r].receipt == receipt
  }

  /** C2B exactly once: a processed confirmation is on record, on a SUCCESS row with its TransID as
      receipt; and without overlaps no two C2B rows carry it. */
  lemma C2bExactlyOnce(run: seq<State>, labels: seq<Label>, k: nat, log: nat) returns (r: nat)
    requires IsRun(run, labels) && k < |run| && log < |run[k].logs|
    requires run[k].logs[log].task == C2bConfirmation && run[k].logs[log].processed
    requires Truthy(run[k].logs[log].body.c2b.transId)
    ensures var transId := run[k].logs[log].body.c2b.transId;
      && r < |run[k].txns| && run[k].txns[r].status == Success && run[k].txns[r].receipt == transId
      && ((forall i :: 0 <= i < k ==> NoOverlap(run[i], transId)) ==>
            forall q: nat, q': nat :: HasReceipt(run[k], q, transId) && HasReceipt(run[k], q', transId) ==> q == q')
  {
    var s := run[k];
    var transId := s.logs[log].body.c2b.transId;
    RunKeepsBooks(run, labels, k);
    RunKeepsInv(run, labels, k);
    assert ConfirmedRightly(s, log);
    r :| 0 <= r < |s.txns| && s.txns[r].receipt == transId;
    assert RowOk(s.txns[r]);
    if forall i :: 0 <= i < k ==> NoOverlap(run[i], transId) {
      RunKeepsOnce(run, labels, k, transId);
      RunKeepsReceipts(run, labels, k);
      forall q: nat | HasReceipt(s, q, transId)
        ensures SettledFor(s, q, transId)
      {
        assert RowOk(s.txns[q]);
      }
    }
  }

  // ----- a confirmation to tell examples with -----

  const PAID :=
    Body(NoStk, NoResult, C2bPart(Some("NLJ7RT61SV"), Some(100.0), Some("254712345678"), Some("INV-1")))

  const LOG := LogRow(C2bConfirmation, PAID, None, false, None)

  const JOB := Confirm(PAID.c2b)
}
