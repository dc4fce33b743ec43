/** What holds over whole runs of the callback protocol: frozen rows, one settlement and at most
    one truthful signal per row. */
module ProtocolSafety {
  import opened Models
  import opened Settlement
  import opened Paths
  import opened Protocol
  import opened ProtocolInvariant

  // ----- terminal rows are frozen -----

  lemma ExtendsTwice(a: State, b: State, c: State)
    requires Extends(a.txns, b.txns) && Extends(b.txns, c.txns)
    requires LogsExtend(a.logs, b.logs) && LogsExtend(b.logs, c.logs)
    ensures Extends(a.txns, c.txns) && LogsExtend(a.logs, c.logs)
  {
  }

  lemma RunStepExtends(run: seq<State>, labels: seq<Label>, k: nat)
    requires IsRun(run, labels) && k < |labels|
    ensures Extends(run[k].txns, run[k + 1].txns) && LogsExtend(run[k].logs, run[k + 1].logs)
  {
    RunKeepsInv(run, labels, k);
    assert Enabled(run[k], labels[k]);
    StepEvolves(run[k], labels[k]);
  }

  /** From any point of a run to any later one the tables only extend: a terminal row keeps every
      field, and no row changes kind, key, amount or reference. */
  lemma {:induction false} RunExtends(run: seq<State>, labels: seq<Label>, i: nat, j: nat)
    requires IsRun(run, labels) && i <= j < |run|
    ensures Extends(run[i].txns, run[j].txns) && LogsExtend(run[i].logs, run[j].logs)
    decreases j - i
  {
    if i == j {
    } else {
      RunExtends(run, labels, i, j - 1);
      RunStepExtends(run, labels, j - 1);
      ExtendsTwice(run[i], run[j - 1], run[j]);
    }
  }

  /** Step `i` of a run is the one that settles row `r`. */
  ghost predicate Settles(run: seq<State>, i: nat, r: nat)
    requires i + 1 < |run|
  {
    && r < |run[i + 1].txns| && Terminal(run[i + 1].txns[r].status)
    && (r < |run[i].txns| ==> !Terminal(run[i].txns[r].status))
  }

  /** A row becomes terminal at most once in a run. */
  lemma SettledAtMostOnce(run: seq<State>, labels: seq<Label>, r: nat, i: nat, j: nat)
    requires IsRun(run, labels) && i + 1 < |run| && j + 1 < |run|
    requires Settles(run, i, r) && Settles(run, j, r)
    ensures i == j
  {
    if i < j {
      RunExtends(run, labels, i + 1, j);
    } else if j < i {
      RunExtends(run, labels, j + 1, i);
    }
  }

  // ----- signals -----

  /** Signals name distinct rows, each sent by the row's settler, and each still true of the row. */
  ghost predicate SignalsOk(s: State) {
    && (forall k :: 0 <= k < |s.signals| ==> SignalOk(s, s.signals[k]))
    && (forall j, k :: 0 <= j < k < |s.signals| ==> s.signals[j].row != s.signals[k].row)
    && (forall w :: 0 <= w < |s.workers| ==> Announced(s, s.workers[w].pc))
  }

  ghost predicate SignalOk(s: State, signal: Signal) {
    var r := signal.row;
    && r in s.owner && s.owner[r] < |s.workers| && s.workers[s.owner[r]].pc == Finished(Ended(Some(r)))
    && r < |s.txns| && Truthful(signal.kind, s.txns[r])
  }

  ghost predicate Announced(s: State, pc: Pc) {
    HasAnnounced(pc) ==>
      exists k :: 0 <= k < |s.signals| && s.signals[k].row == pc.fate.notified.value
  }

  lemma EndedWorkersStay(s: State, l: Label, w: nat)
    requires Enabled(s, l) && w < |s.workers| && s.workers[w].pc.Finished?
    ensures Actor(l) != Some(w)
  {
  }

  lemma OldSignalsStayOk(s: State, l: Label, signal: Signal)
    requires Inv(s) && Enabled(s, l) && SignalOk(s, signal)
    ensures SignalOk(Next(s, l), signal)
  {
    StepEvolves(s, l);
    EndedWorkersStay(s, l, s.owner[signal.row]);
  }

  /** The worker ended normally after sending the signal of a row. */
  predicate HasAnnounced(pc: Pc) {
    pc.Finished? && pc.fate.Ended? && pc.fate.notified.Some?
  }

  lemma CommitDoesNotAnnounce(s: State, w: nat)
    requires Enabled(s, Commit(w))
    ensures !HasAnnounced(Next(s, Commit(w)).workers[w].pc)
  {
  }

  lemma DecideDoesNotAnnounce(s: State, w: nat, now: nat)
    requires Enabled(s, Decide(w, now))
    ensures !HasAnnounced(Next(s, Decide(w, now)).workers[w].pc)
  {
  }

  lemma OthersDoNotAnnounce(s: State, l: Label, w: nat)
    requires Enabled(s, l) && Actor(l) == Some(w) && !l.Notify? && !l.Commit? && !l.Decide?
    ensures !HasAnnounced(Next(s, l).workers[w].pc)
  {
  }

  /** A step other than Notify ends no worker with a signal sent. */
  lemma OnlyNotifyAnnounces(s: State, l: Label, w: nat)
    requires Enabled(s, l) && !l.Notify? && w < |Next(s, l).workers| && HasAnnounced(Next(s, l).workers[w].pc)
    ensures w < |s.workers| && s.workers[w].pc == Next(s, l).workers[w].pc
  {
    StepCountsWorkers(s, l);
    if Actor(l) == Some(w) {
      match l
      case Commit(_) => CommitDoesNotAnnounce(s, w);
      case Decide(_, now) => DecideDoesNotAnnounce(s, w, now);
      case _ => OthersDoNotAnnounce(s, l, w);
    } else if w < |s.workers| {
      StepKeepsOthers(s, l, w);
    }
  }

  lemma SignalsStay(s: State, l: Label)
    requires Enabled(s, l) && !l.Notify?
    ensures Next(s, l).signals == s.signals
  {
  }

  lemma NotifyAnnounces(s: State, w: nat, i: nat)
    requires SignalsOk(s) && Enabled(s, Notify(w)) && i < |s.workers|
    ensures Announced(Next(s, Notify(w)), Next(s, Notify(w)).workers[i].pc)
  {
    var s' := Next(s, Notify(w));
    var Notifying(r, job) := s.workers[w].pc;
    if i == w {
      assert s'.signals[|s.signals|] == Signal(r, SignalFor(job));
    } else {
      var pc := s.workers[i].pc;
      assert Announced(s, pc);
      if HasAnnounced(pc) {
        var k :| 0 <= k < |s.signals| && s.signals[k].row == pc.fate.notified.value;
        assert s'.signals[k].row == pc.fate.notified.value;
      }
    }
  }

  lemma NotifySignalIsOk(s: State, w: nat)
    requires Inv(s) && Enabled(s, Notify(w))
    ensures var Notifying(r, job) := s.workers[w].pc; SignalOk(Next(s, Notify(w)), Signal(r, SignalFor(job)))
  {
    assert WorkerOk(s, w);
  }

  /** A worker about to signal has not signalled. */
  lemma NotSignalledYet(s: State, w: nat, k: nat)
    requires Inv(s) && SignalsOk(s) && w < |s.workers| && s.workers[w].pc.Notifying? && k < |s.signals|
    ensures s.signals[k].row != s.workers[w].pc.row
  {
    assert SignalOk(s, s.signals[k]) && WorkerOk(s, w);
  }

  lemma NotifyAppends(s: State, w: nat)
    requires Enabled(s, Notify(w))
    ensures var Notifying(r, job) := s.workers[w].pc;
      Next(s, Notify(w)).signals == s.signals + [Signal(r, SignalFor(job))]
  {
  }

  lemma OldSignalsAfterNotify(s: State, w: nat)
    requires Inv(s) && SignalsOk(s) && Enabled(s, Notify(w))
    ensures forall k :: 0 <= k < |s.signals| ==>
              SignalOk(Next(s, Notify(w)), s.signals[k]) && s.signals[k].row != s.workers[w].pc.row
  {
    forall k | 0 <= k < |s.signals|
      ensures SignalOk(Next(s, Notify(w)), s.signals[k]) && s.signals[k].row != s.workers[w].pc.row
    {
      OldSignalsStayOk(s, Notify(w), s.signals[k]);
      NotSignalledYet(s, w, k);
    }
  }

  lemma NotifyKeepsSignals(s: State, w: nat)
    requires Inv(s) && SignalsOk(s) && Enabled(s, Notify(w))
    ensures SignalsOk(Next(s, Notify(w)))
  {
    var s' := Next(s, Notify(w));
    var Notifying(r, job) := s.workers[w].pc;
    NotifySignalIsOk(s, w);
    NotifyAppends(s, w);
    OldSignalsAfterNotify(s, w);
    forall i | 0 <= i < |s'.workers|
      ensures Announced(s', s'.workers[i].pc)
    {
      NotifyAnnounces(s, w, i);
    }
  }

  lemma QuietStepKeepsSignals(s: State, l: Label)
    requires Inv(s) && SignalsOk(s) && Enabled(s, l) && !l.Notify?
    ensures SignalsOk(Next(s, l))
  {
    var s' := Next(s, l);
    SignalsStay(s, l);
    forall k | 0 <= k < |s.signals|
      ensures SignalOk(s', s.signals[k])
    {
      OldSignalsStayOk(s, l, s.signals[k]);
    }
    forall w | 0 <= w < |s'.workers|
      ensures Announced(s', s'.workers[w].pc)
    {
      if HasAnnounced(s'.workers[w].pc) {
        OnlyNotifyAnnounces(s, l, w);
        assert Announced(s, s.workers[w].pc);
      }
    }
  }

  lemma StepKeepsSignals(s: State, l: Label)
    requires Inv(s) && SignalsOk(s) && Enabled(s, l)
    ensures SignalsOk(Next(s, l))
  {
    if l.Notify? {
      NotifyKeepsSignals(s, l.w);
    } else {
      QuietStepKeepsSignals(s, l);
    }
  }

  lemma {:induction false} RunKeepsSignals(run: seq<State>, labels: seq<Label>, k: nat)
    requires IsRun(run, labels) && k < |run|
    ensures SignalsOk(run[k])
  {
    if k == 0 {
    } else {
      RunKeepsSignals(run, labels, k - 1);
      RunKeepsInv(run, labels, k - 1);
      assert Enabled(run[k - 1], labels[k - 1]);
      StepKeepsSignals(run[k - 1], labels[k - 1]);
    }
  }

  /** Signal truth across the lock gap. When a worker sends the signal its locals chose, after its
      lock is gone, the committed row is terminal and says the same; and it says so ever after. */
  lemma SignalTellsTheTruth(run: seq<State>, labels: seq<Label>, i: nat, j: nat)
    requires IsRun(run, labels) && i < |labels| && labels[i].Notify? && i <= j < |run|
    ensures var w := labels[i].w;
      && w < |run[i].workers| && run[i].workers[w].pc.Notifying?
      && var Notifying(r, job) := run[i].workers[w].pc;
      && r < |run[i].txns| && Terminal(run[i].txns[r].status)
      && r < |run[j].txns| && run[j].txns[r] == run[i].txns[r]
      && Truthful(SignalFor(job), run[j].txns[r])
  {
    assert Enabled(run[i], labels[i]);
    RunKeepsInv(run, labels, i);
    assert WorkerOk(run[i], labels[i].w);
    RunExtends(run, labels, i, j);
  }

  /** At most one signal per row. */
  lemma SignalledAtMostOnce(run: seq<State>, labels: seq<Label>, k: nat, i: nat, j: nat)
    requires IsRun(run, labels) && k < |run| && i < |run[k].signals| && j < |run[k].signals|
    requires run[k].signals[i].row == run[k].signals[j].row
    ensures i == j
    ensures var Signal(r, kind) := run[k].signals[i]; r < |run[k].txns| && Truthful(kind, run[k].txns[r])
  {
    RunKeepsSignals(run, labels, k);
    assert SignalOk(run[k], run[k].signals[i]);
  }

  // ----- counting -----

  function SettledRows(s: State): set<nat> {
    set r | 0 <= r < |s.txns| && Terminal(s.txns[r].status)
  }

  /** Settled rows whose settler has not sent its signal: about to, or died first. */
  ghost function UnsentRows(s: State): set<nat> {
    set r | r in s.owner &&
            (s.owner[r] >= |s.workers| || s.workers[s.owner[r]].pc != Finished(Ended(Some(r))))
  }

  lemma {:induction false} DistinctRowsCount(signals: seq<Signal>, rows: set<nat>)
    requires forall j, k :: 0 <= j < k < |signals| ==> signals[j].row != signals[k].row
    requires forall r :: r in rows <==> exists k :: 0 <= k < |signals| && signals[k].row == r
    ensures |rows| == |signals|
  {
    if |signals| == 0 {
      assert rows == {};
    } else {
      var n := |signals| - 1;
      var last := signals[n].row;
      assert last in rows;
      forall r | r in rows - {last}
        ensures exists k :: 0 <= k < |signals[..n]| && signals[..n][k].row == r
      {
        var k :| 0 <= k < |signals| && signals[k].row == r;
        assert signals[..n][k].row == r;
      }
      forall k | 0 <= k < |signals[..n]|
        ensures signals[..n][k].row in rows - {last}
      {
        assert signals[k].row in rows;
      }
      DistinctRowsCount(signals[..n], rows - {last});
    }
  }

  /** Conservation: every settled row has been signalled once, or is still owed its signal. */
  lemma SignalsAreConserved(run: seq<State>, labels: seq<Label>, k: nat)
    requires IsRun(run, labels) && k < |run|
    ensures |run[k].signals| + |UnsentRows(run[k])| == |SettledRows(run[k])|
  {
    var s := run[k];
    RunKeepsInv(run, labels, k);
    RunKeepsSignals(run, labels, k);
    assert SettledRows(s) == s.owner.Keys;
    var sent := SettledRows(s) - UnsentRows(s);
    forall r | r in sent
      ensures exists i :: 0 <= i < |s.signals| && s.signals[i].row == r
    {
      assert Announced(s, s.workers[s.owner[r]].pc);
    }
    forall i | 0 <= i < |s.signals|
      ensures s.signals[i].row in sent
    {
      assert SignalOk(s, s.signals[i]);
    }
    DistinctRowsCount(s.signals, sent);
    assert UnsentRows(s) <= SettledRows(s);
  }

  ghost predicate Completed(s: State) {
    forall w :: 0 <= w < |s.workers| ==> s.workers[w].pc.Finished?
  }

  /** No worker died between its commit and its signal. */
  ghost predicate NothingLost(s: State) {
    forall w :: 0 <= w < |s.workers| && s.workers[w].pc.Finished? && s.workers[w].pc.fate.Died? ==>
      s.workers[w].pc.fate.lost.None?
  }

  /** A worker that died between its commit and its signal left a row that is owed one. */
  lemma LossesAreUnsent(s: State, w: nat)
    requires Inv(s) && w < |s.workers| && s.workers[w].pc.Finished? && s.workers[w].pc.fate.Died?
    requires s.workers[w].pc.fate.lost.Some?
    ensures s.workers[w].pc.fate.lost.value in UnsentRows(s)
  {
    assert WorkerOk(s, w);
  }

  lemma NothingOwed(s: State)
    requires Inv(s) && Completed(s) && NothingLost(s)
    ensures UnsentRows(s) == {}
  {
    forall r | r in s.owner
      ensures s.workers[s.owner[r]].pc == Finished(Ended(Some(r)))
    {
      assert SettledRow(s.workers[s.owner[r]].pc) == Some(r);
    }
  }

  lemma SettledRowIsSignalled(s: State, r: nat)
    requires Inv(s) && SignalsOk(s) && r in SettledRows(s) && UnsentRows(s) == {}
    ensures exists i :: 0 <= i < |s.signals| && s.signals[i].row == r
  {
    assert r !in UnsentRows(s);
    assert Announced(s, s.workers[s.owner[r]].pc);
  }

  /** In a completed run the signals are as many as the settled rows exactly if no worker died
      between its commit and its signal, and then every settled row has its signal. */
  lemma CompletedRunsSignalEverything(run: seq<State>, labels: seq<Label>, k: nat)
    requires IsRun(run, labels) && k < |run| && Completed(run[k])
    ensures |run[k].signals| == |SettledRows(run[k])| <==> NothingLost(run[k])
    ensures NothingLost(run[k]) ==>
      forall r :: r in SettledRows(run[k]) ==> exists i :: 0 <= i < |run[k].signals| && run[k].signals[i].row == r
  {
    var s := run[k];
    RunKeepsInv(run, labels, k);
    RunKeepsSignals(run, labels, k);
    SignalsAreConserved(run, labels, k);
    if NothingLost(s) {
      NothingOwed(s);
      forall r | r in SettledRows(s)
        ensures exists i :: 0 <= i < |s.signals| && s.signals[i].row == r
      {
        SettledRowIsSignalled(s, r);
      }
    } else {
      var w :| 0 <= w < |s.workers| && s.workers[w].pc.fate.Died? && s.workers[w].pc.fate.lost.Some?;
      LossesAreUnsent(s, w);
    }
  }

  // ----- a signal lost is lost for good -----

  /** Every signal that is still to be sent can be lost: the process may die just before. */
  lemma SignalsCanBeLost(s: State, w: nat) returns (t: State)
    requires w < |s.workers| && s.workers[w].pc.Notifying?
    ensures Goes(Transition, s, t) && w < |t.workers|
    ensures t.workers[w].pc == Finished(Died(Some(s.workers[w].pc.row))) && t.signals == s.signals && t.txns == s.txns
  {
    t := Next(s, Crash(w));
    GoesHere(Transition, s);
    GoesNext(Transition, s, s, Crash(w), t);
  }

  lemma {:induction false} FinishedWorkersStay(run: seq<State>, labels: seq<Label>, i: nat, j: nat, w: nat)
    requires IsRun(run, labels) && i <= j < |run| && w < |run[i].workers| && run[i].workers[w].pc.Finished?
    ensures w < |run[j].workers| && run[j].workers[w] == run[i].workers[w]
    decreases j - i
  {
    if i == j {
    } else {
      FinishedWorkersStay(run, labels, i, j - 1, w);
      assert Enabled(run[j - 1], labels[j - 1]);
      EndedWorkersStay(run[j - 1], labels[j - 1], w);
      StepKeepsOthers(run[j - 1], labels[j - 1], w);
    }
  }

  lemma StepExtendsSignals(s: State, l: Label)
    requires Enabled(s, l)
    ensures s.signals <= Next(s, l).signals
  {
    if !l.Notify? {
      SignalsStay(s, l);
    }
  }

  lemma {:induction false} SignalsExtend(run: seq<State>, labels: seq<Label>, i: nat, j: nat)
    requires IsRun(run, labels) && i <= j < |run|
    ensures run[i].signals <= run[j].signals
    decreases j - i
  {
    if i == j {
    } else {
      SignalsExtend(run, labels, i, j - 1);
      assert Enabled(run[j - 1], labels[j - 1]);
      StepExtendsSignals(run[j - 1], labels[j - 1]);
    }
  }

  /** The row of a worker that died between commit and signal is signalled by nobody. */
  lemma LostRowIsSilent(s: State, w: nat, i: nat)
    requires Inv(s) && SignalsOk(s) && w < |s.workers| && s.workers[w].pc.Finished? && s.workers[w].pc.fate.Died?
    requires s.workers[w].pc.fate.lost.Some? && i < |s.signals|
    ensures s.signals[i].row != s.workers[w].pc.fate.lost.value
  {
    assert WorkerOk(s, w) && SignalOk(s, s.signals[i]);
  }

  /** If a worker dies between its commit and its signal, no state of the run, however long it goes
      on and whatever is rerun, holds a signal for its row. */
  lemma LostSignalsStayLost(run: seq<State>, labels: seq<Label>, k: nat, w: nat, r: nat, j: nat, i: nat)
    requires IsRun(run, labels) && k < |run| && w < |run[k].workers| && run[k].workers[w].pc == Finished(Died(Some(r)))
    requires j < |run| && i < |run[j].signals|
    ensures run[j].signals[i].row != r
  {
    var m := if j < k then k else j;
    FinishedWorkersStay(run, labels, k, m, w);
    SignalsExtend(run, labels, j, m);
    RunKeepsInv(run, labels, m);
    RunKeepsSignals(run, labels, m);
    LostRowIsSilent(run[m], w, i);
  }
}
