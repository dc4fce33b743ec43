/** The interleaved protocol is equivalent to processing one event at a time. */
module Linearisation {
  import opened Models
  import opened Payloads
  import opened Settlement
  import opened Deliveries
  import opened Paths
  import opened Protocol
  import opened ProtocolInvariant

  // ----- histories that could have been processed one by one -----

  /** An event that makes sense on this table. A C2B event leaves the row its task writes: the waiting
      row settled by the body, or a new row made from it. */
  predicate Fits(txns: seq<Row>, event: Event) {
    match event
    case Created(row) => Fresh(row) && Insertable(txns, row)
    case Delivered(_, job, _, _) => job.Keyed? && Sound(job)
    case Confirmed(_, id, row) =>
      && id <= |txns| && row.payload.Some? && row.settledAt.Some?
      && var body := row.payload.value; var now := row.settledAt.value;
      if id < |txns| then Awaits(txns[id], body.c2b.billRef) && row == SettleC2b(txns[id], body.c2b, body, now)
      else row == NewC2b(body.c2b, body, now)
  }

  /** Every event fits the table its predecessors produce. */
  ghost predicate Sequential(events: seq<Event>) {
    forall k :: 0 <= k < |events| ==> Fits(Replay(events[..k]), events[k])
  }

  lemma SequentialPrefix(events: seq<Event>, n: nat)
    requires Sequential(events) && n <= |events|
    ensures Sequential(events[..n])
  {
    forall k | 0 <= k < n
      ensures Fits(Replay(events[..n][..k]), events[..n][k])
    {
      assert events[..n][..k] == events[..k];
    }
  }

  lemma SequentialSnoc(events: seq<Event>, event: Event)
    requires Sequential(events) && Fits(Replay(events), event)
    ensures Sequential(events + [event])
  {
    var more := events + [event];
    forall k | 0 <= k < |more|
      ensures Fits(Replay(more[..k]), more[k])
    {
      assert more[..k] == events[..k];
      assert events[..|events|] == events;
    }
  }

  lemma ApplyKeepsTableOk(txns: seq<Row>, event: Event)
    requires TableOk(txns) && Fits(txns, event)
    ensures TableOk(Apply(txns, event))
  {
    match event
    case Created(row) => InsertKeepsTableOk(txns, row);
    case Delivered(_, job, body, now) =>
      var found := Find(txns, job.key);
      if found.Some? && !Terminal(txns[found.value].status) && Storable(job) {
        SettleKeepsRowOk(txns[found.value], job, body, now);
        UpdateKeepsTableOk(txns, found.value, Settle(txns[found.value], job, body, now));
      }
    case Confirmed(_, id, row) =>
      if id < |txns| {
        assert RowOk(txns[id]);
        SettleC2bKeepsRowOk(txns[id], row.payload.value.c2b, row.payload.value, row.settledAt.value);
        UpdateKeepsTableOk(txns, id, row);
      } else {
        InsertKeepsTableOk(txns, row);
      }
  }

  lemma {:induction false} ReplayIsOk(events: seq<Event>)
    requires Sequential(events)
    ensures TableOk(Replay(events))
    decreases |events|
  {
    if |events| == 0 {
    } else {
      var n := |events| - 1;
      SequentialPrefix(events, n);
      ReplayIsOk(events[..n]);
      ApplyKeepsTableOk(Replay(events[..n]), events[n]);
    }
  }

  // ----- the story of one row -----

  /** The deliveries among the events, in order. */
  function DeliveriesIn(events: seq<Event>): (ds: seq<Delivery>)
    ensures (forall k :: 0 <= k < |events| && events[k].Delivered? ==>
               events[k].job.Keyed? && Sound(events[k].job)) ==> AllSound(ds)
  {
    if |events| == 0 then []
    else
      var n := |events| - 1;
      assert forall k :: 0 <= k < n ==> events[..n][k] == events[k];
      var before := DeliveriesIn(events[..n]);
      if events[n].Delivered? then before + [Delivery(events[n].job, events[n].body, events[n].now)] else before
  }

  lemma {:induction false} SettleFirstSnoc(row: Row, ds: seq<Delivery>, d: Delivery)
    requires AllSound(ds) && d.job.Keyed? && Sound(d.job)
    ensures AllSound(ds + [d])
    ensures SettleFirst(row, ds + [d]) == SettleFirst(SettleFirst(row, ds), [d])
  {
    if |ds| == 0 {
      assert ds + [d] == [d];
    } else {
      SettleFirstSnoc(row, ds[1..], d);
      assert (ds + [d])[1..] == ds[1..] + [d];
      if Matches(row, ds[0].job.key) && Storable(ds[0].job) {
        assert Terminal(SettleFirst(row, ds).status);
      }
    }
  }

  /** Row `r` was inserted by event `c` and holds what the deliveries after `c` made of it. */
  ghost predicate Story(events: seq<Event>, r: nat, c: nat)
    requires r < |Replay(events)|
  {
    && c < |events| && events[c].Created? && |Replay(events[..c])| == r
    && AllSound(DeliveriesIn(events[c + 1..]))
    && Replay(events)[r] == SettleFirst(events[c].row, DeliveriesIn(events[c + 1..]))
  }

  /** What one event does to one existing STK or B2C row. */
  lemma EventAtRow(txns: seq<Row>, event: Event, r: nat)
    requires TableOk(txns) && Fits(txns, event) && r < |txns| <= |Apply(txns, event)|
    requires Apply(txns, event)[r].kind != C2bPayment
    ensures txns[r].kind != C2bPayment
    ensures Apply(txns, event)[r] ==
            if event.Delivered? then SettleFirst(txns[r], [Delivery(event.job, event.body, event.now)]) else txns[r]
  {
    if event.Delivered? {
      DeliverAtRow(txns, Delivery(event.job, event.body, event.now), r);
    }
  }

  /** The deliveries since event `c`, when one more event arrives. */
  lemma DeliveriesSince(events: seq<Event>, c: nat)
    requires c + 1 < |events|
    ensures var n := |events| - 1; var before := DeliveriesIn(events[..n][c + 1..]);
      DeliveriesIn(events[c + 1..]) ==
      if events[n].Delivered? then before + [Delivery(events[n].job, events[n].body, events[n].now)] else before
  {
    var since := events[c + 1..];
    var n := |events| - 1;
    assert since[..|since| - 1] == events[..n][c + 1..] && since[|since| - 1] == events[n];
  }

  lemma StoryGrows(events: seq<Event>, r: nat, c: nat)
    requires Sequential(events) && |events| > 0 && r < |Replay(events[..|events| - 1])|
    requires Story(events[..|events| - 1], r, c)
    requires r < |Replay(events)| && Replay(events)[r].kind != C2bPayment
    ensures Story(events, r, c)
  {
    var n := |events| - 1;
    var event := events[n];
    SequentialPrefix(events, n);
    ReplayIsOk(events[..n]);
    assert Fits(Replay(events[..n]), event);
    EventAtRow(Replay(events[..n]), event, r);
    assert events[..n][..c] == events[..c];
    DeliveriesSince(events, c);
    if event.Delivered? {
      SettleFirstSnoc(events[c].row, DeliveriesIn(events[..n][c + 1..]), Delivery(event.job, event.body, event.now));
    }
  }

  /** Every STK or B2C row of a sequential replay is its inserted row, settled by the first
      storable delivery of its key since. */
  lemma {:induction false} RowStory(events: seq<Event>, r: nat) returns (c: nat)
    requires Sequential(events) && r < |Replay(events)| && Replay(events)[r].kind != C2bPayment
    ensures Story(events, r, c)
    decreases |events|
  {
    var n := |events| - 1;
    var before := Replay(events[..n]);
    SequentialPrefix(events, n);
    ReplayIsOk(events[..n]);
    assert Fits(before, events[n]);
    if r < |before| {
      EventAtRow(before, events[n], r);
      c := RowStory(events[..n], r);
      StoryGrows(events, r, c);
    } else {
      c := n;
      assert events[n + 1..] == [];
    }
  }

  // ----- the protocol's history -----

  /** The event a step adds to the history. */
  ghost function StepEvent(s: State, l: Label): Option<Event>
    requires Enabled(s, l)
  {
    match l
    case Create(row) => Some(Created(row))
    case Lock(w, now) =>
      var Worker(_, log, Parsed(job)) := s.workers[w];
      if Find(s.txns, job.key).None? then Some(Delivered(log, job, s.logs[log].body, now)) else None
    case Decide(w, now) =>
      var Worker(_, log, pc) := s.workers[w];
      if pc.Holding? && pc.job.Keyed? && (Terminal(pc.seen.status) || !Storable(pc.job))
      then Some(Delivered(log, pc.job, s.logs[log].body, now)) else None
    case Commit(w) =>
      var Worker(_, log, Writing(write, _)) := s.workers[w];
      (match write
       case SettleRow(r, written, job, now) =>
         if job.Keyed? then Some(Delivered(log, job, s.logs[log].body, now)) else Some(Confirmed(log, r, written))
       case CreateRow(written, job) => Some(Confirmed(log, |s.txns|, written))
       case _ => None)
    case _ => None
  }

  ghost function Emitted(s: State, l: Label): seq<Event>
    requires Enabled(s, l)
  {
    if StepEvent(s, l).Some? then [StepEvent(s, l).value] else []
  }

  lemma HistoryGrows(s: State, l: Label)
    requires Enabled(s, l)
    ensures Next(s, l).history == s.history + Emitted(s, l)
  {
  }

  /** An event names a log of the table and says what that log's body parses to. */
  ghost predicate Named(logs: seq<LogRow>, event: Event) {
    match event
    case Created(_) => true
    case Delivered(log, job, body, _) =>
      log < |logs| && logs[log].body == body && Parse(logs[log].task, body) == Ready(job)
    case Confirmed(log, _, row) =>
      log < |logs| && logs[log].task == C2bConfirmation && row.payload == Some(logs[log].body)
      && row.receipt == logs[log].body.c2b.transId
  }

  lemma CommitEventFits(s: State, w: nat)
    requires TableOk(s.txns) && Enabled(s, Commit(w)) && WorkerOk(s, w) && StepEvent(s, Commit(w)).Some?
    ensures Fits(s.txns, StepEvent(s, Commit(w)).value) && Named(s.logs, StepEvent(s, Commit(w)).value)
  {
    var worker := s.workers[w];
    ParseIsSound(worker.task, s.logs[worker.log].body);
    match worker.pc.write {
      case SettleRow(r, written, job, now) =>
        if job.Confirm? {
          SettleC2bKeepsRowOk(s.txns[r], job.c, s.logs[worker.log].body, now);
        }
      case _ =>
    }
  }

  lemma StepEventFits(s: State, l: Label)
    requires Inv(s) && Enabled(s, l) && StepEvent(s, l).Some?
    ensures Fits(s.txns, StepEvent(s, l).value) && Named(s.logs, StepEvent(s, l).value)
  {
    if Actor(l).Some? {
      var w := Actor(l).value;
      assert WorkerOk(s, w);
      ParseIsSound(s.workers[w].task, s.logs[s.workers[w].log].body);
      if l.Commit? {
        CommitEventFits(s, w);
      }
    }
  }

  /** A worker past its decision on a keyed job: it is about to record, or has recorded, an outcome. */
  predicate Decided(pc: Pc) {
    match pc
    case Writing(write, _) => !write.SettleRow?
    case Notifying(_, _) => true
    case Finished(fate) => fate.Ended?
    case _ => false
  }

  predicate IsDelivery(event: Event, log: nat, job: Job) {
    event.Delivered? && event.log == log && event.job == job
  }

  ghost predicate HistoryFaithful(s: State) {
    Sequential(s.history) && forall k :: 0 <= k < |s.history| ==> Named(s.logs, s.history[k])
  }

  /** Reaching a decision on a keyed job adds its delivery to the history. */
  lemma DecisionsAreRecorded(s: State, l: Label, w: nat)
    requires Enabled(s, l) && Actor(l) == Some(w) && WorkerOk(s, w)
    requires Decided(Next(s, l).workers[w].pc) && !Decided(s.workers[w].pc)
    requires var Worker(task, log, pc) := s.workers[w];
      Parse(task, s.logs[log].body).Ready? && Parse(task, s.logs[log].body).job.Keyed?
    ensures var Worker(task, log, pc) := s.workers[w];
      StepEvent(s, l).Some? && IsDelivery(StepEvent(s, l).value, log, Parse(task, s.logs[log].body).job)
  {
    var worker := s.workers[w];
    match l {
      case Commit(_) => assert worker.pc.write.SettleRow?;
      case _ =>
    }
  }

  lemma NamedStays(logs: seq<LogRow>, logs': seq<LogRow>, event: Event)
    requires LogsExtend(logs, logs') && Named(logs, event)
    ensures Named(logs', event)
  {
  }

  lemma NamesAfter(logs: seq<LogRow>, logs': seq<LogRow>, events: seq<Event>, more: seq<Event>, k: nat)
    requires LogsExtend(logs, logs') && k < |events + more|
    requires forall i :: 0 <= i < |events| ==> Named(logs, events[i])
    requires forall i :: 0 <= i < |more| ==> Named(logs, more[i])
    ensures Named(logs', (events + more)[k])
  {
    NamedStays(logs, logs', (events + more)[k]);
  }

  lemma StepKeepsNames(s: State, l: Label)
    requires Inv(s) && HistoryFaithful(s) && Enabled(s, l)
    ensures forall k :: 0 <= k < |Next(s, l).history| ==> Named(Next(s, l).logs, Next(s, l).history[k])
  {
    var s' := Next(s, l);
    var more := Emitted(s, l);
    HistoryGrows(s, l);
    StepEvolves(s, l);
    if StepEvent(s, l).Some? {
      StepEventFits(s, l);
    }
    forall k | 0 <= k < |s'.history|
      ensures Named(s'.logs, s'.history[k])
    {
      NamesAfter(s.logs, s'.logs, s.history, more, k);
    }
  }

  lemma StepKeepsSequence(s: State, l: Label)
    requires Inv(s) && Sequential(s.history) && Enabled(s, l)
    ensures Sequential(Next(s, l).history)
  {
    HistoryGrows(s, l);
    if StepEvent(s, l).Some? {
      StepEventFits(s, l);
      SequentialSnoc(s.history, StepEvent(s, l).value);
    }
  }

  lemma StepKeepsFaith(s: State, l: Label)
    requires Inv(s) && HistoryFaithful(s) && Enabled(s, l)
    ensures HistoryFaithful(Next(s, l))
  {
    StepKeepsSequence(s, l);
    StepKeepsNames(s, l);
  }

  lemma {:induction false} RunKeepsFaith(run: seq<State>, labels: seq<Label>, k: nat)
    requires IsRun(run, labels) && k < |run|
    ensures HistoryFaithful(run[k])
  {
    if k == 0 {
    } else {
      RunKeepsFaith(run, labels, k - 1);
      RunKeepsInv(run, labels, k - 1);
      assert Enabled(run[k - 1], labels[k - 1]);
      StepKeepsFaith(run[k - 1], labels[k - 1]);
    }
  }

  // ----- the events of a run -----

  /** What the first `k` steps of the run emit, in commit order. */
  ghost function EventsOf(run: seq<State>, labels: seq<Label>, k: nat): seq<Event>
    requires IsRun(run, labels) && k < |run|
  {
    if k == 0 then []
    else
      assert Enabled(run[k - 1], labels[k - 1]);
      EventsOf(run, labels, k - 1) + Emitted(run[k - 1], labels[k - 1])
  }

  lemma {:induction false} HistoryIsTheEvents(run: seq<State>, labels: seq<Label>, k: nat)
    requires IsRun(run, labels) && k < |run|
    ensures run[k].history == EventsOf(run, labels, k)
  {
    if k == 0 {
    } else {
      HistoryIsTheEvents(run, labels, k - 1);
      assert Enabled(run[k - 1], labels[k - 1]);
      HistoryGrows(run[k - 1], labels[k - 1]);
    }
  }

  /** A worker with no event ahead of it. */
  predicate Spent(pc: Pc) {
    pc.Finished? || pc.Notifying? || (pc.Writing? && (pc.write.NoteRejected? || pc.write.NoteProcessed?))
  }

  lemma DecideSpends(s: State, w: nat, now: nat)
    requires Enabled(s, Decide(w, now)) && StepEvent(s, Decide(w, now)).Some?
    ensures Spent(Next(s, Decide(w, now)).workers[w].pc)
  {
  }

  lemma CommitSpends(s: State, w: nat)
    requires Enabled(s, Commit(w))
    ensures Spent(Next(s, Commit(w)).workers[w].pc)
  {
  }

  /** An event is the last its worker emits. */
  lemma EventSpends(s: State, l: Label, w: nat)
    requires Enabled(s, l) && Actor(l) == Some(w) && StepEvent(s, l).Some?
    ensures w < |s.workers| && !Spent(s.workers[w].pc)
    ensures w < |Next(s, l).workers| && Spent(Next(s, l).workers[w].pc)
  {
    match l
    case Decide(_, now) => DecideSpends(s, w, now);
    case Commit(_) => CommitSpends(s, w);
    case _ =>
  }

  lemma SpentStays(s: State, l: Label, w: nat)
    requires Enabled(s, l) && w < |s.workers| && Spent(s.workers[w].pc)
    ensures w < |Next(s, l).workers| && Spent(Next(s, l).workers[w].pc)
  {
    if Actor(l) != Some(w) {
      StepKeepsOthers(s, l, w);
    } else if l.Commit? {
      CommitSpends(s, w);
    }
  }

  lemma {:induction false} SpentForGood(run: seq<State>, labels: seq<Label>, i: nat, j: nat, w: nat)
    requires IsRun(run, labels) && i <= j < |run| && w < |run[i].workers| && Spent(run[i].workers[w].pc)
    ensures w < |run[j].workers| && Spent(run[j].workers[w].pc)
    decreases j - i
  {
    if i == j {
    } else {
      SpentForGood(run, labels, i, j - 1, w);
      assert Enabled(run[j - 1], labels[j - 1]);
      SpentStays(run[j - 1], labels[j - 1], w);
    }
  }

  /** Step `i` of the run is worker `w` emitting an event. */
  ghost predicate Emits(run: seq<State>, labels: seq<Label>, i: nat, w: nat)
    requires IsRun(run, labels) && i < |labels|
  {
    Enabled(run[i], labels[i]) && Actor(labels[i]) == Some(w) && StepEvent(run[i], labels[i]).Some?
  }

  /** A worker emits one event at most. */
  lemma EmitsOnce(run: seq<State>, labels: seq<Label>, i: nat, j: nat, w: nat)
    requires IsRun(run, labels) && i < j < |labels| && Emits(run, labels, i, w)
    ensures !Emits(run, labels, j, w)
  {
    EventSpends(run[i], labels[i], w);
    SpentForGood(run, labels, i + 1, j, w);
    if Emits(run, labels, j, w) {
      EventSpends(run[j], labels[j], w);
    }
  }

  /** The keyed job of a worker's log. */
  ghost predicate HasKeyedJob(s: State, w: nat)
    requires w < |s.workers|
  {
    var Worker(task, log, _) := s.workers[w];
    log < |s.logs| && Parse(task, s.logs[log].body).Ready? && Parse(task, s.logs[log].body).job.Keyed?
  }

  /** Step `i` of the run is worker `w` delivering the job its log parses to. */
  ghost predicate DeliversAt(run: seq<State>, labels: seq<Label>, i: nat, w: nat)
    requires IsRun(run, labels) && i < |labels|
  {
    && Emits(run, labels, i, w) && w < |run[i].workers| && HasKeyedJob(run[i], w)
    && var Worker(task, log, _) := run[i].workers[w];
       IsDelivery(StepEvent(run[i], labels[i]).value, log, Parse(task, run[i].logs[log].body).job)
  }

  lemma NewWorkersAreUndecided(s: State, l: Label, w: nat)
    requires Enabled(s, l) && |s.workers| <= w < |Next(s, l).workers|
    ensures !Decided(Next(s, l).workers[w].pc)
  {
  }

  /** A worker's task, log and job never change. */
  lemma JobStays(s: State, s': State, actor: Option<nat>, w: nat)
    requires Evolves(s, s', actor) && w < |s.workers| && s.workers[w].log < |s.logs| && HasKeyedJob(s', w)
    ensures HasKeyedJob(s, w)
  {
  }

  lemma DecidedWorkersHadTheirJob(s: State, l: Label, w: nat)
    requires Inv(s) && Enabled(s, l) && w < |Next(s, l).workers|
    requires Decided(Next(s, l).workers[w].pc) && HasKeyedJob(Next(s, l), w)
    ensures w < |s.workers| && HasKeyedJob(s, w) && WorkerOk(s, w)
  {
    if w >= |s.workers| {
      NewWorkersAreUndecided(s, l, w);
    }
    assert WorkerOk(s, w);
    StepEvolves(s, l);
    JobStays(s, Next(s, l), Actor(l), w);
  }

  /** A worker past its decision was so before the step, or the step is its own. */
  lemma DecidingIsActing(s: State, l: Label, w: nat)
    requires Enabled(s, l) && w < |s.workers| && w < |Next(s, l).workers|
    requires Decided(Next(s, l).workers[w].pc) && !Decided(s.workers[w].pc)
    ensures Actor(l) == Some(w)
  {
    if Actor(l) != Some(w) {
      StepKeepsOthers(s, l, w);
    }
  }

  /** The worker is past its decision on a keyed job. */
  ghost predicate DecidedOnJob(s: State, w: nat) {
    w < |s.workers| && Decided(s.workers[w].pc) && HasKeyedJob(s, w)
  }

  lemma DecidingDelivers(s: State, l: Label, w: nat)
    requires Inv(s) && Enabled(s, l) && !DecidedOnJob(s, w) && DecidedOnJob(Next(s, l), w)
    ensures w < |s.workers| && HasKeyedJob(s, w) && Actor(l) == Some(w) && StepEvent(s, l).Some?
    ensures var Worker(task, log, _) := s.workers[w];
      IsDelivery(StepEvent(s, l).value, log, Parse(task, s.logs[log].body).job)
  {
    DecidedWorkersHadTheirJob(s, l, w);
    DecidingIsActing(s, l, w);
    DecisionsAreRecorded(s, l, w);
  }

  lemma StepDelivers(run: seq<State>, labels: seq<Label>, i: nat, w: nat)
    requires IsRun(run, labels) && i < |labels| && !DecidedOnJob(run[i], w) && DecidedOnJob(run[i + 1], w)
    ensures DeliversAt(run, labels, i, w)
  {
    RunKeepsInv(run, labels, i);
    assert Enabled(run[i], labels[i]);
    DecidingDelivers(run[i], labels[i], w);
  }

  /** A worker that is past its decision on a keyed job has delivered it at some step. */
  lemma DecisionHasItsStep(run: seq<State>, labels: seq<Label>, k: nat, w: nat) returns (i: nat)
    requires IsRun(run, labels) && k < |run| && DecidedOnJob(run[k], w)
    ensures i < k && DeliversAt(run, labels, i, w)
  {
    i := BecomesTrue((j: nat) => j < |run| && DecidedOnJob(run[j], w), k);
    StepDelivers(run, labels, i, w);
  }

  /** Linearisability. At every point of every run the committed transaction table is the replay,
      one after the other and in commit order, of the events its steps emitted: each fits the table
      its predecessors made and names a logged body and what it parses to, a worker emits at most
      one, and each that decided on a keyed job has emitted the delivery of that job. */
  lemma RunsAreLinearisable(run: seq<State>, labels: seq<Label>, k: nat)
    requires IsRun(run, labels) && k < |run|
    ensures run[k].txns == Replay(EventsOf(run, labels, k)) && Sequential(EventsOf(run, labels, k))
    ensures forall i :: 0 <= i < |EventsOf(run, labels, k)| ==> Named(run[k].logs, EventsOf(run, labels, k)[i])
    ensures forall w, i, j :: 0 <= i < j < k && Emits(run, labels, i, w) ==> !Emits(run, labels, j, w)
    ensures forall w: nat :: DecidedOnJob(run[k], w) ==> exists i :: 0 <= i < k && DeliversAt(run, labels, i, w)
  {
    RunKeepsInv(run, labels, k);
    RunKeepsFaith(run, labels, k);
    HistoryIsTheEvents(run, labels, k);
    forall w, i, j | 0 <= i < j < k && Emits(run, labels, i, w)
      ensures !Emits(run, labels, j, w)
    {
      EmitsOnce(run, labels, i, j, w);
    }
    forall w: nat | DecidedOnJob(run[k], w)
      ensures exists i :: 0 <= i < k && DeliversAt(run, labels, i, w)
    {
      var i := DecisionHasItsStep(run, labels, k, w);
    }
  }

  /** First delivery wins, for interleaved runs: each committed STK or B2C row is the row some
      service inserted, settled by the first storable delivery the run emitted for its key since. */
  lemma RowsHaveStories(run: seq<State>, labels: seq<Label>, k: nat, r: nat) returns (c: nat)
    requires IsRun(run, labels) && k < |run| && r < |run[k].txns| && run[k].txns[r].kind != C2bPayment
    ensures var events := EventsOf(run, labels, k);
      && r < |Replay(events)| && Story(events, r, c)
      && run[k].txns[r] == SettleFirst(events[c].row, DeliveriesIn(events[c + 1..]))
  {
    RunsAreLinearisable(run, labels, k);
    c := RowStory(EventsOf(run, labels, k), r);
  }

  /** The deliveries among the events, found again by position. */
  lemma {:induction false} DeliveryIsAnEvent(events: seq<Event>, i: nat) returns (k: nat)
    requires i < |DeliveriesIn(events)|
    ensures k < |events| && events[k].Delivered?
    ensures DeliveriesIn(events)[i] == Delivery(events[k].job, events[k].body, events[k].now)
    decreases |events|
  {
    var n := |events| - 1;
    if i < |DeliveriesIn(events[..n])| {
      k := DeliveryIsAnEvent(events[..n], i);
    } else {
      k := n;
    }
  }

  lemma {:induction false} EventIsADelivery(events: seq<Event>, k: nat) returns (i: nat)
    requires k < |events| && events[k].Delivered?
    ensures i < |DeliveriesIn(events)|
    ensures DeliveriesIn(events)[i] == Delivery(events[k].job, events[k].body, events[k].now)
    decreases |events|
  {
    var n := |events| - 1;
    if k < n {
      i := EventIsADelivery(events[..n], k);
    } else {
      i := |DeliveriesIn(events[..n])|;
    }
  }

  /** The event delivers a storable job to this row's key. */
  predicate SettlesRow(event: Event, row: Row) {
    event.Delivered? && event.job.Keyed? && Matches(row, event.job.key) && Storable(event.job)
  }

  /** Some event after event `c` delivers a storable job to the row's key. */
  ghost predicate SettledSince(events: seq<Event>, c: nat, row: Row) {
    exists i :: c < i < |events| && SettlesRow(events[i], row)
  }

  lemma DeliveriesSettle(since: seq<Event>, row: Row)
    requires AllSound(DeliveriesIn(since)) && RowOk(row) && !Terminal(row.status)
    requires forall i :: 0 <= i < |since| && since[i].Delivered? ==> since[i].job.Keyed?
    ensures Terminal(SettleFirst(row, DeliveriesIn(since)).status) <==>
              exists i :: 0 <= i < |since| && SettlesRow(since[i], row)
  {
    var ds := DeliveriesIn(since);
    SettleFirstIsTerminal(row, ds);
    if j :| 0 <= j < |ds| && Matches(row, ds[j].job.key) && Storable(ds[j].job) {
      var i := DeliveryIsAnEvent(since, j);
      assert SettlesRow(since[i], row);
    }
    if i :| 0 <= i < |since| && SettlesRow(since[i], row) {
      var j := EventIsADelivery(since, i);
    }
  }

  lemma StorySettles(events: seq<Event>, r: nat, c: nat)
    requires Sequential(events) && r < |Replay(events)| && Story(events, r, c)
    ensures Terminal(Replay(events)[r].status) <==> SettledSince(events, c, events[c].row)
  {
    var row, since := events[c].row, events[c + 1..];
    assert Fits(Replay(events[..c]), events[c]);
    forall i | 0 <= i < |since| && since[i].Delivered?
      ensures since[i].job.Keyed?
    {
      assert Fits(Replay(events[..c + 1 + i]), events[c + 1 + i]);
    }
    DeliveriesSettle(since, row);
    forall i | c < i < |events|
      ensures since[i - c - 1] == events[i]
    {
    }
    if i :| 0 <= i < |since| && SettlesRow(since[i], row) {
      assert SettlesRow(events[c + 1 + i], row);
    }
  }

  /** When an STK or B2C row is settled, in any run: if and only if some storable delivery of its key
      was emitted after the row was inserted. One that came before has been used up. */
  lemma SettledIff(run: seq<State>, labels: seq<Label>, k: nat, r: nat) returns (c: nat)
    requires IsRun(run, labels) && k < |run| && r < |run[k].txns| && run[k].txns[r].kind != C2bPayment
    ensures var events := EventsOf(run, labels, k);
      && c < |events| && events[c].Created? && |Replay(events[..c])| == r
      && (Terminal(run[k].txns[r].status) <==> SettledSince(events, c, events[c].row))
  {
    c := RowsHaveStories(run, labels, k, r);
    RunsAreLinearisable(run, labels, k);
    StorySettles(EventsOf(run, labels, k), r, c);
  }

  /** Every reachable table is well formed: keys unique, `settledAt` exactly on terminal rows,
      receipts on SUCCESS only, result code 0 on every STK or B2C success. */
  lemma ReachableTablesAreWellFormed(run: seq<State>, labels: seq<Label>, k: nat)
    requires IsRun(run, labels) && k < |run|
    ensures UniqueKeys(run[k].txns)
    ensures forall r :: 0 <= r < |run[k].txns| ==> RowOk(run[k].txns[r])
  {
    RunKeepsInv(run, labels, k);
  }
}
