/** Callback processing as a labelled transition system: any number of workers run the four task
    functions over one database, under row locks and READ COMMITTED isolation. */
module Protocol {
  import opened Models
  import opened Payloads
  import opened Settlement
  import opened Paths

  /** What a worker will write when its atomic block commits. */
  datatype Write =
    | NoteRejected(message: string)
    | NoteProcessed
    | SettleRow(row: nat, written: Row, job: Job, now: nat)
    | CreateRow(written: Row, job: Job)

  /** How a worker ended. `notified` is the row whose signal it sent, `lost` the row it settled
      without living to send the signal. */
  datatype Fate = Ended(notified: Option<nat>) | Threw | Died(lost: Option<nat>)

  datatype Pc =
    | Called                                         // the task function was entered
    | Parsed(job: Job)                               // body parsed, atomic block next
    | Checked(job: Job)                              // C2B: the receipt is not recorded yet
    | Selecting(job: Job, cands: seq<nat>)           // C2B: rows the select_for_update query still has to try
    | Holding(job: Job, row: nat, seen: Row)         // row locked and read
    | Writing(write: Write, held: Option<nat>)       // ready to commit
    | Notifying(row: nat, job: Job)                  // committed, lock released, signal not sent yet
    | Finished(fate: Fate)

  datatype Worker = Worker(task: Task, log: nat, pc: Pc)

  /** `locks` maps a locked row to its worker. `history` and `owner` (who settled which row) record
      the past; no step reads them. */
  datatype State = State(
    txns: seq<Row>,
    logs: seq<LogRow>,
    workers: seq<Worker>,
    locks: map<nat, nat>,
    signals: seq<Signal>,
    history: seq<Event>,
    owner: map<nat, nat>)

  const INITIAL := State([], [], [], map[], [], [], map[])

  datatype Label =
    | Receive(task: Task, body: Body)      // a view logs a body
    | Dispatch(task: Task, log: nat)       // a view calls the task, or the log is rerun
    | Create(row: Row)                     // a service inserts a PENDING row
    | Load(w: nat)
    | Lock(w: nat, now: nat)
    | Check(w: nat)
    | Select(w: nat, cands: seq<nat>)
    | Try(w: nat)
    | Decide(w: nat, now: nat)
    | Commit(w: nat)
    | Notify(w: nat)
    | Abort(w: nat)                        // an exception: the atomic block rolls back
    | Crash(w: nat)                        // the process dies

  /** The row lock a worker holds. */
  function Holds(pc: Pc): Option<nat> {
    match pc
    case Holding(_, row, _) => Some(row)
    case Writing(_, held) => held
    case _ => None
  }

  /** The row a worker has settled. */
  function SettledRow(pc: Pc): Option<nat> {
    match pc
    case Notifying(row, _) => Some(row)
    case Finished(Ended(notified)) => notified
    case Finished(Died(lost)) => lost
    case _ => None
  }

  /** What the C2B query may return in this state: exactly the rows awaiting `ref`, most recently
      initiated first, in any order among ties. */
  ghost predicate ValidCandidates(txns: seq<Row>, ref: Option<string>, cands: seq<nat>) {
    && (forall k :: 0 <= k < |cands| ==> cands[k] < |txns| && Awaits(txns[cands[k]], ref))
    && (forall i :: 0 <= i < |txns| && Awaits(txns[i], ref) ==> i in cands)
    && (forall j, k :: 0 <= j < k < |cands| ==>
          cands[j] != cands[k] && txns[cands[k]].initiatedAt <= txns[cands[j]].initiatedAt)
  }

  predicate At(s: State, w: nat) {
    w < |s.workers| && s.workers[w].log < |s.logs|
  }

  ghost predicate Enabled(s: State, l: Label) {
    match l
    case Receive(_, _) => true
    case Dispatch(task, log) => log < |s.logs| && s.logs[log].task == task
    case Create(row) => Fresh(row) && Insertable(s.txns, row)
    case Load(w) => At(s, w) && s.workers[w].pc.Called?
    case Lock(w, _) =>
      && At(s, w) && s.workers[w].pc.Parsed? && s.workers[w].pc.job.Keyed?
      && var found := Find(s.txns, s.workers[w].pc.job.key); found.Some? ==> found.value !in s.locks
    case Check(w) => At(s, w) && s.workers[w].pc.Parsed? && s.workers[w].pc.job.Confirm?
    case Select(w, cands) =>
      && At(s, w) && s.workers[w].pc.Checked? && s.workers[w].pc.job.Confirm?
      && ValidCandidates(s.txns, s.workers[w].pc.job.c.billRef, cands)
    case Try(w) =>
      && At(s, w) && s.workers[w].pc.Selecting? && s.workers[w].pc.job.Confirm?
      && var cands := s.workers[w].pc.cands; |cands| > 0 && cands[0] < |s.txns| && cands[0] !in s.locks
    case Decide(w, _) =>
      && At(s, w)
      && var pc := s.workers[w].pc; pc.Holding? || (pc.Selecting? && pc.cands == [] && pc.job.Confirm?)
    case Commit(w) =>
      && At(s, w) && s.workers[w].pc.Writing?
      && (s.workers[w].pc.write.SettleRow? ==> s.workers[w].pc.write.row < |s.txns|)
    case Notify(w) => w < |s.workers| && s.workers[w].pc.Notifying?
    case Abort(w) => w < |s.workers| && !s.workers[w].pc.Finished? && !s.workers[w].pc.Notifying?
    case Crash(w) => w < |s.workers| && !s.workers[w].pc.Finished?
  }

  function Goto(s: State, w: nat, pc: Pc): State
    requires w < |s.workers|
  {
    s.(workers := s.workers[w := s.workers[w].(pc := pc)])
  }

  function Release(locks: map<nat, nat>, held: Option<nat>): map<nat, nat> {
    if held.Some? then locks - {held.value} else locks
  }

  /** `objects.get` on the log and the parsing that follows. */
  function LoadPc(s: State, worker: Worker): Pc
    requires worker.log < |s.logs|
  {
    match Parse(worker.task, s.logs[worker.log].body)
    case Broken => Finished(Threw)
    case Missing(message) => Writing(NoteRejected(message), None)
    case Ready(job) => Parsed(job)
  }

  /** `select_for_update().get(key)`. */
  ghost function LockStep(s: State, w: nat, now: nat): State
    requires Enabled(s, Lock(w, now))
  {
    var job := s.workers[w].pc.job;
    match Find(s.txns, job.key)
    case None =>
      Goto(s, w, Writing(NoteRejected(UnmatchedMessage(job.task, job.key)), None))
      .(history := s.history + [Delivered(s.workers[w].log, job, s.logs[s.workers[w].log].body, now)])
    case Some(r) => Goto(s, w, Holding(job, r, s.txns[r])).(locks := s.locks[r := w])
  }

  /** Lock the first remaining candidate, or skip it when its committed row no longer qualifies. */
  ghost function TryStep(s: State, w: nat): State
    requires Enabled(s, Try(w))
  {
    var Selecting(job, cands) := s.workers[w].pc;
    var r := cands[0];
    if Awaits(s.txns[r], job.c.billRef) then Goto(s, w, Holding(job, r, s.txns[r])).(locks := s.locks[r := w])
    else Goto(s, w, Selecting(job, cands[1..]))
  }

  /** The terminal-state guard and the assignments to the transaction, on the locked snapshot. */
  ghost function DecideStep(s: State, w: nat, now: nat): State
    requires Enabled(s, Decide(w, now))
  {
    var Worker(_, log, pc) := s.workers[w];
    var body := s.logs[log].body;
    if pc.Selecting? then Goto(s, w, Writing(CreateRow(NewC2b(pc.job.c, body, now), pc.job), None))
    else
      var Holding(job, row, seen) := pc;
      var event := Delivered(log, job, body, now);
      if job.Confirm? then Goto(s, w, Writing(SettleRow(row, SettleC2b(seen, job.c, body, now), job, now), Some(row)))
      else if Terminal(seen.status) then Goto(s, w, Writing(NoteProcessed, Some(row))).(history := s.history + [event])
      else if !Storable(job) then
        Goto(s, w, Finished(Threw)).(locks := Release(s.locks, Some(row)), history := s.history + [event])
      else Goto(s, w, Writing(SettleRow(row, Settle(seen, job, body, now), job, now), Some(row)))
  }

  ghost function CommitStep(s: State, w: nat): State
    requires Enabled(s, Commit(w))
  {
    var Worker(_, log, Writing(write, held)) := s.workers[w];
    match write
    case NoteRejected(message) =>
      Goto(s, w, Finished(Ended(None))).(logs := Reject(s.logs, log, message), locks := Release(s.locks, held))
    case NoteProcessed =>
      Goto(s, w, Finished(Ended(None))).(logs := MarkProcessed(s.logs, log), locks := Release(s.locks, held))
    case SettleRow(r, written, job, now) =>
      var event := if job.Keyed? then Delivered(log, job, s.logs[log].body, now) else Confirmed(log, r, written);
      Goto(s, w, Notifying(r, job)).(
        txns := s.txns[r := written], logs := LinkTo(s.logs, log, r), locks := Release(s.locks, held),
        history := s.history + [event], owner := s.owner[r := w])
    case CreateRow(written, job) =>
      var r := |s.txns|;
      Goto(s, w, Notifying(r, job)).(
        txns := s.txns + [written], logs := LinkTo(s.logs, log, r), locks := Release(s.locks, held),
        history := s.history + [Confirmed(log, r, written)], owner := s.owner[r := w])
  }

  ghost function Next(s: State, l: Label): State
    requires Enabled(s, l)
  {
    match l
    case Receive(task, body) => s.(logs := s.logs + [LogRow(task, body, None, false, None)])
    case Dispatch(task, log) => s.(workers := s.workers + [Worker(task, log, Called)])
    case Create(row) => s.(txns := s.txns + [row], history := s.history + [Created(row)])
    case Load(w) => Goto(s, w, LoadPc(s, s.workers[w]))
    case Lock(w, now) => LockStep(s, w, now)
    case Check(w) =>
      var job := s.workers[w].pc.job;
      Goto(s, w, if Recorded(s.txns, job.c.transId) then Writing(NoteProcessed, None) else Checked(job))
    case Select(w, cands) => Goto(s, w, Selecting(s.workers[w].pc.job, cands))
    case Try(w) => TryStep(s, w)
    case Decide(w, now) => DecideStep(s, w, now)
    case Commit(w) => CommitStep(s, w)
    case Notify(w) =>
      var Notifying(r, job) := s.workers[w].pc;
      Goto(s, w, Finished(Ended(Some(r)))).(signals := s.signals + [Signal(r, SignalFor(job))])
    case Abort(w) => Goto(s, w, Finished(Threw)).(locks := Release(s.locks, Holds(s.workers[w].pc)))
    case Crash(w) =>
      Goto(s, w, Finished(Died(SettledRow(s.workers[w].pc)))).(locks := Release(s.locks, Holds(s.workers[w].pc)))
  }

  /** `run` is a run of the system: it starts empty and each state follows by its label. */
  ghost predicate IsRun(run: seq<State>, labels: seq<Label>) {
    && |run| == |labels| + 1
    && run[0] == INITIAL
    && forall i {:trigger labels[i]} :: 0 <= i < |labels| ==>
         Enabled(run[i], labels[i]) && run[i + 1] == Next(run[i], labels[i])
  }

  ghost predicate Transition(s: State, l: Label, t: State) {
    Enabled(s, l) && Next(s, l) == t
  }

  /** Some steps lead from the empty database to `s`. */
  ghost predicate Reaches(s: State) {
    Goes(Transition, INITIAL, s)
  }

  lemma ReachInitial()
    ensures Reaches(INITIAL)
  {
    GoesHere(Transition, INITIAL);
  }

  lemma ReachNext(s: State, l: Label, t: State)
    requires Reaches(s) && Enabled(s, l) && Next(s, l) == t
    ensures Reaches(t)
  {
    GoesNext(Transition, INITIAL, s, l, t);
  }
}
