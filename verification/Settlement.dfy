/** What settling means, one task at a time: the sequential semantics of django_mpesa/tasks.py. */
module Settlement {
  import opened Models
  import opened Payloads

  // ----- the values a settlement writes -----

  /** The status a keyed task settles to, from its locals. */
  function StatusFor(job: Job): Status
    requires job.Keyed?
  {
    if job.task == B2cTimeout then TimedOut
    else if IsZero(job.code) then Success
    else Failed
  }

  /** The signal a task sends, again from its locals: the row is not consulted. */
  function SignalFor(job: Job): SignalKind {
    match job
    case Confirm(_) => PaymentConfirmed
    case Keyed(task, _, code, desc, _) =>
      if task == B2cTimeout then PayoutFailed(Absent, Some("Timeout"))
      else if task == StkCallback then (if IsZero(code) then PaymentConfirmed else PaymentFailed(code, desc))
      else if IsZero(code) then PayoutCompleted
      else PayoutFailed(code, desc)
  }

  /** What the integer column stores for a ResultCode; None when int() raises on it. */
  function Stored(code: Code): Option<Option<int>> {
    match code
    case Absent => Some(None)
    case Num(n) => Some(Some(n))
    case Flag(b) => Some(Some(if b then 1 else 0))
    case Text(_, parse) => if parse.Some? then Some(parse) else None
    case Structure => None
  }

  /** Whether `txn.save()` can write the job's result code. */
  predicate Storable(job: Job)
    requires job.Keyed?
  {
    job.task == B2cTimeout || Stored(job.code).Some?
  }

  function Settle(row: Row, job: Job, body: Body, now: nat): Row
    requires job.Keyed? && Storable(job)
  {
    row.(status := StatusFor(job),
         resultCode := if job.task == B2cTimeout then row.resultCode else Stored(job.code).value,
         resultDesc := job.desc,
         settledAt := Some(now),
         payload := Some(body),
         receipt := if Truthy(job.receipt) then job.receipt else row.receipt)
  }

  function SettleC2b(row: Row, c: C2bPart, body: Body, now: nat): Row {
    row.(status := Success, receipt := c.transId, settledAt := Some(now), payload := Some(body))
  }

  function NewC2b(c: C2bPart, body: Body, now: nat): Row {
    Row(C2bPayment, Success, None, None, c.transId,
        if Truthy(c.msisdn) then c.msisdn.value else "000000000000",
        if c.amount.Some? then c.amount.value else 0.0,
        if Truthy(c.billRef) then c.billRef.value else "UNKNOWN",
        None, None, Some(body), now, Some(now))
  }

  // ----- the queries -----

  /** Has this receipt been recorded already? An empty TransID is never looked up. */
  predicate Recorded(txns: seq<Row>, transId: Option<string>) {
    Truthy(transId) && exists i :: 0 <= i < |txns| && txns[i].receipt == transId
  }

  predicate Awaits(row: Row, ref: Option<string>) {
    row.kind == C2bPayment && row.status == Pending && Some(row.reference) == ref
  }

  /** `.first()` under the model's ordering: the most recently initiated row awaiting `ref`. */
  function Newest(txns: seq<Row>, ref: Option<string>): (found: Option<nat>)
    ensures found.Some? ==> found.value < |txns| && Awaits(txns[found.value], ref)
    ensures found.Some? ==>
      forall i :: 0 <= i < |txns| && Awaits(txns[i], ref) ==> txns[i].initiatedAt <= txns[found.value].initiatedAt
    ensures found.None? ==> forall i :: 0 <= i < |txns| ==> !Awaits(txns[i], ref)
  {
    if |txns| == 0 then None
    else
      var n := |txns| - 1;
      var earlier := Newest(txns[..n], ref);
      assert forall i :: 0 <= i < n ==> txns[..n][i] == txns[i];
      if Awaits(txns[n], ref) && (earlier.None? || txns[earlier.value].initiatedAt <= txns[n].initiatedAt) then Some(n)
      else earlier
  }

  // ----- the log updates -----

  function Reject(logs: seq<LogRow>, log: nat, message: string): seq<LogRow>
    requires log < |logs|
  {
    logs[log := logs[log].(error := Some(message))]
  }

  function MarkProcessed(logs: seq<LogRow>, log: nat): seq<LogRow>
    requires log < |logs|
  {
    logs[log := logs[log].(processed := true)]
  }

  function LinkTo(logs: seq<LogRow>, log: nat, row: nat): seq<LogRow>
    requires log < |logs|
  {
    logs[log := logs[log].(related := Some(row), processed := true)]
  }

  function UnmatchedMessage(task: Task, key: Key): string {
    match task
    case StkCallback => "No transaction found for checkout_request_id=" + key.id
    case B2cResult => "No transaction found for conversation_id=" + key.id
    case _ => "No transaction for conversation_id=" + key.id
  }

  // ----- one task, start to finish, with nobody else running -----

  datatype Db = Db(txns: seq<Row>, logs: seq<LogRow>, signals: seq<Signal>)

  datatype Ending = Returned | Raised

  datatype Ran = Ran(db: Db, ending: Ending)

  function RunKeyed(db: Db, log: nat, job: Job, body: Body, now: nat): Ran
    requires log < |db.logs| && job.Keyed?
  {
    match Find(db.txns, job.key)
    case None => Ran(db.(logs := Reject(db.logs, log, UnmatchedMessage(job.task, job.key))), Returned)
    case Some(r) =>
      if Terminal(db.txns[r].status) then Ran(db.(logs := MarkProcessed(db.logs, log)), Returned)
      else if !Storable(job) then Ran(db, Raised)
      else Ran(Db(db.txns[r := Settle(db.txns[r], job, body, now)],
                  LinkTo(db.logs, log, r),
                  db.signals + [Signal(r, SignalFor(job))]), Returned)
  }

  /** The C2B effect on the transaction table alone. */
  function ConfirmTxns(txns: seq<Row>, c: C2bPart, body: Body, now: nat): seq<Row> {
    if Recorded(txns, c.transId) then txns
    else match Newest(txns, c.billRef)
      case Some(r) => txns[r := SettleC2b(txns[r], c, body, now)]
      case None => txns + [NewC2b(c, body, now)]
  }

  function RunConfirm(db: Db, log: nat, c: C2bPart, body: Body, now: nat): Ran
    requires log < |db.logs|
  {
    if Recorded(db.txns, c.transId) then Ran(db.(logs := MarkProcessed(db.logs, log)), Returned)
    else
      var newest := Newest(db.txns, c.billRef);
      var r := if newest.Some? then newest.value else |db.txns|;
      Ran(Db(ConfirmTxns(db.txns, c, body, now), LinkTo(db.logs, log, r), db.signals + [Signal(r, PaymentConfirmed)]),
          Returned)
  }

  function RunTask(db: Db, task: Task, log: nat, now: nat): Ran {
    if log >= |db.logs| then Ran(db, Returned)
    else
      var body := db.logs[log].body;
      match Parse(task, body)
      case Broken => Ran(db, Raised)
      case Missing(message) => Ran(db.(logs := Reject(db.logs, log, message)), Returned)
      case Ready(job) =>
        if job.Keyed? then RunKeyed(db, log, job, body, now) else RunConfirm(db, log, job.c, body, now)
  }

  // ----- the transaction table as a fold of events -----

  datatype Event =
    | Created(row: Row)
    | Delivered(log: nat, job: Job, body: Body, now: nat)
    | Confirmed(log: nat, id: nat, row: Row)

  /** First delivery wins: a delivery settles the row of its key unless that row is missing,
      already terminal, or its result code cannot be stored. */
  function Deliver(txns: seq<Row>, job: Job, body: Body, now: nat): (out: seq<Row>)
    requires job.Keyed?
    ensures |out| == |txns|
  {
    match Find(txns, job.key)
    case None => txns
    case Some(r) =>
      if Terminal(txns[r].status) || !Storable(job) then txns
      else txns[r := Settle(txns[r], job, body, now)]
  }

  function Apply(txns: seq<Row>, event: Event): seq<Row> {
    match event
    case Created(row) => txns + [row]
    case Delivered(_, job, body, now) => if job.Keyed? then Deliver(txns, job, body, now) else txns
    case Confirmed(_, id, row) => if id < |txns| then txns[id := row] else txns + [row]
  }

  function Replay(events: seq<Event>): seq<Row> {
    if |events| == 0 then [] else Apply(Replay(events[..|events| - 1]), events[|events| - 1])
  }

  lemma ReplaySnoc(events: seq<Event>, event: Event)
    ensures Replay(events + [event]) == Apply(Replay(events), event)
  {
    assert (events + [event])[..|events|] == events;
  }

  // ----- well-formed tables -----

  /** One row: its key belongs to its kind, `settledAt` is set exactly on terminal rows, a
      receipt appears only on SUCCESS, and a keyed SUCCESS stores result code 0. */
  predicate RowOk(row: Row) {
    && (row.checkoutId.Some? ==> row.kind == StkPush)
    && (row.conversationId.Some? ==> row.kind == B2cPayout)
    && (row.settledAt.Some? <==> Terminal(row.status))
    && (row.receipt.Some? ==> row.status == Success)
    && (row.status == Success && row.kind != C2bPayment ==> row.resultCode == Some(0))
    && row.status != Processing && row.status != Reversed
    && (row.status == Pending ==> row.resultCode.None? && row.payload.None?)
  }

  ghost predicate TableOk(txns: seq<Row>) {
    UniqueKeys(txns) && forall i :: 0 <= i < |txns| ==> RowOk(txns[i])
  }

  /** A freshly initiated row, as the services insert it. */
  predicate Fresh(row: Row) {
    RowOk(row) && row.status == Pending
  }

  predicate Insertable(txns: seq<Row>, row: Row) {
    && (row.checkoutId.Some? ==> Find(txns, Checkout(row.checkoutId.value)).None?)
    && (row.conversationId.Some? ==> Find(txns, Conversation(row.conversationId.value)).None?)
  }

  /** A signal agrees with a row: success signals with SUCCESS, the others with the matching failure. */
  predicate Truthful(kind: SignalKind, row: Row) {
    match kind
    case PaymentConfirmed => row.status == Success && row.kind != B2cPayout
    case PaymentFailed(code, desc) =>
      row.status == Failed && row.kind == StkPush && row.resultDesc == desc && Stored(code) == Some(row.resultCode)
    case PayoutCompleted => row.status == Success && row.kind == B2cPayout
    case PayoutFailed(code, desc) =>
      && row.kind == B2cPayout
      && ((row.status == Failed && row.resultDesc == desc && Stored(code) == Some(row.resultCode))
          || (row.status == TimedOut && code == Absent && desc == Some("Timeout")))
  }

  lemma SettleKeepsRowOk(row: Row, job: Job, body: Body, now: nat)
    requires RowOk(row) && Sound(job) && job.Keyed? && Storable(job) && Matches(row, job.key) && !Terminal(row.status)
    ensures RowOk(Settle(row, job, body, now)) && Terminal(Settle(row, job, body, now).status)
    ensures Truthful(SignalFor(job), Settle(row, job, body, now))
  {
  }

  lemma SettleC2bKeepsRowOk(row: Row, c: C2bPart, body: Body, now: nat)
    requires RowOk(row) && Awaits(row, c.billRef)
    ensures RowOk(SettleC2b(row, c, body, now))
    ensures Truthful(PaymentConfirmed, SettleC2b(row, c, body, now))
  {
  }

  /** Appending a row that passes the unique constraints. */
  lemma InsertKeepsTableOk(txns: seq<Row>, row: Row)
    requires TableOk(txns) && RowOk(row) && Insertable(txns, row)
    ensures TableOk(txns + [row])
  {
    var out := txns + [row];
    forall i, j, key: Key |
      0 <= i < |out| && 0 <= j < |out| && Matches(out[i], key) && Matches(out[j], key)
      ensures i == j
    {
      if i == |txns| || j == |txns| {
        assert Matches(row, key);
        assert Find(txns, key).None?;
      }
    }
  }

  /** Overwriting a row with one of the same keys. */
  lemma UpdateKeepsTableOk(txns: seq<Row>, r: nat, row: Row)
    requires TableOk(txns) && r < |txns| && RowOk(row)
    requires row.checkoutId == txns[r].checkoutId && row.conversationId == txns[r].conversationId
    ensures TableOk(txns[r := row])
  {
    var out := txns[r := row];
    forall i, j, key: Key |
      0 <= i < |out| && 0 <= j < |out| && Matches(out[i], key) && Matches(out[j], key)
      ensures i == j
    {
      assert Matches(txns[i], key) && Matches(txns[j], key);
    }
  }
}
