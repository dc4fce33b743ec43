/** The four tasks, the views that dispatch them and the services that create rows, in the form
    the library has them: objects loaded from a database, updated in place and saved back. */
module Store {
  import opened Models
  import opened Payloads
  import opened Settlement
  import opened Requirements

  /** A transaction instance in memory. `code` is the attribute as assigned; `save()` converts it. */
  class Transaction {
    const kind: TxnKind
    const checkoutId: Option<string>
    const conversationId: Option<string>
    const phone: string
    const amount: real
    const reference: string
    const initiatedAt: nat
    var status: Status
    var receipt: Option<string>
    var code: Code
    var resultDesc: Option<string>
    var payload: Option<Body>
    var settledAt: Option<nat>

    constructor (row: Row)
      ensures Storable() && Value() == row
    {
      kind, status, checkoutId, conversationId := row.kind, row.status, row.checkoutId, row.conversationId;
      receipt, phone, amount, reference := row.receipt, row.phone, row.amount, row.reference;
      code := if row.resultCode.Some? then Num(row.resultCode.value) else Absent;
      resultDesc, payload := row.resultDesc, row.payload;
      initiatedAt, settledAt := row.initiatedAt, row.settledAt;
    }

    predicate Storable()
      reads this
    {
      Stored(code).Some?
    }

    /** The row `save()` writes. */
    function Value(): Row
      reads this
      requires Storable()
    {
      Row(kind, status, checkoutId, conversationId, receipt, phone, amount, reference,
          Stored(code).value, resultDesc, payload, initiatedAt, settledAt)
    }
  }

  /** A callback log instance in memory. */
  class CallbackLog {
    const task: Task
    const body: Body
    var related: Option<nat>
    var processed: bool
    var error: Option<string>

    constructor (row: LogRow)
      ensures Value() == row && body == row.body
    {
      task, body, related, processed, error := row.task, row.body, row.related, row.processed, row.error;
    }

    function Value(): LogRow
      reads this
    {
      LogRow(task, body, related, processed, error)
    }
  }

  /** The reply of the STK push endpoint. A missing CheckoutRequestID raises KeyError. */
  datatype StkReply = StkReply(responseCode: Option<string>, checkoutId: Option<Option<string>>)

  /** The reply of the B2C endpoint, whose ResponseCode may be "0" or 0. */
  datatype B2cReply = B2cReply(accepted: bool, conversationId: Option<string>)

  datatype Initiation = Started(row: nat) | Refused | Failed

  function PendingStk(checkoutId: Option<string>, phone: string, amount: real, reference: string, now: nat): Row {
    Row(StkPush, Pending, checkoutId, None, None, phone, amount, reference, None, None, None, now, None)
  }

  function PendingB2c(conversationId: Option<string>, phone: string, amount: real, now: nat): Row {
    Row(B2cPayout, Pending, None, conversationId, None, phone, amount, phone, None, None, None, now, None)
  }

  /** A row that a service has just inserted: nothing is known of its outcome. */
  predicate Initiated(row: Row, kind: TxnKind, phone: string, amount: real, reference: string, now: nat) {
    && row.kind == kind && row.status == Pending
    && row.phone == phone && row.amount == amount && row.reference == reference
    && row.receipt == None && row.resultCode == None && row.resultDesc == None && row.payload == None
    && row.initiatedAt == now && row.settledAt == None
  }

  class Database {
    var txns: seq<Row>
    var logs: seq<LogRow>
    var signals: seq<Signal>

    function View(): Db
      reads this
    {
      Db(txns, logs, signals)
    }

    // ----- saving -----

    /** `txn.save()` overwrites the whole row; it raises when the result code is no integer. */
    method SaveTransaction(r: nat, txn: Transaction) returns (ok: bool)
      requires r < |txns|
      modifies this`txns
      ensures ok == txn.Storable()
      ensures txns == if ok then old(txns)[r := txn.Value()] else old(txns)
    {
      ok := txn.Storable();
      if ok {
        txns := txns[r := txn.Value()];
      }
    }

    /** `log.save(update_fields=["error"])`. */
    method SaveError(id: nat, log: CallbackLog)
      requires id < |logs|
      modifies this`logs
      ensures logs == old(logs)[id := old(logs)[id].(error := log.error)]
    {
      logs := logs[id := logs[id].(error := log.error)];
    }

    /** `log.save(update_fields=["processed"])`. */
    method SaveProcessed(id: nat, log: CallbackLog)
      requires id < |logs|
      modifies this`logs
      ensures logs == old(logs)[id := old(logs)[id].(processed := log.processed)]
    {
      logs := logs[id := logs[id].(processed := log.processed)];
    }

    /** `log.save(update_fields=["related_transaction_id", "processed"])`. */
    method SaveLink(id: nat, log: CallbackLog)
      requires id < |logs|
      modifies this`logs
      ensures logs == old(logs)[id := old(logs)[id].(related := log.related, processed := log.processed)]
    {
      logs := logs[id := logs[id].(related := log.related, processed := log.processed)];
    }

    method NoteError(id: nat, log: CallbackLog, message: string)
      requires id < |logs|
      modifies this`logs, log
      ensures logs == Reject(old(logs), id, message)
    {
      log.error := Some(message);
      SaveError(id, log);
    }

    method NoteProcessed(id: nat, log: CallbackLog)
      requires id < |logs|
      modifies this`logs, log
      ensures logs == MarkProcessed(old(logs), id)
    {
      log.processed := true;
      SaveProcessed(id, log);
    }

    /** Link the log to the settled row, save it, and, outside the atomic block, send the signal. */
    method Conclude(id: nat, log: CallbackLog, r: nat, kind: SignalKind)
      requires id < |logs|
      modifies this`logs, this`signals, log
      ensures logs == LinkTo(old(logs), id, r) && signals == old(signals) + [Signal(r, kind)]
    {
      log.related := Some(r);
      log.processed := true;
      SaveLink(id, log);
      signals := signals + [Signal(r, kind)];
    }

    /** `txn.save()`, then the log and the signal. A failing save raises: the block rolls back. */
    method Finish(id: nat, log: CallbackLog, r: nat, txn: Transaction, kind: SignalKind) returns (ending: Ending)
      requires id < |logs| && r < |txns|
      modifies this`txns, this`logs, this`signals, log
      ensures ending == if txn.Storable() then Returned else Raised
      ensures View() == if txn.Storable() then
                          Db(old(txns)[r := txn.Value()], LinkTo(old(logs), id, r), old(signals) + [Signal(r, kind)])
                        else old(View())
    {
      var saved := SaveTransaction(r, txn);
      if !saved {
        return Raised;
      }
      Conclude(id, log, r, kind);
      ending := Returned;
    }

    // ----- parsing -----

    /** `for item in items: if item.get("Name") == name: receipt = item.get("Value"); break`. */
    method ScanForReceipt(items: Option<seq<Item>>, name: string) returns (scan: Scan)
      ensures scan == ScanOptional(items, name)
    {
      if items.None? {
        return Raises;
      }
      var list := items.value;
      var i := 0;
      while i < |list|
        invariant 0 <= i <= |list|
        invariant ScanItems(list, name) == ScanItems(list[i..], name)
      {
        assert list[i..][1..] == list[i + 1..];
        if list[i].NotADict? {
          return Raises;
        }
        if list[i].name == name {
          return Found(list[i].value);
        }
        i := i + 1;
      }
      scan := Found(None);
    }

    /** The STK payload, up to the atomic block. */
    method ReadStk(stk: StkPart) returns (parsed: Parsed)
      ensures parsed == ParseStk(stk)
    {
      if stk.NoStk? {
        return Broken;
      }
      if stk.checkoutId.None? {
        return Missing("Missing CheckoutRequestID in payload");
      }
      var receipt: Option<string> := None;
      if IsZero(stk.code) {
        var scan := ScanForReceipt(stk.items, STK_RECEIPT);
        if scan.Raises? {
          return Broken;
        }
        receipt := scan.value;
      }
      parsed := Ready(Keyed(StkCallback, Checkout(stk.checkoutId.value), stk.code, stk.desc, receipt));
    }

    /** The B2C result payload, up to the atomic block. */
    method ReadB2cResult(result: ResultPart) returns (parsed: Parsed)
      ensures parsed == ParseB2cResult(result)
    {
      if result.NoResult? {
        return Broken;
      }
      if result.conversationId.None? {
        return Missing("Missing ConversationID in payload");
      }
      var receipt: Option<string> := None;
      if IsZero(result.code) {
        var scan := ScanForReceipt(result.params, B2C_RECEIPT);
        if scan.Raises? {
          return Broken;
        }
        receipt := scan.value;
        if !Truthy(receipt) && Truthy(result.transactionId) {
          receipt := result.transactionId;
        }
      }
      parsed := Ready(Keyed(B2cResult, Conversation(result.conversationId.value), result.code, result.desc, receipt));
    }

    // ----- the tasks -----

    /** The atomic block of the STK task and the signal after it. */
    method SettleStk(id: nat, log: CallbackLog, job: Job, now: nat) returns (ending: Ending)
      requires id < |logs| && job.Keyed? && job.task == StkCallback
      modifies this, log
      ensures Ran(View(), ending) == RunKeyed(old(View()), id, job, log.body, now)
    {
      var Keyed(_, key, code, desc, receipt) := job;
      var found := Find(txns, key);
      if found.None? {
        NoteError(id, log, "No transaction found for checkout_request_id=" + key.id);
        return Returned;
      }
      var r := found.value;
      var txn := new Transaction(txns[r]);
      if Terminal(txn.status) {
        NoteProcessed(id, log);
        return Returned;
      }
      txn.status := if IsZero(code) then Success else Status.Failed;
      txn.code := code;
      txn.resultDesc := desc;
      txn.settledAt := Some(now);
      txn.payload := Some(log.body);
      if Truthy(receipt) {
        txn.receipt := receipt;
      }
      ending := Finish(id, log, r, txn, if IsZero(code) then PaymentConfirmed else PaymentFailed(code, desc));
    }

    method ProcessStkCallback(id: nat, now: nat) returns (ending: Ending)
      modifies this
      ensures Ran(View(), ending) == RunTask(old(View()), StkCallback, id, now)
      ensures Required(StkCallback, old(View()), id, now, Ran(View(), ending))
    {
      StkTaskMeets(View(), id, now);
      if id >= |logs| {
        return Returned;
      }
      var log := new CallbackLog(logs[id]);
      var parsed := ReadStk(log.body.stk);
      if parsed.Broken? {
        return Raised;
      }
      if parsed.Missing? {
        NoteError(id, log, parsed.message);
        return Returned;
      }
      ending := SettleStk(id, log, parsed.job, now);
    }

    /** The atomic block of the B2C result task and the signal after it. */
    method SettleB2cResult(id: nat, log: CallbackLog, job: Job, now: nat) returns (ending: Ending)
      requires id < |logs| && job.Keyed? && job.task == B2cResult
      modifies this, log
      ensures Ran(View(), ending) == RunKeyed(old(View()), id, job, log.body, now)
    {
      var Keyed(_, key, code, desc, receipt) := job;
      var isSuccess := IsZero(code);
      var found := Find(txns, key);
      if found.None? {
        NoteError(id, log, "No transaction found for conversation_id=" + key.id);
        return Returned;
      }
      var r := found.value;
      var txn := new Transaction(txns[r]);
      if Terminal(txn.status) {
        NoteProcessed(id, log);
        return Returned;
      }
      txn.status := if isSuccess then Success else Status.Failed;
      txn.code := code;
      txn.resultDesc := desc;
      txn.settledAt := Some(now);
      txn.payload := Some(log.body);
      if Truthy(receipt) {
        txn.receipt := receipt;
      }
      ending := Finish(id, log, r, txn, if isSuccess then PayoutCompleted else PayoutFailed(code, desc));
    }

    method ProcessB2cResult(id: nat, now: nat) returns (ending: Ending)
      modifies this
      ensures Ran(View(), ending) == RunTask(old(View()), B2cResult, id, now)
      ensures Required(B2cResult, old(View()), id, now, Ran(View(), ending))
    {
      B2cTaskMeets(View(), id, now);
      if id >= |logs| {
        return Returned;
      }
      var log := new CallbackLog(logs[id]);
      var parsed := ReadB2cResult(log.body.result);
      if parsed.Broken? {
        return Raised;
      }
      if parsed.Missing? {
        NoteError(id, log, parsed.message);
        return Returned;
      }
      ending := SettleB2cResult(id, log, parsed.job, now);
    }

    /** The atomic block of the B2C timeout task and the signal after it. */
    method SettleB2cTimeout(id: nat, log: CallbackLog, key: Key, now: nat) returns (ending: Ending)
      requires id < |logs|
      modifies this, log
      ensures var job := Keyed(B2cTimeout, key, Absent, Some("B2C request timed out"), None);
        Ran(View(), ending) == RunKeyed(old(View()), id, job, log.body, now)
    {
      var found := Find(txns, key);
      if found.None? {
        NoteError(id, log, "No transaction for conversation_id=" + key.id);
        return Returned;
      }
      var r := found.value;
      var txn := new Transaction(txns[r]);
      if Terminal(txn.status) {
        NoteProcessed(id, log);
        return Returned;
      }
      txn.status := TimedOut;
      txn.resultDesc := Some("B2C request timed out");
      txn.settledAt := Some(now);
      txn.payload := Some(log.body);
      ending := Finish(id, log, r, txn, PayoutFailed(Absent, Some("Timeout")));
    }

    method ProcessB2cTimeout(id: nat, now: nat) returns (ending: Ending)
      modifies this
      ensures Ran(View(), ending) == RunTask(old(View()), B2cTimeout, id, now)
      ensures Required(B2cTimeout, old(View()), id, now, Ran(View(), ending))
    {
      TimeoutTaskMeets(View(), id, now);
      if id >= |logs| {
        return Returned;
      }
      var log := new CallbackLog(logs[id]);
      var result := log.body.result;
      if result.NoResult? {
        return Raised;
      }
      if result.conversationId.None? {
        NoteError(id, log, "Missing ConversationID in timeout payload");
        return Returned;
      }
      ending := SettleB2cTimeout(id, log, Conversation(result.conversationId.value), now);
    }

    /** The atomic block of the C2B task and the signal after it. */
    method SettleOrCreate(id: nat, log: CallbackLog, now: nat)
      requires id < |logs|
      modifies this, log
      ensures Ran(View(), Returned) == RunConfirm(old(View()), id, log.body.c2b, log.body, now)
    {
      var c := log.body.c2b;
      if Recorded(txns, c.transId) {
        NoteProcessed(id, log);
        return;
      }
      var existing := Newest(txns, c.billRef);
      var r: nat;
      if existing.Some? {
        r := existing.value;
        var txn := new Transaction(txns[r]);
        txn.status := Success;
        txn.receipt := c.transId;
        txn.settledAt := Some(now);
        txn.payload := Some(log.body);
        var saved := SaveTransaction(r, txn);
      } else {
        r := |txns|;
        txns := txns + [NewC2b(c, log.body, now)];
      }
      Conclude(id, log, r, PaymentConfirmed);
    }

    method ProcessC2bConfirmation(id: nat, now: nat) returns (ending: Ending)
      modifies this
      ensures Ran(View(), ending) == RunTask(old(View()), C2bConfirmation, id, now)
      ensures Required(C2bConfirmation, old(View()), id, now, Ran(View(), ending))
    {
      C2bTaskMeets(View(), id, now);
      if id >= |logs| {
        return Returned;
      }
      var log := new CallbackLog(logs[id]);
      SettleOrCreate(id, log, now);
      ending := Returned;
    }

    // ----- the views -----

    /** Log the body, then dispatch. The tasks are plain functions, so with `useCelery` the
        `.delay` attribute is missing: the exception is swallowed and the log stays unprocessed. */
    method Receive(task: Task, data: Option<Body>, useCelery: bool, now: nat)
      modifies this
      ensures var body := if data.Some? then data.value else EMPTY_DICT;
              var logged := old(View()).(logs := old(logs) + [LogRow(task, body, None, false, None)]);
              View() == if useCelery then logged else RunTask(logged, task, |old(logs)|, now).db
      ensures var body := if data.Some? then data.value else EMPTY_DICT;
              var logged := old(View()).(logs := old(logs) + [LogRow(task, body, None, false, None)]);
              !useCelery ==> exists ending :: Required(task, logged, |old(logs)|, now, Ran(View(), ending))
    {
      var body := if data.Some? then data.value else EMPTY_DICT;
      var id := |logs|;
      logs := logs + [LogRow(task, body, None, false, None)];
      if useCelery {
        return;
      }
      var ending: Ending;
      match task {
        case StkCallback => ending := ProcessStkCallback(id, now);
        case B2cResult => ending := ProcessB2cResult(id, now);
        case B2cTimeout => ending := ProcessB2cTimeout(id, now);
        case C2bConfirmation => ending := ProcessC2bConfirmation(id, now);
      }
    }

    // ----- the services -----

    /** `objects.create` under the unique constraints; None is an IntegrityError. */
    method Insert(row: Row) returns (id: Option<nat>)
      modifies this`txns
      ensures id.Some? <==> Insertable(old(txns), row)
      ensures id.Some? ==> id.value == |old(txns)| && txns == old(txns) + [row]
      ensures id.None? ==> txns == old(txns)
      ensures TableOk(old(txns)) && RowOk(row) ==> TableOk(txns)
    {
      if Insertable(txns, row) {
        if TableOk(txns) && RowOk(row) {
          InsertKeepsTableOk(txns, row);
        }
        id := Some(|txns|);
        txns := txns + [row];
      } else {
        id := None;
      }
    }

    /** `STKPushService.initiate` after validation: a PENDING row appears exactly when Daraja
        accepted, named a checkout id, and that id is new. */
    method Initiate(reply: StkReply, phone: string, amount: real, reference: string, now: nat) returns (res: Initiation)
      modifies this`txns
      ensures res.Refused? <==> reply.responseCode != Some("0")
      ensures res.Started? <==>
                && reply.responseCode == Some("0") && reply.checkoutId.Some?
                && (reply.checkoutId.value.Some? ==>
                      forall i :: 0 <= i < |old(txns)| ==> old(txns)[i].checkoutId != reply.checkoutId.value)
      ensures res.Started? ==>
                && res.row == |old(txns)| && |txns| == |old(txns)| + 1 && txns[..|old(txns)|] == old(txns)
                && Initiated(txns[res.row], StkPush, phone, amount, reference, now)
                && txns[res.row].checkoutId == reply.checkoutId.value && txns[res.row].conversationId == None
      ensures !res.Started? ==> txns == old(txns)
      ensures TableOk(old(txns)) ==> TableOk(txns)
    {
      if reply.responseCode != Some("0") {
        return Refused;
      }
      if reply.checkoutId.None? {
        return Initiation.Failed;
      }
      var id := Insert(PendingStk(reply.checkoutId.value, phone, amount, reference, now));
      res := if id.Some? then Started(id.value) else Initiation.Failed;
    }

    /** `B2CService.send_payment` after validation; the phone is the reference too. */
    method SendPayment(reply: B2cReply, phone: string, amount: real, now: nat) returns (res: Initiation)
      modifies this`txns
      ensures res.Refused? <==> !reply.accepted
      ensures res.Started? <==>
                && reply.accepted
                && (reply.conversationId.Some? ==>
                      forall i :: 0 <= i < |old(txns)| ==> old(txns)[i].conversationId != reply.conversationId)
      ensures res.Started? ==>
                && res.row == |old(txns)| && |txns| == |old(txns)| + 1 && txns[..|old(txns)|] == old(txns)
                && Initiated(txns[res.row], B2cPayout, phone, amount, phone, now)
                && txns[res.row].checkoutId == None && txns[res.row].conversationId == reply.conversationId
      ensures !res.Started? ==> txns == old(txns)
      ensures TableOk(old(txns)) ==> TableOk(txns)
    {
      if !reply.accepted {
        return Refused;
      }
      var id := Insert(PendingB2c(reply.conversationId, phone, amount, now));
      res := if id.Some? then Started(id.value) else Initiation.Failed;
    }
  }
}
