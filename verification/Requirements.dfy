/** What each callback has to do to the database, told by the fields of its body alone. Nothing here
    uses the functions that the tasks are specified with. */
module Requirements {
  import opened Models
  import opened Payloads
  import opened Settlement

  // ----- fields of a body -----

  predicate Empty(text: Option<string>) {
    text == None || text == Some("")
  }

  predicate ZeroCode(code: Code) {
    code == Num(0) || code == Flag(false)
  }

  /** An integer column can hold the code. */
  predicate FitsColumn(code: Code) {
    !code.Structure? && (code.Text? ==> code.parse.Some?)
  }

  /** The integer column holds the code. */
  predicate HoldsCode(column: Option<int>, code: Code) {
    match code
    case Absent => column == None
    case Num(n) => column == Some(n)
    case Flag(b) => column == Some(if b then 1 else 0)
    case Text(_, parse) => parse.Some? && column == parse
    case Structure => false
  }

  /** Entry `i` is the first of this name, and only dicts come before it. */
  predicate FirstEntry(items: seq<Item>, name: string, i: nat) {
    && i < |items| && items[i].Entry? && items[i].name == name
    && forall j :: 0 <= j < i ==> items[j].Entry? && items[j].name != name
  }

  /** Looking for the name raises: there is no list, or something that is no dict comes first. */
  predicate Unreadable(items: Option<seq<Item>>, name: string) {
    items.None? ||
    exists j :: 0 <= j < |items.value| && items.value[j].NotADict?
                && forall h :: 0 <= h < j ==> items.value[h].Entry? && items.value[h].name != name
  }

  /** The receipt column: the first entry of this name decides if it is not empty, else the second
      choice if that is not empty, else the column keeps what it had. */
  predicate ReceiptFrom(items: seq<Item>, name: string, second: Option<string>,
                        was: Option<string>, now: Option<string>) {
    && (forall i :: 0 <= i < |items| && FirstEntry(items, name, i) && !Empty(items[i].value) ==> now == items[i].value)
    && ((forall i :: 0 <= i < |items| && FirstEntry(items, name, i) ==> Empty(items[i].value)) ==>
          now == if Empty(second) then was else second)
  }

  // ----- what becomes of a row -----

  /** A settlement never touches these columns. */
  predicate SamePayment(was: Row, now: Row) {
    && now.kind == was.kind && now.checkoutId == was.checkoutId && now.conversationId == was.conversationId
    && now.phone == was.phone && now.amount == was.amount && now.reference == was.reference
    && now.initiatedAt == was.initiatedAt
  }

  predicate StkSettles(was: Row, body: Body, time: nat, now: Row) {
    body.stk.Stk? &&
    var Stk(_, code, desc, items) := body.stk;
    && SamePayment(was, now)
    && now.status == (if ZeroCode(code) then Status.Success else Status.Failed)
    && HoldsCode(now.resultCode, code) && now.resultDesc == desc
    && now.settledAt == Some(time) && now.payload == Some(body)
    && (if ZeroCode(code) then
          items.Some? && ReceiptFrom(items.value, "MpesaReceiptNumber", None, was.receipt, now.receipt)
        else now.receipt == was.receipt)
  }

  predicate B2cSettles(was: Row, body: Body, time: nat, now: Row) {
    body.result.Outcome? &&
    var Outcome(_, code, desc, transactionId, params) := body.result;
    && SamePayment(was, now)
    && now.status == (if ZeroCode(code) then Status.Success else Status.Failed)
    && HoldsCode(now.resultCode, code) && now.resultDesc == desc
    && now.settledAt == Some(time) && now.payload == Some(body)
    && (if ZeroCode(code) then
          params.Some? && ReceiptFrom(params.value, "TransactionReceipt", transactionId, was.receipt, now.receipt)
        else now.receipt == was.receipt)
  }

  predicate TimeoutSettles(was: Row, body: Body, time: nat, now: Row) {
    && SamePayment(was, now) && now.status == Status.TimedOut
    && now.resultCode == was.resultCode && now.resultDesc == Some("B2C request timed out")
    && now.settledAt == Some(time) && now.payload == Some(body) && now.receipt == was.receipt
  }

  predicate C2bSettles(was: Row, body: Body, time: nat, now: Row) {
    && SamePayment(was, now) && now.status == Status.Success
    && now.resultCode == was.resultCode && now.resultDesc == was.resultDesc
    && now.settledAt == Some(time) && now.payload == Some(body) && now.receipt == body.c2b.transId
  }

  /** A row created for a confirmation that nothing was waiting for. */
  predicate C2bCreates(body: Body, time: nat, now: Row) {
    var C2bPart(transId, amount, msisdn, billRef) := body.c2b;
    && now.kind == C2bPayment && now.status == Status.Success
    && now.checkoutId == None && now.conversationId == None && now.receipt == transId
    && now.phone == (if Empty(msisdn) then "000000000000" else msisdn.value)
    && now.reference == (if Empty(billRef) then "UNKNOWN" else billRef.value)
    && now.amount == (if amount.Some? then amount.value else 0.0)
    && now.resultCode == None && now.resultDesc == None && now.payload == Some(body)
    && now.initiatedAt == time && now.settledAt == Some(time)
  }

  // ----- what a task does -----

  predicate Final(status: Status) {
    status == Status.Success || status == Status.Failed || status == Status.TimedOut || status == Status.Reversed
  }

  /** The task returns and leaves an error in its log. */
  predicate Rejects(db: Db, log: nat, message: string, ran: Ran)
    requires log < |db.logs|
  {
    ran == Ran(db.(logs := db.logs[log := db.logs[log].(error := Some(message))]), Returned)
  }

  /** The task returns and marks its log. */
  predicate Skips(db: Db, log: nat, ran: Ran)
    requires log < |db.logs|
  {
    ran == Ran(db.(logs := db.logs[log := db.logs[log].(processed := true)]), Returned)
  }

  /** The task returns; row `r` is in the table, linked by the log, and this signal is out. */
  predicate Concludes(db: Db, log: nat, r: nat, txns: seq<Row>, kind: SignalKind, ran: Ran)
    requires log < |db.logs|
  {
    ran == Ran(Db(txns, db.logs[log := db.logs[log].(related := Some(r), processed := true)],
                  db.signals + [Signal(r, kind)]), Returned)
  }

  /** Row `r` of the table that the task leaves is `now`, everything else is as before. */
  predicate Overwrites(db: Db, r: nat, ran: Ran) {
    r < |db.txns| && |ran.db.txns| == |db.txns| && ran.db.txns == db.txns[r := ran.db.txns[r]]
  }

  /** What an STK callback for row `r` has to do. */
  predicate StkAt(db: Db, log: nat, r: nat, time: nat, ran: Ran)
    requires log < |db.logs| && r < |db.txns| && db.logs[log].body.stk.Stk?
  {
    var Stk(_, code, desc, _) := db.logs[log].body.stk;
    if Final(db.txns[r].status) then Skips(db, log, ran)
    else if !FitsColumn(code) then ran == Ran(db, Raised)
    else
      && Overwrites(db, r, ran) && StkSettles(db.txns[r], db.logs[log].body, time, ran.db.txns[r])
      && Concludes(db, log, r, ran.db.txns, if ZeroCode(code) then PaymentConfirmed else PaymentFailed(code, desc), ran)
  }

  predicate StkRequires(db: Db, log: nat, time: nat, ran: Ran) {
    if log >= |db.logs| then ran == Ran(db, Returned)
    else
      match db.logs[log].body.stk
      case NoStk => ran == Ran(db, Raised)
      case Stk(None, _, _, _) => Rejects(db, log, "Missing CheckoutRequestID in payload", ran)
      case Stk(Some(id), code, _, items) =>
        if ZeroCode(code) && Unreadable(items, "MpesaReceiptNumber") then ran == Ran(db, Raised)
        else if forall r :: 0 <= r < |db.txns| ==> db.txns[r].checkoutId != Some(id) then
          Rejects(db, log, "No transaction found for checkout_request_id=" + id, ran)
        else exists r :: 0 <= r < |db.txns| && db.txns[r].checkoutId == Some(id) && StkAt(db, log, r, time, ran)
  }

  /** What a B2C result for row `r` has to do. */
  predicate B2cAt(db: Db, log: nat, r: nat, time: nat, ran: Ran)
    requires log < |db.logs| && r < |db.txns| && db.logs[log].body.result.Outcome?
  {
    var Outcome(_, code, desc, _, _) := db.logs[log].body.result;
    if Final(db.txns[r].status) then Skips(db, log, ran)
    else if !FitsColumn(code) then ran == Ran(db, Raised)
    else
      && Overwrites(db, r, ran) && B2cSettles(db.txns[r], db.logs[log].body, time, ran.db.txns[r])
      && Concludes(db, log, r, ran.db.txns, if ZeroCode(code) then PayoutCompleted else PayoutFailed(code, desc), ran)
  }

  predicate B2cRequires(db: Db, log: nat, time: nat, ran: Ran) {
    if log >= |db.logs| then ran == Ran(db, Returned)
    else
      match db.logs[log].body.result
      case NoResult => ran == Ran(db, Raised)
      case Outcome(None, _, _, _, _) => Rejects(db, log, "Missing ConversationID in payload", ran)
      case Outcome(Some(id), code, _, _, params) =>
        if ZeroCode(code) && Unreadable(params, "TransactionReceipt") then ran == Ran(db, Raised)
        else if forall r :: 0 <= r < |db.txns| ==> db.txns[r].conversationId != Some(id) then
          Rejects(db, log, "No transaction found for conversation_id=" + id, ran)
        else exists r :: 0 <= r < |db.txns| && db.txns[r].conversationId == Some(id) && B2cAt(db, log, r, time, ran)
  }

  /** What a B2C timeout for row `r` has to do. */
  predicate TimeoutAt(db: Db, log: nat, r: nat, time: nat, ran: Ran)
    requires log < |db.logs| && r < |db.txns|
  {
    if Final(db.txns[r].status) then Skips(db, log, ran)
    else
      && Overwrites(db, r, ran) && TimeoutSettles(db.txns[r], db.logs[log].body, time, ran.db.txns[r])
      && Concludes(db, log, r, ran.db.txns, PayoutFailed(Absent, Some("Timeout")), ran)
  }

  predicate TimeoutRequires(db: Db, log: nat, time: nat, ran: Ran) {
    if log >= |db.logs| then ran == Ran(db, Returned)
    else
      match db.logs[log].body.result
      case NoResult => ran == Ran(db, Raised)
      case Outcome(None, _, _, _, _) => Rejects(db, log, "Missing ConversationID in timeout payload", ran)
      case Outcome(Some(id), _, _, _, _) =>
        if forall r :: 0 <= r < |db.txns| ==> db.txns[r].conversationId != Some(id) then
          Rejects(db, log, "No transaction for conversation_id=" + id, ran)
        else exists r :: 0 <= r < |db.txns| && db.txns[r].conversationId == Some(id) && TimeoutAt(db, log, r, time, ran)
  }

  /** The row waits for a confirmation with this reference. */
  predicate Waits(row: Row, billRef: Option<string>) {
    row.kind == C2bPayment && row.status == Status.Pending && billRef == Some(row.reference)
  }

  /** Row `r` waits, and none that waits was initiated later. */
  predicate NewestWaiting(txns: seq<Row>, billRef: Option<string>, r: nat) {
    && r < |txns| && Waits(txns[r], billRef)
    && forall i :: 0 <= i < |txns| && Waits(txns[i], billRef) ==> txns[i].initiatedAt <= txns[r].initiatedAt
  }

  predicate C2bAt(db: Db, log: nat, r: nat, time: nat, ran: Ran)
    requires log < |db.logs| && r < |db.txns|
  {
    && Overwrites(db, r, ran) && C2bSettles(db.txns[r], db.logs[log].body, time, ran.db.txns[r])
    && Concludes(db, log, r, ran.db.txns, PaymentConfirmed, ran)
  }

  predicate C2bBeyond(db: Db, log: nat, time: nat, ran: Ran)
    requires log < |db.logs|
  {
    && |ran.db.txns| == |db.txns| + 1 && ran.db.txns[..|db.txns|] == db.txns
    && C2bCreates(db.logs[log].body, time, ran.db.txns[|db.txns|])
    && Concludes(db, log, |db.txns|, ran.db.txns, PaymentConfirmed, ran)
  }

  predicate C2bRequires(db: Db, log: nat, time: nat, ran: Ran) {
    if log >= |db.logs| then ran == Ran(db, Returned)
    else
      var C2bPart(transId, _, _, billRef) := db.logs[log].body.c2b;
      if !Empty(transId) && exists i :: 0 <= i < |db.txns| && db.txns[i].receipt == transId then Skips(db, log, ran)
      else if forall r :: 0 <= r < |db.txns| ==> !Waits(db.txns[r], billRef) then C2bBeyond(db, log, time, ran)
      else exists r :: 0 <= r < |db.txns| && NewestWaiting(db.txns, billRef, r) && C2bAt(db, log, r, time, ran)
  }

  predicate Required(task: Task, db: Db, log: nat, time: nat, ran: Ran) {
    match task
    case StkCallback => StkRequires(db, log, time, ran)
    case B2cResult => B2cRequires(db, log, time, ran)
    case B2cTimeout => TimeoutRequires(db, log, time, ran)
    case C2bConfirmation => C2bRequires(db, log, time, ran)
  }

  // ----- the tasks meet the requirements -----

  /** The scan raises exactly on unreadable lists, and finds the value of the first entry. */
  lemma {:induction false} ScanTellsEntries(items: seq<Item>, name: string)
    ensures ScanItems(items, name).Raises? <==> Unreadable(Some(items), name)
    ensures ScanItems(items, name).Found? ==>
              && (forall i :: 0 <= i < |items| && FirstEntry(items, name, i) ==>
                    ScanItems(items, name).value == items[i].value)
              && ((forall i :: 0 <= i < |items| ==> !FirstEntry(items, name, i)) ==>
                    ScanItems(items, name).value == None)
  {
    if i :| 0 <= i < |items| && items[i].Entry? && items[i].name == name &&
            forall j :: 0 <= j < i ==> items[j].Entry? && items[j].name != name {
      ScanFindsTheFirst(items, name, i);
      assert FirstEntry(items, name, i);
    } else if j :| 0 <= j < |items| && items[j].NotADict? &&
                   forall h :: 0 <= h < j ==> items[h].Entry? && items[h].name != name {
      ScanRaisesAt(items, name, j);
    } else {
      NothingInTheWay(items, name, |items|);
      ScanWithoutTheName(items, name);
    }
  }

  lemma {:induction false} ScanRaisesAt(items: seq<Item>, name: string, j: nat)
    requires j < |items| && items[j].NotADict?
    requires forall h :: 0 <= h < j ==> items[h].Entry? && items[h].name != name
    ensures ScanItems(items, name).Raises?
  {
    if j == 0 {
    } else {
      ScanRaisesAt(items[1..], name, j - 1);
    }
  }

  lemma {:induction false} NothingInTheWay(items: seq<Item>, name: string, n: nat)
    requires n <= |items| && forall i :: 0 <= i < |items| ==> !FirstEntry(items, name, i)
    requires !Unreadable(Some(items), name)
    ensures forall h :: 0 <= h < n ==> items[h].Entry? && items[h].name != name
  {
    if n == 0 {
    } else {
      NothingInTheWay(items, name, n - 1);
      assert !FirstEntry(items, name, n - 1);
    }
  }

  lemma ScanGivesReceipt(items: seq<Item>, name: string, second: Option<string>, was: Option<string>)
    requires !Unreadable(Some(items), name)
    ensures ScanItems(items, name).Found?
    ensures var receipt := OrElse(ScanItems(items, name).value, second);
      ReceiptFrom(items, name, second, was, if Truthy(receipt) then receipt else was)
  {
    ScanTellsEntries(items, name);
  }

  lemma StkRowMeets(row: Row, body: Body, now: nat)
    requires ParseStk(body.stk).Ready? && Storable(ParseStk(body.stk).job)
    ensures StkSettles(row, body, now, Settle(row, ParseStk(body.stk).job, body, now))
  {
    var Stk(_, code, _, items) := body.stk;
    if ZeroCode(code) {
      ScanTellsEntries(items.value, "MpesaReceiptNumber");
      ScanGivesReceipt(items.value, "MpesaReceiptNumber", None, row.receipt);
    }
  }

  lemma B2cRowMeets(row: Row, body: Body, now: nat)
    requires ParseB2cResult(body.result).Ready? && Storable(ParseB2cResult(body.result).job)
    ensures B2cSettles(row, body, now, Settle(row, ParseB2cResult(body.result).job, body, now))
  {
    var Outcome(_, code, _, transactionId, params) := body.result;
    if ZeroCode(code) {
      ScanTellsEntries(params.value, "TransactionReceipt");
      ScanGivesReceipt(params.value, "TransactionReceipt", transactionId, row.receipt);
    }
  }

  lemma TimeoutRowMeets(row: Row, body: Body, now: nat)
    requires ParseB2cTimeout(body.result).Ready?
    ensures TimeoutSettles(row, body, now, Settle(row, ParseB2cTimeout(body.result).job, body, now))
  {
  }

  lemma StkMeetsAt(db: Db, log: nat, r: nat, now: nat)
    requires log < |db.logs| && r < |db.txns| && ParseStk(db.logs[log].body.stk).Ready?
    requires Find(db.txns, ParseStk(db.logs[log].body.stk).job.key) == Some(r)
    ensures var body := db.logs[log].body;
      StkAt(db, log, r, now, RunKeyed(db, log, ParseStk(body.stk).job, body, now))
  {
    var body := db.logs[log].body;
    if Storable(ParseStk(body.stk).job) {
      StkRowMeets(db.txns[r], body, now);
    }
  }

  /** A callback with an id is read, unless its code is zero and looking for the receipt raises. */
  lemma StkIsReadUnless(body: Body)
    requires body.stk.Stk? && body.stk.checkoutId.Some?
    ensures if ZeroCode(body.stk.code) && Unreadable(body.stk.items, "MpesaReceiptNumber") then
              ParseStk(body.stk).Broken?
            else ParseStk(body.stk).Ready?
  {
    if body.stk.items.Some? {
      ScanTellsEntries(body.stk.items.value, "MpesaReceiptNumber");
    }
  }

  lemma StkTaskMeets(db: Db, log: nat, now: nat)
    ensures StkRequires(db, log, now, RunTask(db, StkCallback, log, now))
  {
    if log < |db.logs| {
      var body := db.logs[log].body;
      if body.stk.Stk? && body.stk.checkoutId.Some? {
        StkIsReadUnless(body);
      }
      if ParseStk(body.stk).Ready? {
        var found := Find(db.txns, ParseStk(body.stk).job.key);
        if found.Some? {
          StkMeetsAt(db, log, found.value, now);
        }
      }
    }
  }

  lemma B2cMeetsAt(db: Db, log: nat, r: nat, now: nat)
    requires log < |db.logs| && r < |db.txns| && ParseB2cResult(db.logs[log].body.result).Ready?
    requires Find(db.txns, ParseB2cResult(db.logs[log].body.result).job.key) == Some(r)
    ensures var body := db.logs[log].body;
      B2cAt(db, log, r, now, RunKeyed(db, log, ParseB2cResult(body.result).job, body, now))
  {
    var body := db.logs[log].body;
    if Storable(ParseB2cResult(body.result).job) {
      B2cRowMeets(db.txns[r], body, now);
    }
  }

  lemma B2cIsReadUnless(body: Body)
    requires body.result.Outcome? && body.result.conversationId.Some?
    ensures if ZeroCode(body.result.code) && Unreadable(body.result.params, "TransactionReceipt") then
              ParseB2cResult(body.result).Broken?
            else ParseB2cResult(body.result).Ready?
  {
    if body.result.params.Some? {
      ScanTellsEntries(body.result.params.value, "TransactionReceipt");
    }
  }

  lemma B2cTaskMeets(db: Db, log: nat, now: nat)
    ensures B2cRequires(db, log, now, RunTask(db, B2cResult, log, now))
  {
    if log < |db.logs| {
      var body := db.logs[log].body;
      if body.result.Outcome? && body.result.conversationId.Some? {
        B2cIsReadUnless(body);
      }
      if ParseB2cResult(body.result).Ready? {
        var found := Find(db.txns, ParseB2cResult(body.result).job.key);
        if found.Some? {
          B2cMeetsAt(db, log, found.value, now);
        }
      }
    }
  }

  lemma TimeoutMeetsAt(db: Db, log: nat, r: nat, now: nat)
    requires log < |db.logs| && r < |db.txns| && ParseB2cTimeout(db.logs[log].body.result).Ready?
    requires Find(db.txns, ParseB2cTimeout(db.logs[log].body.result).job.key) == Some(r)
    ensures var body := db.logs[log].body;
      TimeoutAt(db, log, r, now, RunKeyed(db, log, ParseB2cTimeout(body.result).job, body, now))
  {
  }

  lemma TimeoutTaskMeets(db: Db, log: nat, now: nat)
    ensures TimeoutRequires(db, log, now, RunTask(db, B2cTimeout, log, now))
  {
    if log < |db.logs| {
      var body := db.logs[log].body;
      if ParseB2cTimeout(body.result).Ready? {
        var found := Find(db.txns, ParseB2cTimeout(body.result).job.key);
        if found.Some? {
          TimeoutMeetsAt(db, log, found.value, now);
        }
      }
    }
  }

  lemma NewestMeets(txns: seq<Row>, billRef: Option<string>)
    ensures Newest(txns, billRef).Some? ==> NewestWaiting(txns, billRef, Newest(txns, billRef).value)
    ensures Newest(txns, billRef).None? ==> forall r :: 0 <= r < |txns| ==> !Waits(txns[r], billRef)
  {
    assert forall row: Row :: Awaits(row, billRef) <==> Waits(row, billRef);
  }

  lemma C2bMeetsAt(db: Db, log: nat, r: nat, now: nat)
    requires log < |db.logs| && r < |db.txns|
    requires var c := db.logs[log].body.c2b; !Recorded(db.txns, c.transId) && Newest(db.txns, c.billRef) == Some(r)
    ensures C2bAt(db, log, r, now, RunConfirm(db, log, db.logs[log].body.c2b, db.logs[log].body, now))
  {
  }

  lemma C2bMeetsBeyond(db: Db, log: nat, now: nat)
    requires log < |db.logs|
    requires var c := db.logs[log].body.c2b; !Recorded(db.txns, c.transId) && Newest(db.txns, c.billRef) == None
    ensures C2bBeyond(db, log, now, RunConfirm(db, log, db.logs[log].body.c2b, db.logs[log].body, now))
  {
  }

  lemma C2bTaskMeets(db: Db, log: nat, now: nat)
    ensures C2bRequires(db, log, now, RunTask(db, C2bConfirmation, log, now))
  {
    if log < |db.logs| {
      var c := db.logs[log].body.c2b;
      var newest := Newest(db.txns, c.billRef);
      NewestMeets(db.txns, c.billRef);
      if Recorded(db.txns, c.transId) {
      } else if newest.Some? {
        C2bMeetsAt(db, log, newest.value, now);
      } else {
        C2bMeetsBeyond(db, log, now);
      }
    }
  }

  /** Every task, run alone on any database and any log, does what its callback requires. */
  lemma TasksMeetTheRequirements(db: Db, task: Task, log: nat, now: nat)
    ensures Required(task, db, log, now, RunTask(db, task, log, now))
  {
    match task
    case StkCallback => StkTaskMeets(db, log, now);
    case B2cResult => B2cTaskMeets(db, log, now);
    case B2cTimeout => TimeoutTaskMeets(db, log, now);
    case C2bConfirmation => C2bTaskMeets(db, log, now);
  }

  // ----- and nothing else would -----

  lemma ReceiptsAgree(items: seq<Item>, name: string, second: Option<string>,
                      was: Option<string>, a: Option<string>, b: Option<string>)
    requires ReceiptFrom(items, name, second, was, a) && ReceiptFrom(items, name, second, was, b)
    ensures a == b
  {
  }

  lemma StkRowsAgree(was: Row, body: Body, time: nat, a: Row, b: Row)
    requires StkSettles(was, body, time, a) && StkSettles(was, body, time, b)
    ensures a == b
  {
    if ZeroCode(body.stk.code) {
      ReceiptsAgree(body.stk.items.value, "MpesaReceiptNumber", None, was.receipt, a.receipt, b.receipt);
    }
  }

  lemma B2cRowsAgree(was: Row, body: Body, time: nat, a: Row, b: Row)
    requires B2cSettles(was, body, time, a) && B2cSettles(was, body, time, b)
    ensures a == b
  {
    if ZeroCode(body.result.code) {
      ReceiptsAgree(body.result.params.value, "TransactionReceipt", body.result.transactionId,
                    was.receipt, a.receipt, b.receipt);
    }
  }

  lemma StkAgrees(db: Db, log: nat, r: nat, time: nat, a: Ran, b: Ran)
    requires log < |db.logs| && r < |db.txns| && db.logs[log].body.stk.Stk?
    requires StkAt(db, log, r, time, a) && StkAt(db, log, r, time, b)
    ensures a == b
  {
    if !Final(db.txns[r].status) && FitsColumn(db.logs[log].body.stk.code) {
      StkRowsAgree(db.txns[r], db.logs[log].body, time, a.db.txns[r], b.db.txns[r]);
    }
  }

  lemma B2cAgrees(db: Db, log: nat, r: nat, time: nat, a: Ran, b: Ran)
    requires log < |db.logs| && r < |db.txns| && db.logs[log].body.result.Outcome?
    requires B2cAt(db, log, r, time, a) && B2cAt(db, log, r, time, b)
    ensures a == b
  {
    if !Final(db.txns[r].status) && FitsColumn(db.logs[log].body.result.code) {
      B2cRowsAgree(db.txns[r], db.logs[log].body, time, a.db.txns[r], b.db.txns[r]);
    }
  }

  lemma TimeoutAgrees(db: Db, log: nat, r: nat, time: nat, a: Ran, b: Ran)
    requires log < |db.logs| && r < |db.txns| && TimeoutAt(db, log, r, time, a) && TimeoutAt(db, log, r, time, b)
    ensures a == b
  {
  }

  /** At most one row has the key. */
  lemma SameRow(txns: seq<Row>, q: nat, r: nat, key: Key)
    requires UniqueKeys(txns) && q < |txns| && r < |txns| && Matches(txns[q], key) && Matches(txns[r], key)
    ensures q == r
  {
  }

  lemma StkLeavesNoChoice(db: Db, log: nat, time: nat, a: Ran, b: Ran)
    requires UniqueKeys(db.txns) && StkRequires(db, log, time, a) && StkRequires(db, log, time, b)
    ensures a == b
  {
    if log < |db.logs| && db.logs[log].body.stk.Stk? && db.logs[log].body.stk.checkoutId.Some? {
      var id := db.logs[log].body.stk.checkoutId.value;
      if q :| 0 <= q < |db.txns| && db.txns[q].checkoutId == Some(id) && StkAt(db, log, q, time, a) {
        if r :| 0 <= r < |db.txns| && db.txns[r].checkoutId == Some(id) && StkAt(db, log, r, time, b) {
          SameRow(db.txns, q, r, Checkout(id));
          StkAgrees(db, log, q, time, a, b);
        }
      }
    }
  }

  lemma B2cLeavesNoChoice(db: Db, log: nat, time: nat, a: Ran, b: Ran)
    requires UniqueKeys(db.txns) && B2cRequires(db, log, time, a) && B2cRequires(db, log, time, b)
    ensures a == b
  {
    if log < |db.logs| && db.logs[log].body.result.Outcome? && db.logs[log].body.result.conversationId.Some? {
      var id := db.logs[log].body.result.conversationId.value;
      if q :| 0 <= q < |db.txns| && db.txns[q].conversationId == Some(id) && B2cAt(db, log, q, time, a) {
        if r :| 0 <= r < |db.txns| && db.txns[r].conversationId == Some(id) && B2cAt(db, log, r, time, b) {
          SameRow(db.txns, q, r, Conversation(id));
          B2cAgrees(db, log, q, time, a, b);
        }
      }
    }
  }

  lemma TimeoutLeavesNoChoice(db: Db, log: nat, time: nat, a: Ran, b: Ran)
    requires UniqueKeys(db.txns) && TimeoutRequires(db, log, time, a) && TimeoutRequires(db, log, time, b)
    ensures a == b
  {
    if log < |db.logs| && db.logs[log].body.result.Outcome? && db.logs[log].body.result.conversationId.Some? {
      var id := db.logs[log].body.result.conversationId.value;
      if q :| 0 <= q < |db.txns| && db.txns[q].conversationId == Some(id) && TimeoutAt(db, log, q, time, a) {
        if r :| 0 <= r < |db.txns| && db.txns[r].conversationId == Some(id) && TimeoutAt(db, log, r, time, b) {
          SameRow(db.txns, q, r, Conversation(id));
          TimeoutAgrees(db, log, q, time, a, b);
        }
      }
    }
  }

  /** No two rows waiting for the reference were initiated at the same time. */
  predicate NoTies(txns: seq<Row>, billRef: Option<string>) {
    forall q, r :: 0 <= q < r < |txns| && Waits(txns[q], billRef) && Waits(txns[r], billRef) ==>
      txns[q].initiatedAt != txns[r].initiatedAt
  }

  lemma SameNewest(txns: seq<Row>, billRef: Option<string>, q: nat, r: nat)
    requires NoTies(txns, billRef) && NewestWaiting(txns, billRef, q) && NewestWaiting(txns, billRef, r)
    ensures q == r
  {
    assert txns[q].initiatedAt == txns[r].initiatedAt;
  }

  lemma C2bAgrees(db: Db, log: nat, r: nat, time: nat, a: Ran, b: Ran)
    requires log < |db.logs| && r < |db.txns| && C2bAt(db, log, r, time, a) && C2bAt(db, log, r, time, b)
    ensures a == b
  {
  }

  lemma C2bAgreesBeyond(db: Db, log: nat, time: nat, a: Ran, b: Ran)
    requires log < |db.logs| && C2bBeyond(db, log, time, a) && C2bBeyond(db, log, time, b)
    ensures a == b
  {
    assert a.db.txns == a.db.txns[..|db.txns|] + [a.db.txns[|db.txns|]];
    assert b.db.txns == b.db.txns[..|db.txns|] + [b.db.txns[|db.txns|]];
  }

  lemma C2bLeavesNoChoice(db: Db, log: nat, time: nat, a: Ran, b: Ran)
    requires C2bRequires(db, log, time, a) && C2bRequires(db, log, time, b)
    requires log < |db.logs| ==> NoTies(db.txns, db.logs[log].body.c2b.billRef)
    ensures a == b
  {
    if log < |db.logs| {
      var C2bPart(transId, _, _, billRef) := db.logs[log].body.c2b;
      if !Empty(transId) && exists i :: 0 <= i < |db.txns| && db.txns[i].receipt == transId {
      } else if forall r :: 0 <= r < |db.txns| ==> !Waits(db.txns[r], billRef) {
        C2bAgreesBeyond(db, log, time, a, b);
      } else {
        var q :| 0 <= q < |db.txns| && NewestWaiting(db.txns, billRef, q) && C2bAt(db, log, q, time, a);
        var r :| 0 <= r < |db.txns| && NewestWaiting(db.txns, billRef, r) && C2bAt(db, log, r, time, b);
        SameNewest(db.txns, billRef, q, r);
        C2bAgrees(db, log, q, time, a, b);
      }
    }
  }

  /** With unique keys, and no ties among the waiting rows, a callback requires exactly what its task does. */
  lemma RequiredIff(db: Db, task: Task, log: nat, now: nat, ran: Ran)
    requires UniqueKeys(db.txns)
    requires task == C2bConfirmation && log < |db.logs| ==> NoTies(db.txns, db.logs[log].body.c2b.billRef)
    ensures Required(task, db, log, now, ran) <==> ran == RunTask(db, task, log, now)
  {
    var done := RunTask(db, task, log, now);
    TasksMeetTheRequirements(db, task, log, now);
    if Required(task, db, log, now, ran) {
      match task
      case StkCallback => StkLeavesNoChoice(db, log, now, ran, done);
      case B2cResult => B2cLeavesNoChoice(db, log, now, ran, done);
      case B2cTimeout => TimeoutLeavesNoChoice(db, log, now, ran, done);
      case C2bConfirmation => C2bLeavesNoChoice(db, log, now, ran, done);
    }
  }

  // ----- a body that is no dict -----

  /** A body without any field: the STK and B2C tasks say what is missing; the C2B task creates a
      payment of nothing from nobody, unless a row without reference was waiting. */
  lemma EmptyBodiesAreHandled(db: Db, task: Task, log: nat, now: nat)
    requires log < |db.logs| && db.logs[log].body == EMPTY_DICT
    ensures var ran := RunTask(db, task, log, now);
      match task
      case StkCallback => Rejects(db, log, "Missing CheckoutRequestID in payload", ran)
      case B2cResult => Rejects(db, log, "Missing ConversationID in payload", ran)
      case B2cTimeout => Rejects(db, log, "Missing ConversationID in timeout payload", ran)
      case C2bConfirmation =>
        (forall r :: 0 <= r < |db.txns| ==> !Waits(db.txns[r], Some(""))) ==>
          && |ran.db.txns| == |db.txns| + 1
          && var row := ran.db.txns[|db.txns|];
             row.amount == 0.0 && row.phone == "000000000000" && row.reference == "UNKNOWN" && row.receipt == Some("")
  {
    TasksMeetTheRequirements(db, task, log, now);
  }
}
