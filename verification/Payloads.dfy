/** From a logged body to the locals a task works with, before it touches a transaction. */
module Payloads {
  import opened Models

  /** `request.data` when it is not a dict. */
  const EMPTY_DICT := Body(Stk(None, Absent, Some(""), Some([])), Outcome(None, Absent, Some(""), None, Some([])),
                           C2bPart(Some(""), Some(0.0), Some(""), Some("")))

  /** What a task knows once its body is parsed. */
  datatype Job =
    | Keyed(task: Task, key: Key, code: Code, desc: Option<string>, receipt: Option<string>)
    | Confirm(c: C2bPart)

  datatype Parsed =
    | Broken                     // an exception outside the atomic block
    | Missing(message: string)   // no key in the body
    | Ready(job: Job)

  /** `code == 0` in Python: true of the number 0 and of False, not of the text "0". */
  predicate IsZero(code: Code) {
    code == Num(0) || code == Flag(false)
  }

  /** The outcome of scanning a metadata list: an exception, or the value found (if any). */
  datatype Scan = Raises | Found(value: Option<string>)

  /** The first entry called `name` decides; a non-dict met before it raises. */
  function ScanItems(items: seq<Item>, name: string): Scan {
    if |items| == 0 then Found(None)
    else if items[0].NotADict? then Raises
    else if items[0].name == name then Found(items[0].value)
    else ScanItems(items[1..], name)
  }

  function ScanOptional(items: Option<seq<Item>>, name: string): Scan {
    if items.None? then Raises else ScanItems(items.value, name)
  }

  const STK_RECEIPT := "MpesaReceiptNumber"
  const B2C_RECEIPT := "TransactionReceipt"

  function ParseStk(part: StkPart): Parsed {
    if part.NoStk? then Broken
    else if part.checkoutId.None? then Missing("Missing CheckoutRequestID in payload")
    else
      var scan := if IsZero(part.code) then ScanOptional(part.items, STK_RECEIPT) else Found(None);
      if scan.Raises? then Broken
      else Ready(Keyed(StkCallback, Checkout(part.checkoutId.value), part.code, part.desc, scan.value))
  }

  /** `if not receipt and transaction_id: receipt = transaction_id`. */
  function OrElse(receipt: Option<string>, transactionId: Option<string>): Option<string> {
    if !Truthy(receipt) && Truthy(transactionId) then transactionId else receipt
  }

  function ParseB2cResult(part: ResultPart): Parsed {
    if part.NoResult? then Broken
    else if part.conversationId.None? then Missing("Missing ConversationID in payload")
    else
      var scan := if IsZero(part.code) then ScanOptional(part.params, B2C_RECEIPT) else Found(None);
      if scan.Raises? then Broken
      else
        var receipt := if IsZero(part.code) then OrElse(scan.value, part.transactionId) else None;
        Ready(Keyed(B2cResult, Conversation(part.conversationId.value), part.code, part.desc, receipt))
  }

  function ParseB2cTimeout(part: ResultPart): Parsed {
    if part.NoResult? then Broken
    else if part.conversationId.None? then Missing("Missing ConversationID in timeout payload")
    else Ready(Keyed(B2cTimeout, Conversation(part.conversationId.value), Absent, Some("B2C request timed out"), None))
  }

  function Parse(task: Task, body: Body): Parsed {
    match task
    case StkCallback => ParseStk(body.stk)
    case B2cResult => ParseB2cResult(body.result)
    case B2cTimeout => ParseB2cTimeout(body.result)
    case C2bConfirmation => Ready(Confirm(body.c2b))
  }

  /** What every parsed job satisfies. */
  predicate Sound(job: Job) {
    match job
    case Confirm(_) => true
    case Keyed(task, key, code, desc, receipt) =>
      && (task == StkCallback <==> key.Checkout?)
      && task != C2bConfirmation
      && (receipt.Some? ==> IsZero(code))
      && (task == B2cTimeout ==> code == Absent)
  }

  function TaskOf(job: Job): Task {
    if job.Confirm? then C2bConfirmation else job.task
  }

  lemma ParseIsSound(task: Task, body: Body)
    ensures Parse(task, body).Ready? ==> Sound(Parse(task, body).job) && TaskOf(Parse(task, body).job) == task
  {
  }

  /** The scan, told by positions: it yields the value at `i` exactly when `i` is the first
      entry of that name and only dicts come before it. */
  lemma {:induction false} ScanFindsTheFirst(items: seq<Item>, name: string, i: nat)
    requires i < |items| && items[i].Entry? && items[i].name == name
    requires forall j :: 0 <= j < i ==> items[j].Entry? && items[j].name != name
    ensures ScanItems(items, name) == Found(items[i].value)
  {
    if i == 0 {
    } else {
      ScanFindsTheFirst(items[1..], name, i - 1);
    }
  }

  /** Without such an entry: it raises exactly when the list holds something that is not a dict. */
  lemma {:induction false} ScanWithoutTheName(items: seq<Item>, name: string)
    requires forall j :: 0 <= j < |items| && items[j].Entry? ==> items[j].name != name
    ensures ScanItems(items, name) == if exists j :: 0 <= j < |items| && items[j].NotADict? then Raises else Found(None)
  {
    if |items| == 0 || items[0].NotADict? {
    } else {
      ScanWithoutTheName(items[1..], name);
      if j :| 0 <= j < |items| && items[j].NotADict? {
        assert items[1..][j - 1].NotADict?;
      }
    }
  }
}
