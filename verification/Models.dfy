/** The rows the library stores: transactions and callback logs (django_mpesa/models.py). */
module Models {

  datatype Option<+T> = None | Some(value: T)

  datatype TxnKind = StkPush | C2bPayment | B2cPayout

  datatype Status = Pending | Processing | Success | Failed | TimedOut | Reversed

  /** TERMINAL_STATES: no status transition is allowed out of these. */
  predicate Terminal(status: Status) {
    status == Success || status == Failed || status == TimedOut || status == Reversed
  }

  /** A ResultCode as the JSON decoder delivers it. `parse` is what int() makes of a text. */
  datatype Code =
    | Absent
    | Num(n: int)
    | Flag(b: bool)
    | Text(s: string, parse: Option<int>)
    | Structure

  /** One element of a metadata list. Anything that is not a dict makes `.get` raise. */
  datatype Item = Entry(name: string, value: Option<string>) | NotADict

  /** `body["Body"]["stkCallback"]`; NoStk when one of the lookups raises. `items` is None when
      the metadata cannot be iterated. */
  datatype StkPart =
    | NoStk
    | Stk(checkoutId: Option<string>, code: Code, desc: Option<string>, items: Option<seq<Item>>)

  /** `body["Result"]`, shared by the B2C result and timeout callbacks. */
  datatype ResultPart =
    | NoResult
    | Outcome(conversationId: Option<string>, code: Code, desc: Option<string>,
              transactionId: Option<string>, params: Option<seq<Item>>)

  /** The top-level fields of a C2B confirmation. `amount` is None when Decimal() rejects it. */
  datatype C2bPart =
    C2bPart(transId: Option<string>, amount: Option<real>, msisdn: Option<string>, billRef: Option<string>)

  datatype Body = Body(stk: StkPart, result: ResultPart, c2b: C2bPart)

  /** A transaction row. Its primary key is its position in the table. */
  datatype Row = Row(
    kind: TxnKind,
    status: Status,
    checkoutId: Option<string>,
    conversationId: Option<string>,
    receipt: Option<string>,
    phone: string,
    amount: real,
    reference: string,
    resultCode: Option<int>,
    resultDesc: Option<string>,
    payload: Option<Body>,
    initiatedAt: nat,
    settledAt: Option<nat>)

  /** A row as `initiate` inserts it, to tell examples with. */
  const WAITING :=
    Row(StkPush, Pending, Some("ws_CO_1"), None, None, "254712345678", 1.0, "INV-1", None, None, None, 0, None)

  /** The four task functions; a log's callback type determines which one it is dispatched to. */
  datatype Task = StkCallback | B2cResult | B2cTimeout | C2bConfirmation

  datatype LogRow = LogRow(
    task: Task,
    body: Body,
    related: Option<nat>,
    processed: bool,
    error: Option<string>)

  /** The unique column a callback is matched on. */
  datatype Key = Checkout(id: string) | Conversation(id: string)

  predicate Matches(row: Row, key: Key) {
    match key
    case Checkout(id) => row.checkoutId == Some(id)
    case Conversation(id) => row.conversationId == Some(id)
  }

  datatype SignalKind =
    | PaymentConfirmed
    | PaymentFailed(code: Code, desc: Option<string>)
    | PayoutCompleted
    | PayoutFailed(code: Code, desc: Option<string>)

  datatype Signal = Signal(row: nat, kind: SignalKind)

  /** Python truthiness of an optional text. */
  predicate Truthy(text: Option<string>) {
    text.Some? && text.value != ""
  }

  /** The row with this unique key, as `objects.get` finds it. */
  function Find(txns: seq<Row>, key: Key): (found: Option<nat>)
    ensures found.Some? ==> found.value < |txns| && Matches(txns[found.value], key)
    ensures found.None? ==> forall i :: 0 <= i < |txns| ==> !Matches(txns[i], key)
  {
    if |txns| == 0 then None
    else
      var n := |txns| - 1;
      var earlier := Find(txns[..n], key);
      assert forall i :: 0 <= i < n ==> txns[..n][i] == txns[i];
      if earlier.Some? then earlier
      else if Matches(txns[n], key) then Some(n) else None
  }

  /** The unique constraints on checkout_request_id and conversation_id; nulls never collide. */
  ghost predicate UniqueKeys(txns: seq<Row>) {
    forall i, j, key: Key {:trigger Matches(txns[i], key), Matches(txns[j], key)} ::
      0 <= i < |txns| && 0 <= j < |txns| && Matches(txns[i], key) && Matches(txns[j], key) ==> i == j
  }

  lemma FindIsTheOnly(txns: seq<Row>, key: Key, i: nat)
    requires UniqueKeys(txns) && i < |txns| && Matches(txns[i], key)
    ensures Find(txns, key) == Some(i)
  {
    var found := Find(txns, key);
    assert found.Some?;
    assert Matches(txns[found.value], key);
  }
}
