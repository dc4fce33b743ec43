/** C2B confirmations processed one after the other: which row each settles or creates, and which
    of the amounts paid the table ends up with. */
module C2bSerial {
  import opened Models
  import opened Settlement

  datatype Confirmation = Confirmation(c: C2bPart, body: Body, now: nat)

  function ConfirmAll(txns: seq<Row>, cs: seq<Confirmation>): seq<Row>
    decreases |cs|
  {
    if |cs| == 0 then txns else ConfirmAll(ConfirmTxns(txns, cs[0].c, cs[0].body, cs[0].now), cs[1..])
  }

  /** The row a confirmation of this reference settles, or the new row it creates. */
  function Place(txns: seq<Row>, ref: Option<string>): nat {
    var newest := Newest(txns, ref);
    if newest.Some? then newest.value else |txns|
  }

  predicate RowsOk(txns: seq<Row>) {
    forall i :: 0 <= i < |txns| ==> RowOk(txns[i])
  }

  // ----- repeated TransIDs -----

  /** Drop every confirmation whose non-empty TransID is in `seen` or came earlier. */
  function DropRepeated(cs: seq<Confirmation>, seen: set<Option<string>>): (out: seq<Confirmation>)
    ensures forall i :: 0 <= i < |out| && Truthy(out[i].c.transId) ==> out[i].c.transId !in seen
    ensures Distinct(out)
  {
    if |cs| == 0 then []
    else if !Truthy(cs[0].c.transId) then [cs[0]] + DropRepeated(cs[1..], seen)
    else if cs[0].c.transId in seen then DropRepeated(cs[1..], seen)
    else [cs[0]] + DropRepeated(cs[1..], seen + {cs[0].c.transId})
  }

  /** No two confirmations have the same non-empty TransID. */
  predicate Distinct(cs: seq<Confirmation>) {
    forall i, j :: 0 <= i < j < |cs| && Truthy(cs[i].c.transId) ==> cs[i].c.transId != cs[j].c.transId
  }

  /** No TransID among them is on record. */
  predicate AllNew(txns: seq<Row>, cs: seq<Confirmation>) {
    forall i :: 0 <= i < |cs| ==> !Recorded(txns, cs[i].c.transId)
  }

  /** One confirmation: its receipt is on record afterwards, and what was on record stays so. */
  lemma ConfirmRecords(txns: seq<Row>, d: Confirmation, transId: Option<string>)
    requires RowsOk(txns)
    ensures RowsOk(ConfirmTxns(txns, d.c, d.body, d.now))
    ensures Truthy(d.c.transId) ==> Recorded(ConfirmTxns(txns, d.c, d.body, d.now), d.c.transId)
    ensures Recorded(txns, transId) ==> Recorded(ConfirmTxns(txns, d.c, d.body, d.now), transId)
  {
    var out := ConfirmTxns(txns, d.c, d.body, d.now);
    if !Recorded(txns, d.c.transId) {
      assert out[Place(txns, d.c.billRef)].receipt == d.c.transId;
    }
    if Recorded(txns, transId) {
      var i :| 0 <= i < |txns| && txns[i].receipt == transId;
      assert RowOk(txns[i]) && out[i].receipt == transId;
    }
  }

  /** Repeated confirmations change nothing. */
  lemma {:induction false} RepeatsAreInvisible(txns: seq<Row>, cs: seq<Confirmation>, seen: set<Option<string>>)
    requires RowsOk(txns) && forall transId :: transId in seen ==> Recorded(txns, transId)
    ensures ConfirmAll(txns, DropRepeated(cs, seen)) == ConfirmAll(txns, cs)
    decreases |cs|
  {
    if |cs| == 0 {
    } else {
      var d := cs[0];
      var transId := d.c.transId;
      var seen' := if Truthy(transId) then seen + {transId} else seen;
      var out := ConfirmTxns(txns, d.c, d.body, d.now);
      forall t | t == None || t in seen'
        ensures RowsOk(out) && (t in seen' ==> Recorded(out, t))
      {
        ConfirmRecords(txns, d, t);
      }
      if Truthy(transId) && transId in seen {
        RepeatsAreInvisible(txns, cs[1..], seen);
      } else {
        RepeatsAreInvisible(out, cs[1..], seen');
        var rest := DropRepeated(cs[1..], seen');
        assert ([d] + rest)[1..] == rest;
      }
    }
  }

  // ----- matching -----

  function AwaitingRows(txns: seq<Row>, ref: Option<string>): set<nat> {
    set i | 0 <= i < |txns| && Awaits(txns[i], ref)
  }

  function Min(a: nat, b: nat): nat {
    if a < b then a else b
  }

  function AmountOf(c: C2bPart): real {
    if c.amount.Some? then c.amount.value else 0.0
  }

  function TotalClaimed(cs: seq<Confirmation>): real {
    if |cs| == 0 then 0.0 else AmountOf(cs[0].c) + TotalClaimed(cs[1..])
  }

  function TotalOf(rows: seq<Row>): real {
    if |rows| == 0 then 0.0 else rows[0].amount + TotalOf(rows[1..])
  }

  /** `after` extends `before`: old rows keep everything unless they were awaiting `ref`, those may
      have become SUCCESS with their amount unchanged, and every new row is a SUCCESS C2B row. */
  predicate OnlySettles(before: seq<Row>, after: seq<Row>, ref: Option<string>) {
    && |before| <= |after|
    && (forall i :: 0 <= i < |before| ==>
          after[i] == before[i] ||
          (Awaits(before[i], ref) && after[i].status == Success
           && after[i].amount == before[i].amount && after[i].reference == before[i].reference))
    && (forall i :: |before| <= i < |after| ==> after[i].kind == C2bPayment && after[i].status == Success)
  }

  /** A confirmation with a new TransID settles one awaiting row if there is one, else creates one. */
  lemma ConfirmMatches(txns: seq<Row>, d: Confirmation)
    requires !Recorded(txns, d.c.transId)
    ensures var out := ConfirmTxns(txns, d.c, d.body, d.now);
      && OnlySettles(txns, out, d.c.billRef)
      && (if AwaitingRows(txns, d.c.billRef) == {} then
            && AwaitingRows(out, d.c.billRef) == {}
            && |out| == |txns| + 1 && out[..|txns|] == txns && out[|txns|].amount == AmountOf(d.c)
          else
            && |out| == |txns|
            && AwaitingRows(out, d.c.billRef) <= AwaitingRows(txns, d.c.billRef)
            && |AwaitingRows(out, d.c.billRef)| == |AwaitingRows(txns, d.c.billRef)| - 1)
  {
    var ref := d.c.billRef;
    var out := ConfirmTxns(txns, d.c, d.body, d.now);
    var newest := Newest(txns, ref);
    if newest.Some? {
      assert newest.value in AwaitingRows(txns, ref);
      assert AwaitingRows(out, ref) == AwaitingRows(txns, ref) - {newest.value};
    } else {
      assert AwaitingRows(txns, ref) == {} && AwaitingRows(out, ref) == {};
    }
  }

  /** A confirmation leaves every other TransID as unrecorded as it was. */
  lemma ConfirmRecordsOnlyItself(txns: seq<Row>, d: Confirmation, transId: Option<string>)
    requires !Recorded(txns, transId) && (Truthy(transId) ==> transId != d.c.transId)
    ensures !Recorded(ConfirmTxns(txns, d.c, d.body, d.now), transId)
  {
  }

  lemma NewestIsAwaited(txns: seq<Row>, ref: Option<string>)
    ensures Newest(txns, ref).Some? <==> AwaitingRows(txns, ref) != {}
  {
    var newest := Newest(txns, ref);
    if newest.Some? {
      assert newest.value in AwaitingRows(txns, ref);
    }
  }

  lemma {:induction false} TotalSplits(rows: seq<Row>, more: seq<Row>)
    ensures TotalOf(rows + more) == TotalOf(rows) + TotalOf(more)
  {
    if |rows| == 0 {
      assert rows + more == more;
    } else {
      TotalSplits(rows[1..], more);
      assert (rows + more)[1..] == rows[1..] + more;
    }
  }

  lemma OnlySettlesTwice(a: seq<Row>, b: seq<Row>, c: seq<Row>, ref: Option<string>)
    requires OnlySettles(a, b, ref) && OnlySettles(b, c, ref)
    ensures OnlySettles(a, c, ref)
  {
  }

  /** What processing `cs`, all for `ref`, has made of `txns`: with n of them and p awaiting rows,
      min(n, p) awaiting rows are settled and the others each created a row, totalling exactly the
      amounts of the confirmations that found no row. */
  predicate Matched(txns: seq<Row>, out: seq<Row>, cs: seq<Confirmation>, ref: Option<string>) {
    var p := |AwaitingRows(txns, ref)|;
    var m := Min(|cs|, p);
    && OnlySettles(txns, out, ref)
    && AwaitingRows(out, ref) <= AwaitingRows(txns, ref) && |AwaitingRows(out, ref)| == p - m
    && |out| == |txns| + |cs| - m
    && TotalOf(out[|txns|..]) == TotalClaimed(cs[m..])
  }

  lemma MatchedUnmatched(txns: seq<Row>, mid: seq<Row>, out: seq<Row>, cs: seq<Confirmation>, ref: Option<string>)
    requires |cs| > 0 && Matched(mid, out, cs[1..], ref) && OnlySettles(txns, mid, ref)
    requires AwaitingRows(txns, ref) == {} && AwaitingRows(mid, ref) == {}
    requires |mid| == |txns| + 1 && mid[|txns|].amount == AmountOf(cs[0].c) && mid[|txns|].status == Success
    ensures Matched(txns, out, cs, ref)
  {
    OnlySettlesTwice(txns, mid, out, ref);
    assert cs[0..] == cs && cs[1..][0..] == cs[1..];
    assert out[|txns|..][1..] == out[|mid|..];
  }

  lemma MatchedAgain(txns: seq<Row>, mid: seq<Row>, out: seq<Row>, cs: seq<Confirmation>, ref: Option<string>)
    requires |cs| > 0 && Matched(mid, out, cs[1..], ref) && OnlySettles(txns, mid, ref) && |mid| == |txns|
    requires AwaitingRows(mid, ref) <= AwaitingRows(txns, ref)
    requires |AwaitingRows(mid, ref)| == |AwaitingRows(txns, ref)| - 1
    ensures Matched(txns, out, cs, ref)
  {
    OnlySettlesTwice(txns, mid, out, ref);
    var p := |AwaitingRows(txns, ref)|;
    assert cs[Min(|cs|, p)..] == cs[1..][Min(|cs| - 1, p - 1)..];
  }

  lemma OthersStayNew(txns: seq<Row>, cs: seq<Confirmation>)
    requires |cs| > 0 && Distinct(cs) && AllNew(txns, cs)
    ensures Distinct(cs[1..]) && AllNew(ConfirmTxns(txns, cs[0].c, cs[0].body, cs[0].now), cs[1..])
  {
    forall i | 0 <= i < |cs[1..]|
      ensures !Recorded(ConfirmTxns(txns, cs[0].c, cs[0].body, cs[0].now), cs[1..][i].c.transId)
    {
      ConfirmRecordsOnlyItself(txns, cs[0], cs[1..][i].c.transId);
    }
  }

  /** Confirmations with distinct new TransIDs for one reference are matched one to one. */
  lemma {:induction false} MatchingIsExact(txns: seq<Row>, cs: seq<Confirmation>, ref: Option<string>)
    requires Distinct(cs) && AllNew(txns, cs) && forall i :: 0 <= i < |cs| ==> cs[i].c.billRef == ref
    ensures Matched(txns, ConfirmAll(txns, cs), cs, ref)
    decreases |cs|
  {
    if |cs| == 0 {
    } else {
      var d := cs[0];
      var mid := ConfirmTxns(txns, d.c, d.body, d.now);
      ConfirmMatches(txns, d);
      OthersStayNew(txns, cs);
      MatchingIsExact(mid, cs[1..], ref);
      if AwaitingRows(txns, ref) == {} {
        MatchedUnmatched(txns, mid, ConfirmAll(txns, cs), cs, ref);
      } else {
        MatchedAgain(txns, mid, ConfirmAll(txns, cs), cs, ref);
      }
    }
  }

  // ----- which confirmation lands on which row -----

  /** The confirmations of one reference, in order. */
  function OfRef(cs: seq<Confirmation>, ref: Option<string>): seq<Confirmation> {
    if |cs| == 0 then []
    else if cs[0].c.billRef == ref then [cs[0]] + OfRef(cs[1..], ref)
    else OfRef(cs[1..], ref)
  }

  /** The rows those confirmations settle or create, each at its turn among all of `cs`. */
  function Places(txns: seq<Row>, cs: seq<Confirmation>, ref: Option<string>): (places: seq<nat>)
    ensures |places| == |OfRef(cs, ref)|
    decreases |cs|
  {
    if |cs| == 0 then []
    else
      var rest := Places(ConfirmTxns(txns, cs[0].c, cs[0].body, cs[0].now), cs[1..], ref);
      if cs[0].c.billRef == ref then [Place(txns, ref)] + rest else rest
  }

  /** Confirmation `i` was, at its turn, matched with the newest waiting row no earlier one took. */
  predicate TookNewest(txns: seq<Row>, ref: Option<string>, places: seq<nat>, i: nat)
    requires i < |places|
  {
    && places[i] < |txns| && Awaits(txns[places[i]], ref)
    && forall r :: 0 <= r < |txns| && Awaits(txns[r], ref) && r !in places[..i] ==>
         txns[r].initiatedAt <= txns[places[i]].initiatedAt
  }

  /** Row `r` is SUCCESS for this confirmation, and no other row carries its TransID. */
  predicate SoleCarrier(out: seq<Row>, r: nat, transId: Option<string>) {
    && r < |out| && out[r].status == Success && out[r].receipt == transId
    && (Truthy(transId) ==> forall q :: 0 <= q < |out| && out[q].receipt == transId ==> q == r)
  }

  /** The first `m` took waiting rows, newest first. */
  predicate Taking(txns: seq<Row>, ref: Option<string>, places: seq<nat>, m: nat) {
    m <= |places| && forall i :: 0 <= i < m ==> TookNewest(txns, ref, places, i)
  }

  /** From `m` on they created rows of their amounts, in their order. */
  predicate Creating(txns: seq<Row>, out: seq<Row>, es: seq<Confirmation>, places: seq<nat>, m: nat) {
    && |places| == |es|
    && (forall i :: m <= i < |es| ==> |txns| <= places[i] < |out| && out[places[i]].amount == AmountOf(es[i].c))
    && (forall i, j :: m <= i < j < |es| ==> places[i] < places[j])
  }

  /** Each ends on a row of its own, the only one with its TransID. */
  predicate Carrying(out: seq<Row>, es: seq<Confirmation>, places: seq<nat>) {
    && |places| == |es|
    && (forall i :: 0 <= i < |es| ==> SoleCarrier(out, places[i], es[i].c.transId))
    && (forall i, j :: 0 <= i < j < |es| ==> places[i] != places[j])
  }

  /** Of the n confirmations of `ref`, with p rows waiting: the first min(n, p) take waiting rows, the
      others create rows, and p - min(n, p) rows are left waiting. */
  predicate Placed(txns: seq<Row>, out: seq<Row>, es: seq<Confirmation>, ref: Option<string>, places: seq<nat>) {
    var p := |AwaitingRows(txns, ref)|;
    var m := Min(|es|, p);
    && Taking(txns, ref, places, m) && Creating(txns, out, es, places, m) && Carrying(out, es, places)
    && AwaitingRows(out, ref) <= AwaitingRows(txns, ref) && |AwaitingRows(out, ref)| == p - m
  }

  /** A receipt in the final table was there before or is some confirmation's TransID. */
  lemma {:induction false} ReceiptsComeFrom(txns: seq<Row>, cs: seq<Confirmation>, r: nat)
    requires r < |ConfirmAll(txns, cs)|
    ensures (r < |txns| && ConfirmAll(txns, cs)[r].receipt == txns[r].receipt) ||
            exists i :: 0 <= i < |cs| && ConfirmAll(txns, cs)[r].receipt == cs[i].c.transId
    decreases |cs|
  {
    if |cs| == 0 {
    } else {
      var mid := ConfirmTxns(txns, cs[0].c, cs[0].body, cs[0].now);
      ReceiptsComeFrom(mid, cs[1..], r);
      if i :| 0 <= i < |cs[1..]| && ConfirmAll(txns, cs)[r].receipt == cs[1..][i].c.transId {
        assert cs[i + 1] == cs[1..][i];
      } else {
        assert mid[r].receipt == cs[0].c.transId || (r < |txns| && mid[r] == txns[r]);
      }
    }
  }

  /** Rows never disappear or change their amount, and a SUCCESS row does not change at all. */
  lemma {:induction false} RowsPersist(txns: seq<Row>, cs: seq<Confirmation>)
    ensures |txns| <= |ConfirmAll(txns, cs)|
    ensures forall r :: 0 <= r < |txns| ==>
              && ConfirmAll(txns, cs)[r].amount == txns[r].amount
              && (txns[r].status == Success ==> ConfirmAll(txns, cs)[r] == txns[r])
    decreases |cs|
  {
    if |cs| == 0 {
    } else {
      RowsPersist(ConfirmTxns(txns, cs[0].c, cs[0].body, cs[0].now), cs[1..]);
    }
  }

  /** The first confirmation's row stays the only one with its TransID. */
  lemma FirstKeepsItsRow(txns: seq<Row>, cs: seq<Confirmation>)
    requires |cs| > 0 && Distinct(cs) && AllNew(txns, cs)
    ensures SoleCarrier(ConfirmAll(txns, cs), Place(txns, cs[0].c.billRef), cs[0].c.transId)
  {
    var out := ConfirmAll(txns, cs);
    var mid := ConfirmTxns(txns, cs[0].c, cs[0].body, cs[0].now);
    var first := Place(txns, cs[0].c.billRef);
    var transId := cs[0].c.transId;
    RowsPersist(mid, cs[1..]);
    assert mid[first].status == Success && out[first] == mid[first];
    forall q | 0 <= q < |out| && Truthy(transId) && out[q].receipt == transId
      ensures q == first
    {
      ReceiptsComeFrom(mid, cs[1..], q);
      assert mid[q].receipt == transId;
    }
  }

  /** How the first confirmation changed the table, seen from `ref`: it is of another reference, it
      took the newest waiting row, or it created a row. */
  predicate LeftAlone(txns: seq<Row>, mid: seq<Row>, ref: Option<string>) {
    && |txns| <= |mid| && AwaitingRows(mid, ref) == AwaitingRows(txns, ref)
    && forall r :: 0 <= r < |txns| && Awaits(txns[r], ref) ==> mid[r] == txns[r]
  }

  predicate Taken(txns: seq<Row>, mid: seq<Row>, ref: Option<string>, first: nat) {
    && Newest(txns, ref) == Some(first) && |mid| == |txns|
    && AwaitingRows(mid, ref) == AwaitingRows(txns, ref) - {first}
    && forall r :: 0 <= r < |txns| && r != first ==> mid[r] == txns[r]
  }

  lemma FirstLeavesOthersAlone(txns: seq<Row>, d: Confirmation, ref: Option<string>)
    requires d.c.billRef != ref
    ensures LeftAlone(txns, ConfirmTxns(txns, d.c, d.body, d.now), ref)
  {
    var mid := ConfirmTxns(txns, d.c, d.body, d.now);
    forall r | 0 <= r < |mid|
      ensures Awaits(mid[r], ref) <==> r < |txns| && Awaits(txns[r], ref)
      ensures r < |txns| && Awaits(txns[r], ref) ==> mid[r] == txns[r]
    {
    }
  }

  lemma FirstTakesOrCreates(txns: seq<Row>, d: Confirmation)
    requires !Recorded(txns, d.c.transId)
    ensures var mid := ConfirmTxns(txns, d.c, d.body, d.now); var ref := d.c.billRef;
      if AwaitingRows(txns, ref) == {} then
        && Place(txns, ref) == |txns| && |mid| == |txns| + 1 && LeftAlone(txns, mid, ref)
        && mid[|txns|].amount == AmountOf(d.c)
      else Taken(txns, mid, ref, Place(txns, ref)) && Place(txns, ref) in AwaitingRows(txns, ref)
  {
    var newest := Newest(txns, d.c.billRef);
    if newest.Some? {
      assert newest.value in AwaitingRows(txns, d.c.billRef);
    }
  }

  lemma TookNewestAlone(txns: seq<Row>, mid: seq<Row>, ref: Option<string>, places: seq<nat>, i: nat)
    requires LeftAlone(txns, mid, ref) && i < |places| && TookNewest(mid, ref, places, i)
    ensures TookNewest(txns, ref, places, i)
  {
    assert places[i] in AwaitingRows(mid, ref);
  }

  lemma PlacedAlone(txns: seq<Row>, mid: seq<Row>, out: seq<Row>, es: seq<Confirmation>, ref: Option<string>,
                    places: seq<nat>)
    requires LeftAlone(txns, mid, ref) && Placed(mid, out, es, ref, places)
    ensures Placed(txns, out, es, ref, places)
  {
    forall i | 0 <= i < Min(|es|, |AwaitingRows(txns, ref)|)
      ensures TookNewest(txns, ref, places, i)
    {
      TookNewestAlone(txns, mid, ref, places, i);
    }
  }

  /** The rows taken by the others, seen from before the first took the newest. */
  lemma TookNewestNext(txns: seq<Row>, mid: seq<Row>, ref: Option<string>, first: nat, rest: seq<nat>, i: nat)
    requires Taken(txns, mid, ref, first) && i < |rest| && TookNewest(mid, ref, rest, i)
    ensures rest[i] != first && TookNewest(txns, ref, [first] + rest, i + 1)
  {
    var places := [first] + rest;
    assert rest[i] in AwaitingRows(mid, ref);
    forall r | 0 <= r < |txns| && Awaits(txns[r], ref) && r !in places[..i + 1]
      ensures txns[r].initiatedAt <= txns[places[i + 1]].initiatedAt
    {
      assert places[..i + 1] == [first] + rest[..i];
      assert r != first && r !in rest[..i];
    }
  }

  lemma TakingAfter(txns: seq<Row>, mid: seq<Row>, ref: Option<string>, first: nat, rest: seq<nat>, m: nat)
    requires Taken(txns, mid, ref, first) && m > 0 && Taking(mid, ref, rest, m - 1)
    ensures Taking(txns, ref, [first] + rest, m)
    ensures forall i :: 0 <= i < m - 1 ==> rest[i] != first && rest[i] < |txns|
  {
    var places := [first] + rest;
    forall i | 0 <= i < m
      ensures TookNewest(txns, ref, places, i)
    {
      if i == 0 {
        assert places[..0] == [];
      } else {
        TookNewestNext(txns, mid, ref, first, rest, i - 1);
      }
    }
    forall i | 0 <= i < m - 1
      ensures rest[i] != first && rest[i] < |txns|
    {
      TookNewestNext(txns, mid, ref, first, rest, i);
    }
  }

  lemma CreatingAfter(txns: seq<Row>, mid: seq<Row>, out: seq<Row>, es: seq<Confirmation>, first: nat, rest: seq<nat>,
                      m: nat)
    requires |txns| <= |mid| && |es| > 0 && m > 0 && Creating(mid, out, es[1..], rest, m - 1)
    ensures Creating(txns, out, es, [first] + rest, m)
  {
    var places := [first] + rest;
    forall i | m <= i < |es|
      ensures places[i] == rest[i - 1] && es[i] == es[1..][i - 1]
    {
    }
  }

  lemma CarryingAfter(out: seq<Row>, es: seq<Confirmation>, first: nat, rest: seq<nat>)
    requires |es| > 0 && Carrying(out, es[1..], rest) && SoleCarrier(out, first, es[0].c.transId) && first !in rest
    ensures Carrying(out, es, [first] + rest)
  {
    var places := [first] + rest;
    forall i | 0 < i < |es|
      ensures places[i] == rest[i - 1] && es[i] == es[1..][i - 1]
    {
    }
  }

  lemma PlacedAfterMatch(txns: seq<Row>, mid: seq<Row>, out: seq<Row>, es: seq<Confirmation>, ref: Option<string>,
                         first: nat, rest: seq<nat>)
    requires Taken(txns, mid, ref, first) && first in AwaitingRows(txns, ref)
    requires |es| > 0 && Placed(mid, out, es[1..], ref, rest) && SoleCarrier(out, first, es[0].c.transId)
    ensures Placed(txns, out, es, ref, [first] + rest)
  {
    var m := Min(|es|, |AwaitingRows(txns, ref)|);
    TakingAfter(txns, mid, ref, first, rest, m);
    CreatingAfter(txns, mid, out, es, first, rest, m);
    CarryingAfter(out, es, first, rest);
  }

  lemma PlacedAfterCreation(txns: seq<Row>, mid: seq<Row>, out: seq<Row>, es: seq<Confirmation>, ref: Option<string>,
                            rest: seq<nat>)
    requires LeftAlone(txns, mid, ref) && AwaitingRows(txns, ref) == {} && |mid| == |txns| + 1
    requires |es| > 0 && Placed(mid, out, es[1..], ref, rest) && SoleCarrier(out, |txns|, es[0].c.transId)
    requires out[|txns|].amount == AmountOf(es[0].c)
    ensures Placed(txns, out, es, ref, [|txns|] + rest)
  {
    CreatingAfter(txns, mid, out, es, |txns|, rest, 1);
    CarryingAfter(out, es, |txns|, rest);
  }

  /** Whatever references are interleaved, the confirmations of each are placed one to one. */
  lemma {:induction false} PlacingIsExact(txns: seq<Row>, cs: seq<Confirmation>, ref: Option<string>)
    requires Distinct(cs) && AllNew(txns, cs)
    ensures Placed(txns, ConfirmAll(txns, cs), OfRef(cs, ref), ref, Places(txns, cs, ref))
    decreases |cs|
  {
    if |cs| == 0 {
    } else {
      var d := cs[0];
      var mid := ConfirmTxns(txns, d.c, d.body, d.now);
      var out := ConfirmAll(txns, cs);
      var es, rest := OfRef(cs, ref), Places(mid, cs[1..], ref);
      OthersStayNew(txns, cs);
      PlacingIsExact(mid, cs[1..], ref);
      if d.c.billRef != ref {
        FirstLeavesOthersAlone(txns, d, ref);
        PlacedAlone(txns, mid, out, es, ref, rest);
      } else {
        FirstKeepsItsRow(txns, cs);
        FirstTakesOrCreates(txns, d);
        RowsPersist(mid, cs[1..]);
        assert es[1..] == OfRef(cs[1..], ref);
        if AwaitingRows(txns, ref) == {} {
          PlacedAfterCreation(txns, mid, out, es, ref, rest);
        } else {
          PlacedAfterMatch(txns, mid, out, es, ref, Place(txns, ref), rest);
        }
      }
    }
  }

  // ----- all confirmations of one reference -----

  lemma {:induction false} AllOfRef(cs: seq<Confirmation>, ref: Option<string>)
    requires forall i :: 0 <= i < |cs| ==> cs[i].c.billRef == ref
    ensures OfRef(cs, ref) == cs
  {
    if |cs| == 0 {
    } else {
      AllOfRef(cs[1..], ref);
    }
  }

  lemma {:induction false} Climbs(places: seq<nat>, from: nat, i: nat)
    requires from <= i < |places| && forall j, k :: from <= j < k < |places| ==> places[j] < places[k]
    ensures places[i] >= places[from] + (i - from)
    decreases i
  {
    if i == from {
    } else {
      Climbs(places, from, i - 1);
    }
  }

  /** Without other references the created rows follow one another directly. */
  lemma CreatedInARow(txns: seq<Row>, cs: seq<Confirmation>, ref: Option<string>, i: nat)
    requires Distinct(cs) && AllNew(txns, cs) && forall i :: 0 <= i < |cs| ==> cs[i].c.billRef == ref
    requires Min(|cs|, |AwaitingRows(txns, ref)|) <= i < |cs|
    ensures |Places(txns, cs, ref)| == |cs|
    ensures Places(txns, cs, ref)[i] == |txns| + i - Min(|cs|, |AwaitingRows(txns, ref)|)
  {
    AllOfRef(cs, ref);
    PlacingIsExact(txns, cs, ref);
    MatchingIsExact(txns, cs, ref);
    var places := Places(txns, cs, ref);
    Climbs(places, Min(|cs|, |AwaitingRows(txns, ref)|), i);
    Climbs(places, i, |cs| - 1);
  }

  // ----- amounts -----

  /** Waiting rows are settled without a look at their amount. The row of a confirmation holds the
      amount that was paid if and only if it was created, or was waiting for that very amount. */
  lemma AmountsAgreeIff(txns: seq<Row>, cs: seq<Confirmation>, ref: Option<string>, i: nat)
    requires Distinct(cs) && AllNew(txns, cs) && i < |OfRef(cs, ref)|
    ensures var r := Places(txns, cs, ref)[i]; var paid := AmountOf(OfRef(cs, ref)[i].c);
      && r < |ConfirmAll(txns, cs)|
      && (ConfirmAll(txns, cs)[r].amount == paid <==> r >= |txns| || txns[r].amount == paid)
  {
    PlacingIsExact(txns, cs, ref);
    RowsPersist(txns, cs);
    assert SoleCarrier(ConfirmAll(txns, cs), Places(txns, cs, ref)[i], OfRef(cs, ref)[i].c.transId);
    if i < |AwaitingRows(txns, ref)| {
      assert TookNewest(txns, ref, Places(txns, cs, ref), i);
    }
  }

  predicate AllIn(rows: seq<Row>, places: seq<nat>) {
    forall i :: 0 <= i < |places| ==> places[i] < |rows|
  }

  /** The amounts of some rows together. */
  function TotalAt(rows: seq<Row>, places: seq<nat>): real
    requires AllIn(rows, places)
  {
    if |places| == 0 then 0.0 else rows[places[0]].amount + TotalAt(rows, places[1..])
  }

  lemma {:induction false} TotalsDiffer(txns: seq<Row>, out: seq<Row>, es: seq<Confirmation>, places: seq<nat>, m: nat)
    requires m <= |es| == |places| && AllIn(out, places) && AllIn(txns, places[..m])
    requires forall i :: 0 <= i < m ==> out[places[i]].amount == txns[places[i]].amount
    requires forall i :: m <= i < |es| ==> out[places[i]].amount == AmountOf(es[i].c)
    ensures TotalAt(out, places) - TotalClaimed(es) == TotalAt(txns, places[..m]) - TotalClaimed(es[..m])
    decreases |es|
  {
    if |es| == 0 {
      assert places[..m] == [] && es[..m] == [];
    } else if m == 0 {
      assert places[1..][..0] == places[..0] && es[1..][..0] == es[..0];
      TotalsDiffer(txns, out, es[1..], places[1..], 0);
    } else {
      assert places[..m][1..] == places[1..][..m - 1] && es[..m][1..] == es[1..][..m - 1];
      assert AllIn(txns, places[1..][..m - 1]);
      TotalsDiffer(txns, out, es[1..], places[1..], m - 1);
    }
  }

  /** So the amounts on record for a reference miss the amounts paid by exactly what the matched rows
      miss: created rows add nothing to the difference. */
  lemma {:induction false} AmountsMissByTheMatched(txns: seq<Row>, cs: seq<Confirmation>, ref: Option<string>)
    requires Distinct(cs) && AllNew(txns, cs)
    ensures var es, places := OfRef(cs, ref), Places(txns, cs, ref); var m := Min(|es|, |AwaitingRows(txns, ref)|);
      && AllIn(ConfirmAll(txns, cs), places) && AllIn(txns, places[..m])
      && TotalAt(ConfirmAll(txns, cs), places) - TotalClaimed(es) ==
         TotalAt(txns, places[..m]) - TotalClaimed(es[..m])
  {
    var es, places := OfRef(cs, ref), Places(txns, cs, ref);
    var m := Min(|es|, |AwaitingRows(txns, ref)|);
    var out := ConfirmAll(txns, cs);
    PlacingIsExact(txns, cs, ref);
    RowsPersist(txns, cs);
    forall i | 0 <= i < |es|
      ensures places[i] < |out| && (i < m ==> places[i] < |txns|)
    {
      assert SoleCarrier(out, places[i], es[i].c.transId);
      if i < m {
        assert TookNewest(txns, ref, places, i);
      }
    }
    TotalsDiffer(txns, out, es, places, m);
  }

  /** A payment of 1.0 settles a waiting row of 100.0, which stays one of 100.0. */
  lemma OneForAHundred() returns (row: Row, d: Confirmation)
    ensures RowsOk([row]) && row.status == Pending && row.amount == 100.0
    ensures Truthy(d.c.transId) && d.c == d.body.c2b && AmountOf(d.c) == 1.0
    ensures var out := ConfirmAll([row], [d]); |out| == 1 && out[0].status == Success && out[0].amount == 100.0
  {
    row := Row(C2bPayment, Pending, None, None, None, "254712345678", 100.0, "INV-1", None, None, None, 0, None);
    var c := C2bPart(Some("NLJ7RT61SV"), Some(1.0), Some("254712345678"), Some("INV-1"));
    d := Confirmation(c, Body(NoStk, NoResult, c), 1);
    assert Awaits(row, c.billRef) && Newest([row], c.billRef) == Some(0);
    assert [d][1..] == [];
  }

  // ----- with repeats -----

  /** The non-empty receipts on record. */
  function RecordedIds(txns: seq<Row>): set<Option<string>> {
    set i | 0 <= i < |txns| && Truthy(txns[i].receipt) :: txns[i].receipt
  }

  lemma RecordedIdsAreAll(txns: seq<Row>, transId: Option<string>)
    ensures transId in RecordedIds(txns) <==> Recorded(txns, transId)
  {
    if i :| Truthy(transId) && 0 <= i < |txns| && txns[i].receipt == transId {
      assert txns[i].receipt in RecordedIds(txns);
    }
  }

  /** The confirmations that count: repeats and recorded TransIDs dropped. */
  function Counted(txns: seq<Row>, cs: seq<Confirmation>): (counted: seq<Confirmation>)
    ensures Distinct(counted) && AllNew(txns, counted)
  {
    var counted := DropRepeated(cs, RecordedIds(txns));
    assert AllNew(txns, counted) by {
      forall i | 0 <= i < |counted|
        ensures !Recorded(txns, counted[i].c.transId)
      {
        RecordedIdsAreAll(txns, counted[i].c.transId);
      }
    }
    counted
  }

  lemma OnlyTheCountedCount(txns: seq<Row>, cs: seq<Confirmation>)
    requires RowsOk(txns)
    ensures ConfirmAll(txns, cs) == ConfirmAll(txns, Counted(txns, cs))
  {
    forall transId | transId in RecordedIds(txns)
      ensures Recorded(txns, transId)
    {
      RecordedIdsAreAll(txns, transId);
    }
    RepeatsAreInvisible(txns, cs, RecordedIds(txns));
  }

  lemma {:induction false} CountedKeepRef(cs: seq<Confirmation>, seen: set<Option<string>>, ref: Option<string>)
    requires forall i :: 0 <= i < |cs| ==> cs[i].c.billRef == ref
    ensures forall i :: 0 <= i < |DropRepeated(cs, seen)| ==> DropRepeated(cs, seen)[i].c.billRef == ref
  {
    if |cs| == 0 {
    } else {
      CountedKeepRef(cs[1..], seen, ref);
      CountedKeepRef(cs[1..], seen + {cs[0].c.transId}, ref);
    }
  }

  /** Matching with any number of repeats and already recorded TransIDs mixed in. */
  lemma {:induction false} MatchingWithRepeats(txns: seq<Row>, cs: seq<Confirmation>, ref: Option<string>)
    requires RowsOk(txns) && forall i :: 0 <= i < |cs| ==> cs[i].c.billRef == ref
    ensures Matched(txns, ConfirmAll(txns, cs), Counted(txns, cs), ref)
  {
    OnlyTheCountedCount(txns, cs);
    CountedKeepRef(cs, RecordedIds(txns), ref);
    MatchingIsExact(txns, Counted(txns, cs), ref);
  }

  /** Placing with repeats, recorded TransIDs and other references mixed in, anywhere. */
  lemma {:induction false} PaymentsLandOnce(txns: seq<Row>, cs: seq<Confirmation>, ref: Option<string>)
    requires RowsOk(txns)
    ensures var counted := Counted(txns, cs);
      Placed(txns, ConfirmAll(txns, cs), OfRef(counted, ref), ref, Places(txns, counted, ref))
  {
    OnlyTheCountedCount(txns, cs);
    PlacingIsExact(txns, Counted(txns, cs), ref);
  }

  /** And the exact condition on the amounts likewise. */
  lemma {:induction false} AmountsAgreeIffWithRepeats(txns: seq<Row>, cs: seq<Confirmation>, ref: Option<string>,
                                                      i: nat)
    requires RowsOk(txns) && i < |OfRef(Counted(txns, cs), ref)|
    ensures var r := Places(txns, Counted(txns, cs), ref)[i]; var paid := AmountOf(OfRef(Counted(txns, cs), ref)[i].c);
      && r < |ConfirmAll(txns, cs)|
      && (ConfirmAll(txns, cs)[r].amount == paid <==> r >= |txns| || txns[r].amount == paid)
  {
    OnlyTheCountedCount(txns, cs);
    AmountsAgreeIff(txns, Counted(txns, cs), ref, i);
  }

  /** An empty TransID is never taken for a repeat: processing it always settles or creates a row. */
  lemma EmptyTransIdIsNeverARepeat(txns: seq<Row>, d: Confirmation)
    requires !Truthy(d.c.transId)
    ensures var out := ConfirmTxns(txns, d.c, d.body, d.now);
      |out| == |txns| + 1 || |AwaitingRows(out, d.c.billRef)| < |AwaitingRows(txns, d.c.billRef)|
  {
    ConfirmMatches(txns, d);
  }
}
