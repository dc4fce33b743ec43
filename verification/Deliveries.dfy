/** Sequences of callback deliveries: which one settles a row, and which changes to the sequence
    (duplicates, reorderings, other clock readings) cannot be seen in the final table. */
module Deliveries {
  import opened Models
  import opened Payloads
  import opened Settlement

  datatype Delivery = Delivery(job: Job, body: Body, now: nat)

  predicate AllSound(ds: seq<Delivery>) {
    forall i :: 0 <= i < |ds| ==> ds[i].job.Keyed? && Sound(ds[i].job)
  }

  /** The table after processing the deliveries one after the other. */
  function DeliverAll(txns: seq<Row>, ds: seq<Delivery>): (out: seq<Row>)
    requires AllSound(ds)
    ensures |out| == |txns|
    decreases |ds|
  {
    if |ds| == 0 then txns
    else
      assert AllSound(ds[1..]);
      DeliverAll(Deliver(txns, ds[0].job, ds[0].body, ds[0].now), ds[1..])
  }

  /** First delivery wins, told of one row: the first storable delivery of its key settles it. */
  function SettleFirst(row: Row, ds: seq<Delivery>): Row
    requires AllSound(ds)
  {
    if |ds| == 0 || Terminal(row.status) then row
    else if Matches(row, ds[0].job.key) && Storable(ds[0].job) then Settle(row, ds[0].job, ds[0].body, ds[0].now)
    else
      assert AllSound(ds[1..]);
      SettleFirst(row, ds[1..])
  }

  lemma DeliverAtRow(txns: seq<Row>, d: Delivery, r: nat)
    requires TableOk(txns) && r < |txns| && d.job.Keyed? && Sound(d.job)
    ensures Deliver(txns, d.job, d.body, d.now)[r] == SettleFirst(txns[r], [d])
    ensures TableOk(Deliver(txns, d.job, d.body, d.now))
  {
    var found := Find(txns, d.job.key);
    if Matches(txns[r], d.job.key) {
      FindIsTheOnly(txns, d.job.key, r);
    }
    if found.Some? && !Terminal(txns[found.value].status) && Storable(d.job) {
      SettleKeepsRowOk(txns[found.value], d.job, d.body, d.now);
      UpdateKeepsTableOk(txns, found.value, Settle(txns[found.value], d.job, d.body, d.now));
    }
  }

  lemma SettleFirstUncons(row: Row, ds: seq<Delivery>)
    requires AllSound(ds) && |ds| > 0 && RowOk(row)
    ensures SettleFirst(row, ds) == SettleFirst(SettleFirst(row, [ds[0]]), ds[1..])
  {
  }

  /** Processing a whole sequence settles every row by its own first storable delivery. */
  lemma {:induction false} FirstDeliveryWins(txns: seq<Row>, ds: seq<Delivery>, r: nat)
    requires TableOk(txns) && AllSound(ds) && r < |txns|
    ensures DeliverAll(txns, ds)[r] == SettleFirst(txns[r], ds)
    decreases |ds|
  {
    if |ds| == 0 {
    } else {
      DeliverAtRow(txns, ds[0], r);
      SettleFirstUncons(txns[r], ds);
      FirstDeliveryWins(Deliver(txns, ds[0].job, ds[0].body, ds[0].now), ds[1..], r);
    }
  }

  // ----- reordering -----

  /** The deliveries of one key, in order. */
  function OfKey(ds: seq<Delivery>, key: Key): (out: seq<Delivery>)
    requires AllSound(ds)
    ensures AllSound(out)
  {
    if |ds| == 0 then []
    else
      assert AllSound(ds[1..]);
      var rest := OfKey(ds[1..], key);
      if ds[0].job.key == key then [ds[0]] + rest else rest
  }

  lemma {:induction false} OnlyTheOwnKeyCounts(row: Row, ds: seq<Delivery>, key: Key)
    requires AllSound(ds) && RowOk(row) && Matches(row, key)
    ensures SettleFirst(row, ds) == SettleFirst(row, OfKey(ds, key))
  {
    if |ds| == 0 {
    } else {
      OnlyTheOwnKeyCounts(row, ds[1..], key);
      if ds[0].job.key == key {
        assert OfKey(ds, key)[1..] == OfKey(ds[1..], key);
      }
    }
  }

  lemma {:induction false} UnkeyedRowsStay(row: Row, ds: seq<Delivery>)
    requires AllSound(ds) && forall i :: 0 <= i < |ds| ==> !Matches(row, ds[i].job.key)
    ensures SettleFirst(row, ds) == row
  {
    if |ds| == 0 {
    } else {
      UnkeyedRowsStay(row, ds[1..]);
    }
  }

  /** Order insensitivity: two sequences with the same deliveries in the same order for every key
      give the same table, however the keys are interleaved. */
  lemma InterleavingIsInvisible(txns: seq<Row>, ds: seq<Delivery>, es: seq<Delivery>)
    requires TableOk(txns) && AllSound(ds) && AllSound(es)
    requires forall key :: OfKey(ds, key) == OfKey(es, key)
    ensures DeliverAll(txns, ds) == DeliverAll(txns, es)
  {
    forall r | 0 <= r < |txns|
      ensures DeliverAll(txns, ds)[r] == DeliverAll(txns, es)[r]
    {
      FirstDeliveryWins(txns, ds, r);
      FirstDeliveryWins(txns, es, r);
      if key :| Matches(txns[r], key) {
        OnlyTheOwnKeyCounts(txns[r], ds, key);
        OnlyTheOwnKeyCounts(txns[r], es, key);
      } else {
        UnkeyedRowsStay(txns[r], ds);
        UnkeyedRowsStay(txns[r], es);
      }
    }
  }

  lemma {:induction false} OfKeyConcat(ds: seq<Delivery>, es: seq<Delivery>, key: Key)
    requires AllSound(ds) && AllSound(es)
    ensures AllSound(ds + es) && OfKey(ds + es, key) == OfKey(ds, key) + OfKey(es, key)
  {
    if |ds| == 0 {
      assert ds + es == es;
    } else {
      OfKeyConcat(ds[1..], es, key);
      assert (ds + es)[1..] == ds[1..] + es;
    }
  }

  /** In particular, adjacent deliveries of different keys may be swapped anywhere. */
  lemma SwapIsInvisible(txns: seq<Row>, before: seq<Delivery>, d: Delivery, e: Delivery, after: seq<Delivery>)
    requires TableOk(txns) && AllSound(before + [d, e] + after) && AllSound(before + [e, d] + after)
    requires d.job.Keyed? && e.job.Keyed? && d.job.key != e.job.key
    ensures DeliverAll(txns, before + [d, e] + after) == DeliverAll(txns, before + [e, d] + after)
  {
    var ds, es := before + [d, e] + after, before + [e, d] + after;
    assert AllSound(before) && AllSound(after) && AllSound([d, e]) by {
      assert forall i :: 0 <= i < |before| ==> before[i] == ds[i];
      assert forall i :: 0 <= i < |after| ==> after[i] == ds[|before| + 2 + i];
      assert ds[|before|] == d && ds[|before| + 1] == e;
    }
    forall key
      ensures OfKey(ds, key) == OfKey(es, key)
    {
      OfKeyConcat(before, [d, e], key);
      OfKeyConcat(before + [d, e], after, key);
      OfKeyConcat(before, [e, d], key);
      OfKeyConcat(before + [e, d], after, key);
      OfKeyConcat([d], [e], key);
      OfKeyConcat([e], [d], key);
      assert [d] + [e] == [d, e] && [e] + [d] == [e, d];
    }
    InterleavingIsInvisible(txns, ds, es);
  }

  // ----- duplicates -----

  /** Drop every delivery whose key has had a storable delivery before. */
  function DropRepeats(ds: seq<Delivery>, done: set<Key>): (out: seq<Delivery>)
    requires AllSound(ds)
    ensures AllSound(out)
  {
    if |ds| == 0 then []
    else
      assert AllSound(ds[1..]);
      if ds[0].job.key in done then DropRepeats(ds[1..], done)
      else [ds[0]] + DropRepeats(ds[1..], if Storable(ds[0].job) then done + {ds[0].job.key} else done)
  }

  lemma {:induction false} RepeatsDoNotMatter(row: Row, ds: seq<Delivery>, done: set<Key>)
    requires AllSound(ds) && RowOk(row)
    requires forall key :: key in done && Matches(row, key) ==> Terminal(row.status)
    ensures SettleFirst(row, DropRepeats(ds, done)) == SettleFirst(row, ds)
  {
    if |ds| == 0 || Terminal(row.status) {
    } else {
      var d := ds[0];
      if d.job.key in done {
        RepeatsDoNotMatter(row, ds[1..], done);
      } else {
        var done' := if Storable(d.job) then done + {d.job.key} else done;
        var kept := DropRepeats(ds[1..], done');
        assert ([d] + kept)[1..] == kept;
        if !(Matches(row, d.job.key) && Storable(d.job)) {
          RepeatsDoNotMatter(row, ds[1..], done');
        }
      }
    }
  }

  /** Duplicate insensitivity: repeats of a key that has already had a storable delivery can be
      dropped from any sequence. */
  lemma DuplicatesAreInvisible(txns: seq<Row>, ds: seq<Delivery>)
    requires TableOk(txns) && AllSound(ds)
    ensures DeliverAll(txns, DropRepeats(ds, {})) == DeliverAll(txns, ds)
  {
    forall r | 0 <= r < |txns|
      ensures DeliverAll(txns, DropRepeats(ds, {}))[r] == DeliverAll(txns, ds)[r]
    {
      FirstDeliveryWins(txns, ds, r);
      FirstDeliveryWins(txns, DropRepeats(ds, {}), r);
      RepeatsDoNotMatter(txns[r], ds, {});
    }
  }

  /** Drop every delivery that is not the very first for its key. */
  function FirstOnly(ds: seq<Delivery>, done: set<Key>): (out: seq<Delivery>)
    requires AllSound(ds)
    ensures AllSound(out)
  {
    if |ds| == 0 then []
    else
      assert AllSound(ds[1..]);
      if ds[0].job.key in done then FirstOnly(ds[1..], done)
      else [ds[0]] + FirstOnly(ds[1..], done + {ds[0].job.key})
  }

  /** Delivery `i` is the first of its key. */
  predicate IsFirst(ds: seq<Delivery>, i: nat)
    requires AllSound(ds) && i < |ds|
  {
    forall h :: 0 <= h < i ==> ds[h].job.key != ds[i].job.key
  }

  /** An unsettled row whose first delivery cannot be stored although a later one can. */
  ghost predicate Recovers(row: Row, ds: seq<Delivery>)
    requires AllSound(ds)
  {
    !Terminal(row.status) &&
    exists i, j :: 0 <= i < j < |ds| && RecoversAt(row, ds, i, j)
  }

  predicate RecoversAt(row: Row, ds: seq<Delivery>, i: nat, j: nat)
    requires AllSound(ds) && i < j < |ds|
  {
    && IsFirst(ds, i)
    && Matches(row, ds[i].job.key) && !Storable(ds[i].job)
    && Matches(row, ds[j].job.key) && Storable(ds[j].job)
  }

  lemma {:induction false} SettleFirstIsTerminal(row: Row, ds: seq<Delivery>)
    requires AllSound(ds)
    ensures Terminal(SettleFirst(row, ds).status) <==>
              Terminal(row.status) || exists i :: 0 <= i < |ds| && Matches(row, ds[i].job.key) && Storable(ds[i].job)
    ensures !Terminal(SettleFirst(row, ds).status) ==> SettleFirst(row, ds) == row
  {
    if |ds| == 0 {
    } else {
      SettleFirstIsTerminal(row, ds[1..]);
      if i :| 0 <= i < |ds| && Matches(row, ds[i].job.key) && Storable(ds[i].job) {
        if i > 0 {
          assert ds[1..][i - 1] == ds[i];
        }
      }
    }
  }

  lemma {:induction false} FirstOnlyHasNone(ds: seq<Delivery>, done: set<Key>, key: Key)
    requires AllSound(ds) && key in done
    ensures forall i :: 0 <= i < |FirstOnly(ds, done)| ==> FirstOnly(ds, done)[i].job.key != key
  {
    if |ds| == 0 {
    } else {
      FirstOnlyHasNone(ds[1..], done, key);
      FirstOnlyHasNone(ds[1..], done + {ds[0].job.key}, key);
    }
  }

  /** Whether a row recovers, decided by the first delivery or passed on to the rest. */
  lemma RecoversUncons(row: Row, ds: seq<Delivery>)
    requires AllSound(ds) && |ds| > 0 && RowOk(row) && !Terminal(row.status)
    ensures Matches(row, ds[0].job.key) ==>
              (Recovers(row, ds) <==>
                 !Storable(ds[0].job) &&
                 exists j :: 0 <= j < |ds[1..]| && Matches(row, ds[1..][j].job.key) && Storable(ds[1..][j].job))
    ensures !Matches(row, ds[0].job.key) ==> (Recovers(row, ds) <==> Recovers(row, ds[1..]))
  {
    if Recovers(row, ds) {
      var i, j :| 0 <= i < j < |ds| && RecoversAt(row, ds, i, j);
      assert ds[1..][j - 1] == ds[j];
      if i > 0 {
        assert ds[0].job.key != ds[i].job.key;
        assert ds[1..][i - 1] == ds[i];
        forall h | 0 <= h < i - 1
          ensures ds[1..][h].job.key != ds[i].job.key
        {
          assert ds[1..][h] == ds[h + 1];
        }
        assert RecoversAt(row, ds[1..], i - 1, j - 1);
      }
    }
    if j :| 0 <= j < |ds[1..]| && Matches(row, ds[1..][j].job.key) && Storable(ds[1..][j].job) {
      if Matches(row, ds[0].job.key) && !Storable(ds[0].job) {
        assert RecoversAt(row, ds, 0, j + 1);
      }
    }
    if !Matches(row, ds[0].job.key) && Recovers(row, ds[1..]) {
      var i, j :| 0 <= i < j < |ds[1..]| && RecoversAt(row, ds[1..], i, j);
      forall h | 0 <= h < i + 1
        ensures ds[h].job.key != ds[i + 1].job.key
      {
        if h > 0 {
          assert ds[1..][h - 1] == ds[h];
        }
      }
      assert RecoversAt(row, ds, i + 1, j + 1);
    }
  }

  lemma {:induction false} FirstOnlyAtRow(row: Row, ds: seq<Delivery>, done: set<Key>)
    requires AllSound(ds) && RowOk(row) && forall key :: key in done ==> !Matches(row, key)
    ensures SettleFirst(row, FirstOnly(ds, done)) == SettleFirst(row, ds) <==> !Recovers(row, ds)
  {
    if |ds| == 0 || Terminal(row.status) {
    } else {
      var key := ds[0].job.key;
      RecoversUncons(row, ds);
      if Matches(row, key) {
        var rest := FirstOnly(ds[1..], done + {key});
        assert ([ds[0]] + rest)[1..] == rest;
        FirstOnlyHasNone(ds[1..], done + {key}, key);
        UnkeyedRowsStay(row, rest);
        SettleFirstIsTerminal(row, ds[1..]);
      } else if key in done {
        FirstOnlyAtRow(row, ds[1..], done);
      } else {
        var rest := FirstOnly(ds[1..], done + {key});
        assert ([ds[0]] + rest)[1..] == rest;
        FirstOnlyAtRow(row, ds[1..], done + {key});
      }
    }
  }

  /** Keeping only the very first delivery of each key gives the same table exactly when no
      unsettled row has an unstorable first delivery followed by a storable one. */
  lemma {:induction false} FirstOnlyIsEnoughIff(txns: seq<Row>, ds: seq<Delivery>)
    requires TableOk(txns) && AllSound(ds)
    ensures DeliverAll(txns, FirstOnly(ds, {})) == DeliverAll(txns, ds) <==>
              forall r :: 0 <= r < |txns| ==> !Recovers(txns[r], ds)
  {
    forall r | 0 <= r < |txns|
      ensures DeliverAll(txns, FirstOnly(ds, {}))[r] == DeliverAll(txns, ds)[r] <==> !Recovers(txns[r], ds)
    {
      FirstDeliveryWins(txns, ds, r);
      FirstDeliveryWins(txns, FirstOnly(ds, {}), r);
      FirstOnlyAtRow(txns[r], ds, {});
    }
    if forall r :: 0 <= r < |txns| ==> !Recovers(txns[r], ds) {
      assert forall r :: 0 <= r < |txns| ==> DeliverAll(txns, FirstOnly(ds, {}))[r] == DeliverAll(txns, ds)[r];
    }
  }

  // ----- clocks -----

  function Untimed(row: Row): Row {
    row.(settledAt := if row.settledAt.Some? then Some(0) else None)
  }

  predicate SameButForClocks(ds: seq<Delivery>, es: seq<Delivery>) {
    |ds| == |es| && forall i :: 0 <= i < |ds| ==> ds[i].job == es[i].job && ds[i].body == es[i].body
  }

  lemma {:induction false} ClocksAtRow(row: Row, ds: seq<Delivery>, es: seq<Delivery>)
    requires AllSound(ds) && AllSound(es) && SameButForClocks(ds, es)
    ensures Untimed(SettleFirst(row, ds)) == Untimed(SettleFirst(row, es))
  {
    if |ds| == 0 {
    } else {
      ClocksAtRow(row, ds[1..], es[1..]);
    }
  }

  /** The clock readings show in `settledAt` and nowhere else. */
  lemma {:induction false} ClocksOnlyStampRows(txns: seq<Row>, ds: seq<Delivery>, es: seq<Delivery>, r: nat)
    requires TableOk(txns) && AllSound(ds) && AllSound(es) && SameButForClocks(ds, es) && r < |txns|
    ensures Untimed(DeliverAll(txns, ds)[r]) == Untimed(DeliverAll(txns, es)[r])
  {
    FirstDeliveryWins(txns, ds, r);
    FirstDeliveryWins(txns, es, r);
    ClocksAtRow(txns[r], ds, es);
  }

  // ----- the tasks, one after the other -----

  /** One call of a task: the log it is given and the time. */
  datatype Call = Call(log: nat, now: nat)

  /** The log names an STK or B2C callback. */
  predicate ForKeyed(logs: seq<LogRow>, calls: seq<Call>) {
    forall i :: 0 <= i < |calls| ==> calls[i].log < |logs| && logs[calls[i].log].task != C2bConfirmation
  }

  function RunOne(db: Db, call: Call): Db
    requires call.log < |db.logs|
  {
    RunTask(db, db.logs[call.log].task, call.log, call.now).db
  }

  function RunAll(db: Db, calls: seq<Call>): Db
    requires ForKeyed(db.logs, calls)
    decreases |calls|
  {
    if |calls| == 0 then db
    else
      RunKeepsLogs(db, calls[0]);
      RunAll(RunOne(db, calls[0]), calls[1..])
  }

  /** A log as its task reads it. */
  predicate SameLogs(logs: seq<LogRow>, logs': seq<LogRow>) {
    |logs| == |logs'| && forall k :: 0 <= k < |logs| ==> logs'[k].task == logs[k].task && logs'[k].body == logs[k].body
  }

  lemma KeyedRunKeepsLogs(db: Db, log: nat, job: Job, body: Body, now: nat)
    requires log < |db.logs| && job.Keyed?
    ensures SameLogs(db.logs, RunKeyed(db, log, job, body, now).db.logs)
  {
  }

  lemma ConfirmKeepsLogs(db: Db, log: nat, c: C2bPart, body: Body, now: nat)
    requires log < |db.logs|
    ensures SameLogs(db.logs, RunConfirm(db, log, c, body, now).db.logs)
  {
  }

  lemma RunKeepsLogs(db: Db, call: Call)
    requires call.log < |db.logs|
    ensures SameLogs(db.logs, RunOne(db, call).logs)
  {
    var LogRow(task, body, _, _, _) := db.logs[call.log];
    var parsed := Parse(task, body);
    if parsed.Ready? {
      if parsed.job.Keyed? {
        KeyedRunKeepsLogs(db, call.log, parsed.job, body, call.now);
      } else {
        ConfirmKeepsLogs(db, call.log, parsed.job.c, body, call.now);
      }
    }
  }

  /** The delivery a call amounts to, if its body parses. */
  function DeliveryOf(log: LogRow, now: nat): (ds: seq<Delivery>)
    requires log.task != C2bConfirmation
    ensures AllSound(ds) && |ds| <= 1
  {
    ParseIsSound(log.task, log.body);
    var parsed := Parse(log.task, log.body);
    if parsed.Ready? then [Delivery(parsed.job, log.body, now)] else []
  }

  function DeliveriesOf(logs: seq<LogRow>, calls: seq<Call>): (ds: seq<Delivery>)
    requires ForKeyed(logs, calls)
    ensures AllSound(ds)
  {
    if |calls| == 0 then [] else DeliveryOf(logs[calls[0].log], calls[0].now) + DeliveriesOf(logs, calls[1..])
  }

  lemma {:induction false} DeliveriesReadTasksAndBodies(logs: seq<LogRow>, logs': seq<LogRow>, calls: seq<Call>)
    requires ForKeyed(logs, calls) && SameLogs(logs, logs')
    ensures ForKeyed(logs', calls) && DeliveriesOf(logs', calls) == DeliveriesOf(logs, calls)
  {
    if |calls| == 0 {
    } else {
      DeliveriesReadTasksAndBodies(logs, logs', calls[1..]);
    }
  }

  lemma TaskIsDelivery(db: Db, call: Call)
    requires call.log < |db.logs| && db.logs[call.log].task != C2bConfirmation
    ensures RunOne(db, call).txns == DeliverAll(db.txns, DeliveryOf(db.logs[call.log], call.now))
  {
    var log := db.logs[call.log];
    ParseIsSound(log.task, log.body);
  }

  /** Running STK and B2C tasks one after the other, on any logs in any order and with any
      repetitions, does to the table what delivering their bodies does. */
  lemma {:induction false} TasksAreDeliveries(db: Db, calls: seq<Call>)
    requires ForKeyed(db.logs, calls)
    ensures RunAll(db, calls).txns == DeliverAll(db.txns, DeliveriesOf(db.logs, calls))
    decreases |calls|
  {
    if |calls| == 0 {
    } else {
      var mid := RunOne(db, calls[0]);
      var ds := DeliveryOf(db.logs[calls[0].log], calls[0].now);
      RunKeepsLogs(db, calls[0]);
      TasksAreDeliveries(mid, calls[1..]);
      DeliveriesReadTasksAndBodies(db.logs, mid.logs, calls[1..]);
      TaskIsDelivery(db, calls[0]);
      var rest := DeliveriesOf(db.logs, calls[1..]);
      if |ds| == 0 {
        assert ds + rest == rest;
      } else {
        assert (ds + rest)[1..] == rest;
      }
    }
  }

  // ----- an unstorable first delivery -----

  /** An STK callback for the waiting row with this ResultCode. */
  function StkBody(code: Code): Body {
    Body(Stk(Some("ws_CO_1"), code, Some("desc"), Some([])), NoResult, C2bPart(None, None, None, None))
  }

  function StkLog(code: Code): LogRow {
    LogRow(StkCallback, StkBody(code), None, false, None)
  }

  /** ResultCode "abc" first, then 0. */
  const MIXED := Db([WAITING], [StkLog(Text("abc", None)), StkLog(Num(0))], [])

  const BOTH := [Call(0, 0), Call(1, 0)]

  lemma MixedDeliveries()
    ensures ForKeyed(MIXED.logs, BOTH)
    ensures var ds := DeliveriesOf(MIXED.logs, BOTH);
      && |ds| == 2 && ds[0].job.key == ds[1].job.key == Checkout("ws_CO_1")
      && !Storable(ds[0].job) && Storable(ds[1].job) && StatusFor(ds[1].job) == Success
  {
    assert BOTH[1..] == [Call(1, 0)] && BOTH[1..][1..] == [];
    var first := DeliveryOf(MIXED.logs[0], 0);
    var second := DeliveryOf(MIXED.logs[1], 0);
    assert DeliveriesOf(MIXED.logs, BOTH[1..]) == second + [];
    assert DeliveriesOf(MIXED.logs, BOTH) == first + (second + []);
  }

  lemma WaitingIsOk()
    ensures TableOk(MIXED.txns) && Matches(WAITING, Checkout("ws_CO_1"))
  {
  }

  lemma FirstOfTwo(ds: seq<Delivery>)
    requires AllSound(ds) && |ds| == 2 && ds[0].job.key == ds[1].job.key
    ensures FirstOnly(ds, {}) == [ds[0]]
  {
    var done := {ds[0].job.key};
    assert ds[1..][0].job.key in done && ds[1..][1..] == [];
    assert FirstOnly(ds[1..][1..], done) == [];
    assert FirstOnly(ds[1..], done) == [];
    assert {} + done == done;
  }

  /** Two callbacks for one row, "abc" and then 0: running both tasks settles the row, keeping only
      the first delivery of its key does not. */
  lemma UnstorableFirstDelivery()
    ensures TableOk(MIXED.txns) && ForKeyed(MIXED.logs, BOTH)
    ensures var ds := DeliveriesOf(MIXED.logs, BOTH);
      && RunAll(MIXED, BOTH).txns == DeliverAll(MIXED.txns, ds)
      && DeliverAll(MIXED.txns, FirstOnly(ds, {})) != DeliverAll(MIXED.txns, ds)
      && DeliverAll(MIXED.txns, FirstOnly(ds, {}))[0].status == Pending
      && DeliverAll(MIXED.txns, ds)[0].status == Success
  {
    MixedDeliveries();
    WaitingIsOk();
    var ds := DeliveriesOf(MIXED.logs, BOTH);
    TasksAreDeliveries(MIXED, BOTH);
    FirstDeliveryWins(MIXED.txns, ds, 0);
    FirstDeliveryWins(MIXED.txns, FirstOnly(ds, {}), 0);
    FirstOfTwo(ds);
    assert ds[1..][0] == ds[1];
  }
}
