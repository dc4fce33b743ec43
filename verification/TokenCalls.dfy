/** What one call of get_token does and returns, whatever the other callers do to the cache. */
module TokenCalls {
  import opened Models
  import opened TokenCache

  // ----- a call is a walk of the caller's program -----

  function OpsOf(trace: seq<Access>): (ops: seq<Op>)
    ensures |ops| == |trace|
  {
    if |trace| == 0 then [] else [trace[0].op] + OpsOf(trace[1..])
  }

  lemma TraceUncons(c: Caller, call: Call)
    requires !Ended(call.pc)
    ensures OpsOf(Trace(c, call)) == [NextAccess(c, call).op] + OpsOf(Trace(c, After(c, call)))
  {
    assert Trace(c, call)[1..] == Trace(c, After(c, call));
  }

  lemma WalkSnoc(ops: seq<Op>, op: Op)
    requires Walk(Start, ops).Some?
    ensures Walk(Start, ops + [op]) == Step(Walk(Start, ops).value, op)
  {
    assert (ops + [op])[..|ops|] == ops;
  }

  lemma Regroup(past: seq<Op>, op: Op, rest: seq<Op>)
    ensures past + [op] + rest == past + ([op] + rest)
  {
  }

  lemma {:induction false} TraceIsAWalk(c: Caller, call: Call, past: seq<Op>)
    requires Walk(Start, past) == Some(call.pc)
    ensures Walk(Start, past + OpsOf(Trace(c, call))) == Some(Final(c, call).pc)
    decreases OpsLeft(call.pc)
  {
    if Ended(call.pc) {
      assert past + [] == past;
    } else {
      var op := NextAccess(c, call).op;
      WalkSnoc(past, op);
      TraceIsAWalk(c, After(c, call), past + [op]);
      TraceUncons(c, call);
      Regroup(past, op, OpsOf(Trace(c, After(c, call))));
      Advance(c, call, After(c, call));
    }
  }

  /** Every call ends within fourteen operations, of which at most five are refused locks, one a
      lock, one a fetch; every lock is given back, a fetched and returned token was stored, and the
      call raises, storing nothing, only after five refusals or one failed fetch. */
  lemma CallsAreBounded(c: Caller, cache: Cache, turn: nat)
    ensures var call := Call(Start, cache, turn); var end := Final(c, call); var ops := OpsOf(Trace(c, call));
      && Ended(end.pc) && |ops| == end.turn - turn <= 14
      && Tally(end.pc, ops)
  {
    var ops := OpsOf(Trace(c, Call(Start, cache, turn)));
    TraceIsAWalk(c, Call(Start, cache, turn), []);
    assert [] + ops == ops;
    WalksAreBounded(ops);
  }

  // ----- a returned token is a real one -----

  /** The cache holds this token at this time. */
  predicate Readable(cache: Cache, token: string, time: real) {
    TokenSlot in cache && cache[TokenSlot].value == token && time < cache[TokenSlot].expiry
  }

  /** The cache holds the token from `time` on for one second, or for its lifetime less the buffer if
      that is longer, and not a moment more. */
  ghost predicate HoldsFor(cache: Cache, token: string, time: real, expiresIn: int, buffer: int) {
    forall u: real :: u >= time ==>
      (Readable(cache, token, u) <==> u < time + 1.0 || u < time + (expiresIn - buffer) as real)
  }

  lemma StoreHolds(cache: Cache, time: real, me: nat, buffer: int, token: string, grant: Grant)
    ensures HoldsFor(StoreIn(cache, time, me, buffer, token, grant), token, time, grant.expiresIn, buffer)
  {
  }

  /** A lock that is added is live for ten seconds exactly. */
  lemma LockHolds(cache: Cache, time: real, me: nat, u: real)
    requires !Live(cache, LockSlot, time)
    ensures var (op, after) := AddLockTo(cache, time, me);
      op == Added(time + 10.0) && (Live(after, LockSlot, u) <==> u < time + 10.0)
  {
  }

  /** `cache.get` gives the token the cache holds, unless it is the empty text. */
  lemma ReadsWhatIsHeld(cache: Cache, token: string, time: real)
    ensures ReadToken(cache, time) == Some(token) <==> Readable(cache, token, time) && token != ""
  {
  }

  /** The caller met this token, live, in the cache. */
  predicate CacheHit(access: Access, token: string) {
    Readable(access.seen, token, access.now) && token != ""
  }

  /** At its `i`-th operation the caller got this token from the endpoint. */
  predicate FetchedAt(c: Caller, turn: nat, past: seq<Access>, i: nat, token: string, expiresIn: int) {
    i < |past| && c.env.endpoint(turn + i) == Answer(200, Some(token), Some(expiresIn)) && token != ""
  }

  /** ... and at its `j`-th it cached it, for as long as it may live, and touched nothing else. */
  ghost predicate StoredAt(c: Caller, past: seq<Access>, i: nat, j: nat, token: string, expiresIn: int) {
    && i < j < |past|
    && HoldsFor(past[j].after, token, past[j].now, expiresIn, c.buffer)
    && past[j].after - {TokenSlot} == past[j].seen - {TokenSlot}
  }

  ghost predicate OwnToken(c: Caller, turn: nat, past: seq<Access>, token: string) {
    exists i: nat, j: nat, expiresIn ::
      FetchedAt(c, turn, past, i, token, expiresIn) && StoredAt(c, past, i, j, token, expiresIn)
  }

  ghost predicate Real(c: Caller, turn: nat, past: seq<Access>, token: string) {
    (exists i :: 0 <= i < |past| && CacheHit(past[i], token)) || OwnToken(c, turn, past, token)
  }

  /** What the caller carries at its program counter comes from its operations so far. */
  ghost predicate Backed(c: Caller, turn: nat, past: seq<Access>, pc: Pc) {
    match pc
    case Storing(_, token, expiresIn, issuedAt) =>
      exists i: nat :: FetchedAt(c, turn, past, i, token, expiresIn) && past[i].now == issuedAt
    case Leaving(_, Some(token)) => Real(c, turn, past, token)
    case Got(token) => Real(c, turn, past, token)
    case _ => true
  }

  lemma RealStays(c: Caller, turn: nat, past: seq<Access>, more: seq<Access>, token: string)
    requires Real(c, turn, past, token)
    ensures Real(c, turn, past + more, token)
  {
    var longer := past + more;
    if i :| 0 <= i < |past| && CacheHit(past[i], token) {
      assert CacheHit(longer[i], token);
    } else {
      var i: nat, j: nat, expiresIn :|
        FetchedAt(c, turn, past, i, token, expiresIn) && StoredAt(c, past, i, j, token, expiresIn);
      assert FetchedAt(c, turn, longer, i, token, expiresIn) && StoredAt(c, longer, i, j, token, expiresIn);
    }
  }

  /** A read that finds a token. */
  lemma ReadIsReal(c: Caller, turn: nat, past: seq<Access>, access: Access, token: string)
    requires ReadToken(access.seen, access.now) == Some(token)
    ensures Real(c, turn, past + [access], token)
  {
    assert CacheHit((past + [access])[|past|], token);
  }

  lemma StoreIsReal(c: Caller, turn: nat, past: seq<Access>, access: Access, pc: Pc)
    requires pc.Storing? && Backed(c, turn, past, pc)
    requires access.after == StoreIn(access.seen, access.now, c.me, c.buffer, pc.token,
                                     Grant(pc.issuedAt, pc.expiresIn, access.now))
    ensures Real(c, turn, past + [access], pc.token)
  {
    var i: nat :| FetchedAt(c, turn, past, i, pc.token, pc.expiresIn) && past[i].now == pc.issuedAt;
    var longer := past + [access];
    StoreHolds(access.seen, access.now, c.me, c.buffer, pc.token, Grant(pc.issuedAt, pc.expiresIn, access.now));
    assert FetchedAt(c, turn, longer, i, pc.token, pc.expiresIn);
    assert StoredAt(c, longer, i, |past|, pc.token, pc.expiresIn);
  }

  lemma StepIsBacked(c: Caller, turn: nat, past: seq<Access>, call: Call)
    requires !Ended(call.pc) && Backed(c, turn, past, call.pc) && call.turn == turn + |past|
    ensures Backed(c, turn, past + [NextAccess(c, call)], After(c, call).pc)
  {
    var access := NextAccess(c, call);
    var pc := call.pc;
    if pc.Storing? {
      StoreIsReal(c, turn, past, access, pc);
    } else if pc.Leaving? {
      if pc.outcome.Some? {
        RealStays(c, turn, past, [access], pc.outcome.value);
      }
    } else if pc.Fetching? {
      var reply := Classify(c.env.endpoint(call.turn));
      if reply.Token? {
        assert FetchedAt(c, turn, past + [access], |past|, reply.token, reply.expiresIn);
      }
    } else if ReadToken(access.seen, access.now).Some? {
      ReadIsReal(c, turn, past, access, ReadToken(access.seen, access.now).value);
    }
  }

  lemma TraceCons(c: Caller, past: seq<Access>, call: Call)
    requires !Ended(call.pc)
    ensures past + Trace(c, call) == past + [NextAccess(c, call)] + Trace(c, After(c, call))
  {
  }

  lemma {:induction false} CallIsBacked(c: Caller, turn: nat, past: seq<Access>, call: Call)
    requires Backed(c, turn, past, call.pc) && call.turn == turn + |past|
    ensures Backed(c, turn, past + Trace(c, call), Final(c, call).pc)
    decreases OpsLeft(call.pc)
  {
    if Ended(call.pc) {
      assert past + [] == past;
    } else {
      var access := NextAccess(c, call);
      StepIsBacked(c, turn, past, call);
      CallIsBacked(c, turn, past + [access], After(c, call));
      TraceCons(c, past, call);
    }
  }

  /** A returned token is real: the caller met it live in the cache, or the endpoint answered this very
      call with it and status 200, and the call then cached it for max(expires_in - buffer, 1) seconds. */
  lemma ReturnedTokensAreReal(c: Caller, cache: Cache, turn: nat)
    ensures var call := Call(Start, cache, turn);
      Final(c, call).pc.Got? ==> Real(c, turn, Trace(c, call), Final(c, call).pc.token)
  {
    CallIsBacked(c, turn, [], Call(Start, cache, turn));
    assert [] + Trace(c, Call(Start, cache, turn)) == Trace(c, Call(Start, cache, turn));
  }

  /** A call that meets a token in the cache first thing returns it and does nothing else. */
  lemma HitsAreImmediate(c: Caller, cache: Cache, turn: nat, token: string)
    requires Readable(c.env.others(turn, cache), token, c.env.clock(turn)) && token != ""
    ensures Final(c, Call(Start, cache, turn)) == Call(Got(token), c.env.others(turn, cache), turn + 1)
  {
    var call := Call(Start, cache, turn);
    Advance(c, call, After(c, call));
  }

  /** A fetch succeeds exactly on status 200 with a token that is not empty and a lifetime that int()
      accepts; otherwise the call raises. */
  lemma FetchOutcome(c: Caller, call: Call)
    requires call.pc.Fetching?
    ensures match c.env.endpoint(call.turn)
      case Answer(status, Some(token), Some(_)) =>
        Final(c, call).pc == if status == 200 && token != "" then Got(token) else Raised
      case _ => Final(c, call).pc == Raised
  {
    var stored := After(c, call);
    Advance(c, call, stored);
    Advance(c, stored, After(c, stored));
    if stored.pc.Storing? {
      Advance(c, After(c, stored), After(c, After(c, stored)));
    }
  }

  // ----- callers that wait for another's fetch -----

  /** Turns `from` to `to` of a caller while another one fetches: the token is readable from time
      `stored` on, and the lock is taken before. */
  ghost predicate Awaiting(c: Caller, from: nat, to: nat, stored: real, token: string) {
    && token != ""
    && (forall t, u :: from <= t < u <= to ==> c.env.clock(t) <= c.env.clock(u))
    && forall t, cache :: from <= t <= to ==>
         var seen := c.env.others(t, cache);
         if c.env.clock(t) < stored then Live(seen, LockSlot, c.env.clock(t)) && ReadToken(seen, c.env.clock(t)).None?
         else ReadToken(seen, c.env.clock(t)) == Some(token)
  }

  /** Once the token is there, a caller about to read or lock gets it. */
  lemma TokenIsThere(c: Caller, from: nat, to: nat, stored: real, token: string, call: Call)
    requires Awaiting(c, from, to, stored, token) && from <= call.turn && call.turn + 2 <= to
    requires call.pc.Trying? && c.env.clock(call.turn) >= stored
    ensures Final(c, call).pc == Got(token)
  {
    var seen := c.env.others(call.turn, call.cache);
    var next := After(c, call);
    Advance(c, call, next);
    assert c.env.clock(call.turn) <= c.env.clock(call.turn + 1) <= c.env.clock(call.turn + 2);
    assert ReadToken(c.env.others(next.turn, next.cache), c.env.clock(next.turn)) == Some(token);
    Advance(c, next, After(c, next));
    if next.pc.Holding? {
      Advance(c, After(c, next), After(c, After(c, next)));
    }
  }

  /** From attempt `a` on, a waiting caller gets the token if it is stored by its last read. */
  lemma {:induction false} WaitingFrom(c: Caller, from: nat, to: nat, stored: real, token: string, call: Call)
    requires Awaiting(c, from, to, stored, token) && from <= call.turn
    requires call.pc.Trying? && call.pc.attempt < LOCK_WAIT_RETRIES
    requires to == call.turn + 2 * (LOCK_WAIT_RETRIES - call.pc.attempt)
    ensures Final(c, call).pc == if stored <= c.env.clock(to - 1) then Got(token) else Raised
    decreases LOCK_WAIT_RETRIES - call.pc.attempt
  {
    if c.env.clock(call.turn) >= stored {
      assert c.env.clock(call.turn) <= c.env.clock(to - 1);
      TokenIsThere(c, from, to, stored, token, call);
    } else {
      var waiting := After(c, call);
      assert Live(c.env.others(call.turn, call.cache), LockSlot, c.env.clock(call.turn));
      Advance(c, call, waiting);
      var next := After(c, waiting);
      Advance(c, waiting, next);
      var seen := c.env.others(waiting.turn, waiting.cache);
      assert stored <= c.env.clock(waiting.turn) ==> ReadToken(seen, c.env.clock(waiting.turn)) == Some(token);
      assert waiting.turn < to - 1 ==> c.env.clock(waiting.turn) <= c.env.clock(to - 1);
      if next.pc.Trying? {
        WaitingFrom(c, from, to, stored, token, next);
      }
    }
  }

  /** A caller that finds the cache empty and the lock taken waits for the token of the lock's holder
      exactly until its sixth read; if the token is stored later, the call raises. */
  lemma WaitersGiveUpIff(c: Caller, cache: Cache, turn: nat, stored: real, token: string)
    requires Awaiting(c, turn, turn + 11, stored, token)
    ensures Final(c, Call(Start, cache, turn)).pc == if stored <= c.env.clock(turn + 10) then Got(token) else Raised
  {
    var start := Call(Start, cache, turn);
    var seen := c.env.others(turn, cache);
    var next := After(c, start);
    Advance(c, start, next);
    assert c.env.clock(turn) <= c.env.clock(turn + 10);
    if c.env.clock(turn) >= stored {
      assert ReadToken(seen, c.env.clock(turn)) == Some(token);
    } else {
      assert ReadToken(seen, c.env.clock(turn)).None?;
      WaitingFrom(c, turn, turn + 11, stored, token, next);
    }
  }

  /** Only the sleeps take time: 0.1 seconds between an attempt to lock and the read after it. */
  ghost predicate OnlySleeps(c: Caller, turn: nat) {
    forall a :: 0 <= a < LOCK_WAIT_RETRIES ==>
      && c.env.clock(turn + 2 * a + 1) == c.env.clock(turn + 2 * a)
      && c.env.clock(turn + 2 * a + 2) == c.env.clock(turn + 2 * a + 1) + LOCK_WAIT_SLEEP
  }

  /** "Other concurrent callers wait for the lock then get a cache hit": if only the sleeps take time,
      exactly when the holder has stored its token within half a second of the caller's arrival. */
  lemma HalfASecondOfPatience(c: Caller, cache: Cache, turn: nat, stored: real, token: string)
    requires Awaiting(c, turn, turn + 11, stored, token) && OnlySleeps(c, turn)
    ensures Final(c, Call(Start, cache, turn)).pc == if stored <= c.env.clock(turn) + 0.5 then Got(token) else Raised
  {
    WaitersGiveUpIff(c, cache, turn, stored, token);
    SleepsAddUp(c, turn, LOCK_WAIT_RETRIES);
  }

  lemma {:induction false} SleepsAddUp(c: Caller, turn: nat, n: nat)
    requires OnlySleeps(c, turn) && n <= LOCK_WAIT_RETRIES
    ensures c.env.clock(turn + 2 * n) == c.env.clock(turn) + n as real * LOCK_WAIT_SLEEP
  {
    if n == 0 {
    } else {
      SleepsAddUp(c, turn, n - 1);
      assert c.env.clock(turn + 2 * (n - 1) + 1) == c.env.clock(turn + 2 * (n - 1));
    }
  }
}
