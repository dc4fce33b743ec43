/** TokenManager.get_token (django_mpesa/client/auth.py): one caller's path through a cache that
    other callers may change between any two of its operations. */
module TokenCache {
  import opened Models

  const LOCK_TIMEOUT := 10.0
  const LOCK_WAIT_RETRIES: nat := 5
  const LOCK_WAIT_SLEEP := 0.1

  /** The two keys TokenManager uses for the configured ENV. */
  datatype Slot = TokenSlot | LockSlot

  /** When a token was issued, for how long, and when it was put into the cache. */
  datatype Grant = Grant(issuedAt: real, expiresIn: int, storedAt: real)

  /** A cache entry. `setter` (who stored it) and `grant` record the past; the library stores neither. */
  datatype CacheEntry = CacheEntry(value: string, expiry: real, setter: nat, grant: Option<Grant>)

  type Cache = map<Slot, CacheEntry>

  predicate Live(cache: Cache, slot: Slot, now: real) {
    slot in cache && now < cache[slot].expiry
  }

  /** `cache.get` of the token key, with the `if token:` test on what it returns. */
  function ReadToken(cache: Cache, now: real): Option<string> {
    if Live(cache, TokenSlot, now) && cache[TokenSlot].value != "" then Some(cache[TokenSlot].value) else None
  }

  /** `cache.add(lock_key, "1", timeout=10)`: what the caller sees and the cache afterwards. */
  function AddLockTo(cache: Cache, now: real, me: nat): (Op, Cache) {
    if Live(cache, LockSlot, now) then (Refused, cache)
    else (Added(now + LOCK_TIMEOUT), cache[LockSlot := CacheEntry("1", now + LOCK_TIMEOUT, me, None)])
  }

  /** `cache.set(cache_key, token, timeout=ttl)`. */
  function StoreIn(cache: Cache, now: real, me: nat, buffer: int, token: string, grant: Grant): Cache {
    cache[TokenSlot := CacheEntry(token, now + Ttl(grant.expiresIn, buffer) as real, me, Some(grant))]
  }

  /** What `requests.get` on the OAuth endpoint did. `expiresIn` is None when int() rejects it. */
  datatype Http =
    | NoAnswer
    | Answer(status: int, token: Option<string>, expiresIn: Option<int>)

  datatype Fetched = Token(token: string, expiresIn: int) | NoToken

  function Classify(http: Http): (reply: Fetched)
    ensures reply.Token? ==> reply.token != ""
  {
    if http.NoAnswer? || http.status != 200 || http.expiresIn.None? then NoToken
    else if http.token.None? || http.token.value == "" then NoToken
    else Token(http.token.value, http.expiresIn.value)
  }

  /** `max(expires_in - TOKEN_CACHE_TTL_BUFFER, 1)`. */
  function Ttl(expiresIn: int, buffer: int): int {
    if expiresIn - buffer > 1 then expiresIn - buffer else 1
  }

  /** Where a caller of get_token is. `until` is the expiry of the lock it added. */
  datatype Pc =
    | Start
    | Trying(attempt: nat)
    | Waiting(attempt: nat)
    | Holding(until: real)
    | Fetching(until: real)
    | Storing(until: real, token: string, expiresIn: int, issuedAt: real)
    | Leaving(until: real, outcome: Option<string>)
    | Got(token: string)
    | Raised

  /** What one operation on the cache or the OAuth endpoint returned to the caller. */
  datatype Op =
    | Read(token: Option<string>)
    | Added(until: real)
    | Refused
    | Reply(reply: Fetched, at: real)
    | Stored(value: string, expiresIn: int)
    | Unlocked

  /** The caller's next program counter, from what it just saw; None if it does not do that there. */
  function Step(pc: Pc, op: Op): Option<Pc> {
    match (pc, op)
    case (Start, Read(token)) => Some(if token.Some? then Got(token.value) else Trying(0))
    case (Trying(_), Added(until)) => Some(Holding(until))
    case (Trying(attempt), Refused) => Some(Waiting(attempt))
    case (Waiting(attempt), Read(token)) =>
      Some(if token.Some? then Got(token.value)
           else if attempt + 1 < LOCK_WAIT_RETRIES then Trying(attempt + 1)
           else Raised)
    case (Holding(until), Read(token)) => Some(if token.Some? then Leaving(until, token) else Fetching(until))
    case (Fetching(until), Reply(Token(token, expiresIn), at)) => Some(Storing(until, token, expiresIn, at))
    case (Fetching(until), Reply(NoToken, _)) => Some(Leaving(until, None))
    case (Storing(until, token, expiresIn, _), Stored(stored, lifetime)) =>
      if stored == token && lifetime == expiresIn then Some(Leaving(until, Some(token))) else None
    case (Leaving(_, outcome), Unlocked) => Some(if outcome.Some? then Got(outcome.value) else Raised)
    case _ => None
  }

  /** A whole sequence of operations. */
  function Walk(pc: Pc, ops: seq<Op>): Option<Pc> {
    if |ops| == 0 then Some(pc)
    else
      var before := Walk(pc, ops[..|ops| - 1]);
      if before.None? then None else Step(before.value, ops[|ops| - 1])
  }

  predicate Critical(pc: Pc) {
    pc.Holding? || pc.Fetching? || pc.Storing? || pc.Leaving?
  }

  // ----- what every walk of one caller keeps within -----

  function Count(ops: seq<Op>, p: Op -> bool): nat {
    if |ops| == 0 then 0 else Count(ops[..|ops| - 1], p) + if p(ops[|ops| - 1]) then 1 else 0
  }

  function Adds(ops: seq<Op>): nat { Count(ops, (op: Op) => op.Added?) }
  function Refusals(ops: seq<Op>): nat { Count(ops, (op: Op) => op.Refused?) }
  function Fetches(ops: seq<Op>): nat { Count(ops, (op: Op) => op.Reply?) }
  function Stores(ops: seq<Op>): nat { Count(ops, (op: Op) => op.Stored?) }
  function Unlocks(ops: seq<Op>): nat { Count(ops, (op: Op) => op.Unlocked?) }

  predicate LockTaken(ops: seq<Op>) {
    Adds(ops) == 1 && Unlocks(ops) == 0 && Refusals(ops) < LOCK_WAIT_RETRIES
  }

  /** Counters and program counter together. */
  predicate Tally(pc: Pc, ops: seq<Op>) {
    match pc
    case Start =>
      Adds(ops) == 0 && Refusals(ops) == 0 && Fetches(ops) == 0 && Stores(ops) == 0 && Unlocks(ops) == 0
    case Trying(attempt) =>
      attempt < LOCK_WAIT_RETRIES && Refusals(ops) == attempt
      && Adds(ops) == 0 && Fetches(ops) == 0 && Stores(ops) == 0 && Unlocks(ops) == 0
    case Waiting(attempt) =>
      attempt < LOCK_WAIT_RETRIES && Refusals(ops) == attempt + 1
      && Adds(ops) == 0 && Fetches(ops) == 0 && Stores(ops) == 0 && Unlocks(ops) == 0
    case Holding(_) => LockTaken(ops) && Fetches(ops) == 0 && Stores(ops) == 0
    case Fetching(_) => LockTaken(ops) && Fetches(ops) == 0 && Stores(ops) == 0
    case Storing(_, _, _, _) => LockTaken(ops) && Fetches(ops) == 1 && Stores(ops) == 0
    case Leaving(_, outcome) =>
      && LockTaken(ops) && Stores(ops) <= Fetches(ops) <= 1
      && (outcome.None? ==> Stores(ops) == 0 && Fetches(ops) == 1) && (outcome.Some? ==> Stores(ops) == Fetches(ops))
    case Got(_) =>
      && Adds(ops) == Unlocks(ops) <= 1 && Stores(ops) == Fetches(ops) <= Adds(ops)
      && Refusals(ops) <= LOCK_WAIT_RETRIES
    case Raised =>
      && Adds(ops) == Unlocks(ops) <= 1 && Stores(ops) == 0 && Fetches(ops) == Adds(ops)
      && (Adds(ops) == 0 <==> Refusals(ops) == LOCK_WAIT_RETRIES) && Refusals(ops) <= LOCK_WAIT_RETRIES
  }

  /** Every path of a caller: at most five refused locks and one fetch, every lock taken is given
      back, a returned token was stored if it was fetched, and the call raises without having
      stored anything, either after five refusals or after one failed fetch. */
  lemma {:induction false} WalksAreBounded(ops: seq<Op>)
    requires Walk(Start, ops).Some?
    ensures Tally(Walk(Start, ops).value, ops)
    decreases |ops|
  {
    if |ops| == 0 {
    } else {
      WalksAreBounded(ops[..|ops| - 1]);
    }
  }

  // ----- one call, operation by operation -----

  /** Everything outside a call, turn by turn: what the other callers have made of the cache before
      its n-th operation, the time of that operation, and the endpoint's answer if it is the fetch. */
  datatype Env = Env(others: (nat, Cache) -> Cache, clock: nat -> real, endpoint: nat -> Http)

  /** A caller and its surroundings. */
  datatype Caller = Caller(me: nat, buffer: int, env: Env)

  /** The operation a caller performs at its program counter, and the cache afterwards. */
  function Perform(cache: Cache, now: real, me: nat, buffer: int, pc: Pc, reply: Fetched): (Op, Cache) {
    match pc
    case Trying(_) => AddLockTo(cache, now, me)
    case Fetching(_) => (Reply(reply, now), cache)
    case Storing(_, token, expiresIn, issuedAt) =>
      (Stored(token, expiresIn), StoreIn(cache, now, me, buffer, token, Grant(issuedAt, expiresIn, now)))
    case Leaving(_, _) => (Unlocked, cache - {LockSlot})
    case _ => (Read(ReadToken(cache, now)), cache)
  }

  predicate Ended(pc: Pc) {
    pc.Got? || pc.Raised?
  }

  /** A call under way: its program counter, the cache as its last operation left it, and its turn. */
  datatype Call = Call(pc: Pc, cache: Cache, turn: nat)

  /** One operation: the cache it met, when, what it returned, and the cache it left. */
  datatype Access = Access(seen: Cache, now: real, op: Op, after: Cache)

  function NextAccess(c: Caller, call: Call): Access {
    var seen := c.env.others(call.turn, call.cache);
    var now := c.env.clock(call.turn);
    var (op, after) := Perform(seen, now, c.me, c.buffer, call.pc, Classify(c.env.endpoint(call.turn)));
    Access(seen, now, op, after)
  }

  function After(c: Caller, call: Call): Call
    requires !Ended(call.pc)
  {
    var access := NextAccess(c, call);
    Call(Step(call.pc, access.op).value, access.after, call.turn + 1)
  }

  /** The most operations a call may still perform. */
  function OpsLeft(pc: Pc): nat {
    match pc
    case Start => 14
    case Trying(attempt) => 5 + 2 * (if attempt < LOCK_WAIT_RETRIES then LOCK_WAIT_RETRIES - 1 - attempt else 0)
    case Waiting(attempt) => 4 + 2 * (if attempt < LOCK_WAIT_RETRIES then LOCK_WAIT_RETRIES - 1 - attempt else 0)
    case Holding(_) => 4
    case Fetching(_) => 3
    case Storing(_, _, _, _) => 2
    case Leaving(_, _) => 1
    case _ => 0
  }

  /** How a call ends. */
  function Final(c: Caller, call: Call): (end: Call)
    ensures Ended(end.pc) && call.turn <= end.turn <= call.turn + OpsLeft(call.pc)
    decreases OpsLeft(call.pc)
  {
    if Ended(call.pc) then call else Final(c, After(c, call))
  }

  /** An operation on the way does not change how the call ends. */
  lemma Advance(c: Caller, call: Call, next: Call)
    requires !Ended(call.pc) && After(c, call) == next
    ensures Final(c, call) == Final(c, next)
  {
  }

  /** Its operations from here on. The i-th is the one at turn `call.turn + i`. */
  function Trace(c: Caller, call: Call): (trace: seq<Access>)
    ensures |trace| == Final(c, call).turn - call.turn
    decreases OpsLeft(call.pc)
  {
    if Ended(call.pc) then [] else [NextAccess(c, call)] + Trace(c, After(c, call))
  }

  // ----- the imperative form -----

  datatype Result = Ok(token: string) | DarajaAuthError

  /** The program counter a result stands for. */
  function EndOf(result: Result): Pc {
    match result
    case Ok(token) => Got(token)
    case DarajaAuthError => Raised
  }

  /** Where a caller is before an attempt, or after the last. */
  function TryingOrRaised(attempt: nat): Pc {
    if attempt < LOCK_WAIT_RETRIES then Trying(attempt) else Raised
  }

  class TokenManager {
    const buffer: int
    const me: nat
    const env: Env
    var cache: Cache
    var now: real
    var turn: nat

    constructor (buffer: int, me: nat, env: Env, cache: Cache)
      ensures this.buffer == buffer && this.me == me && this.env == env && this.cache == cache && turn == 0
    {
      this.buffer, this.me, this.env, this.cache, turn, now := buffer, me, env, cache, 0, 0.0;
    }

    function Self(): Caller {
      Caller(me, buffer, env)
    }

    /** Time passes and other callers do whatever they like to the cache. */
    method Interfere()
      modifies this`cache, this`now
      ensures cache == env.others(turn, old(cache)) && now == env.clock(turn)
    {
      cache, now := env.others(turn, cache), env.clock(turn);
    }

    method GetCached() returns (token: Option<string>)
      modifies this`turn
      ensures token == ReadToken(cache, now) && turn == old(turn) + 1
    {
      token := ReadToken(cache, now);
      turn := turn + 1;
    }

    /** `cache.add(lock_key, "1", timeout=10)`. */
    method AddLock() returns (acquired: bool)
      modifies this`cache, this`turn
      ensures acquired == !Live(old(cache), LockSlot, now) && turn == old(turn) + 1
      ensures cache == AddLockTo(old(cache), now, me).1
    {
      acquired := !Live(cache, LockSlot, now);
      if acquired {
        cache := cache[LockSlot := CacheEntry("1", now + LOCK_TIMEOUT, me, None)];
      }
      turn := turn + 1;
    }

    /** `_fetch_new_token`, whatever the endpoint does. */
    method FetchNewToken() returns (reply: Fetched)
      modifies this`turn
      ensures reply == Classify(env.endpoint(old(turn))) && turn == old(turn) + 1
    {
      reply := Classify(env.endpoint(turn));
      turn := turn + 1;
    }

    method StoreToken(token: string, expiresIn: int, issuedAt: real)
      modifies this`cache, this`turn
      ensures cache == StoreIn(old(cache), now, me, buffer, token, Grant(issuedAt, expiresIn, now))
      ensures turn == old(turn) + 1
    {
      var ttl := if expiresIn - buffer > 1 then expiresIn - buffer else 1;
      cache := cache[TokenSlot := CacheEntry(token, now + ttl as real, me, Some(Grant(issuedAt, expiresIn, now)))];
      turn := turn + 1;
    }

    /** `cache.delete(lock_key)`, whoever holds it by now. */
    method Unlock()
      modifies this`cache, this`turn
      ensures cache == old(cache) - {LockSlot} && turn == old(turn) + 1
    {
      cache := cache - {LockSlot};
      turn := turn + 1;
    }

    /** `invalidate`. */
    method Invalidate()
      modifies this`cache
      ensures cache == old(cache) - {TokenSlot}
    {
      cache := cache - {TokenSlot};
    }

    /** A call performs, on the cache as the others leave it before each of its operations, the
        caller's program from start to end, and leaves cache and result as that program does. */
    method GetToken() returns (result: Result)
      modifies this`cache, this`now, this`turn
      ensures Call(EndOf(result), cache, turn) == Final(Self(), Call(Start, old(cache), old(turn)))
    {
      ghost var start := Call(Start, cache, turn);
      Interfere();
      var token := GetCached();
      if token.Some? {
        Advance(Self(), start, Call(Got(token.value), cache, turn));
        return Ok(token.value);
      }
      Advance(Self(), start, Call(Trying(0), cache, turn));
      for attempt := 0 to LOCK_WAIT_RETRIES
        invariant Final(Self(), start) == Final(Self(), Call(TryingOrRaised(attempt), cache, turn))
      {
        var done := TryOnce(attempt);
        if done.Some? {
          return done.value;
        }
      }
      result := DarajaAuthError;
    }

    /** One pass of the loop; None if it goes on. */
    method TryOnce(attempt: nat) returns (done: Option<Result>)
      requires attempt < LOCK_WAIT_RETRIES
      modifies this`cache, this`now, this`turn
      ensures Final(Self(), Call(Trying(attempt), old(cache), old(turn))) ==
              Final(Self(), Call(if done.Some? then EndOf(done.value) else TryingOrRaised(attempt + 1), cache, turn))
    {
      ghost var before := Call(Trying(attempt), cache, turn);
      Interfere();
      ghost var until := now + LOCK_TIMEOUT;
      var acquired := AddLock();
      if acquired {
        Advance(Self(), before, Call(Holding(until), cache, turn));
        var result := FetchUnderLock(until);
        return Some(result);
      }
      ghost var waiting := Call(Waiting(attempt), cache, turn);
      Advance(Self(), before, waiting);
      Interfere();  // time.sleep(0.1)
      var token := GetCached();
      done := if token.Some? then Some(Ok(token.value)) else None;
      Advance(Self(), waiting,
              Call(if done.Some? then EndOf(done.value) else TryingOrRaised(attempt + 1), cache, turn));
    }

    /** The slow path proper: fetch, and cache what was fetched. None if the fetch raised. */
    method FetchAndStore(ghost until: real) returns (token: Option<string>)
      modifies this`cache, this`now, this`turn
      ensures Final(Self(), Call(Fetching(until), old(cache), old(turn))) ==
              Final(Self(), Call(Leaving(until, token), cache, turn))
    {
      ghost var before := Call(Fetching(until), cache, turn);
      Interfere();
      var reply := FetchNewToken();
      var issuedAt := now;
      if reply.NoToken? {
        Advance(Self(), before, Call(Leaving(until, None), cache, turn));
        return None;
      }
      ghost var fetched := Call(Storing(until, reply.token, reply.expiresIn, issuedAt), cache, turn);
      Advance(Self(), before, fetched);
      Interfere();
      StoreToken(reply.token, reply.expiresIn, issuedAt);
      token := Some(reply.token);
      Advance(Self(), fetched, Call(Leaving(until, token), cache, turn));
    }

    /** The `try` block: the double check, then the fetch. None if it raised. */
    method ReadOrFetch(ghost until: real) returns (token: Option<string>)
      modifies this`cache, this`now, this`turn
      ensures Final(Self(), Call(Holding(until), old(cache), old(turn))) ==
              Final(Self(), Call(Leaving(until, token), cache, turn))
    {
      ghost var before := Call(Holding(until), cache, turn);
      Interfere();
      token := GetCached();
      if token.Some? {
        Advance(Self(), before, Call(Leaving(until, token), cache, turn));
      } else {
        Advance(Self(), before, Call(Fetching(until), cache, turn));
        token := FetchAndStore(until);
      }
    }

    /** The block with its `finally: cache.delete(lock_key)`. */
    method FetchUnderLock(ghost until: real) returns (result: Result)
      modifies this`cache, this`now, this`turn
      ensures Final(Self(), Call(Holding(until), old(cache), old(turn))) ==
              Final(Self(), Call(EndOf(result), cache, turn))
    {
      var token := ReadOrFetch(until);
      ghost var leaving := Call(Leaving(until, token), cache, turn);
      Interfere();
      Unlock();
      result := if token.Some? then Ok(token.value) else DarajaAuthError;
      Advance(Self(), leaving, Call(EndOf(result), cache, turn));
    }
  }
}
