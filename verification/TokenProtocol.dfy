/** Any number of callers of get_token over one cache, with a clock, crashes, rejected tokens and
    concurrent invalidation. */
module TokenProtocol {
  import opened Models
  import opened TokenCache
  import opened Paths

  /** A client: fetching a token, holding one, told by a 401 that it is no good, or gone. */
  datatype Phase =
    | Calling(pc: Pc)                      // inside get_token
    | Refresh(token: string)               // got a 401 for this token; invalidate() is next
    | Over                                 // answered, or raised
    | Crashed(until: Option<real>)         // died; `until` is the expiry of a lock it had added

  /** `rejected` is the token of the first 401, once it has been invalidated. */
  datatype Client = Client(phase: Phase, rejected: Option<string>)

  /** The last five fields record the past: the tokens handed out by the endpoint, how many were
      handed out, how many put into the cache, how many lost in a crash before that, and how often
      a live one left the cache. */
  datatype State = State(
    cache: Cache,
    now: real,
    clients: seq<Client>,
    buffer: int,
    issued: set<string>,
    fetched: nat,
    stored: nat,
    lost: nat,
    removed: nat)

  datatype Label =
    | Enter                              // a new call of get_token
    | Act(i: nat, reply: Fetched)        // its next cache or OAuth operation; `reply` is the endpoint's
    | Rejected(i: nat)                   // 401 for the token it sent
    | Answered(i: nat)                   // any other outcome
    | Refetch(i: nat)                    // invalidate(), then get_token again
    | Invalidate                         // someone else calls invalidate()
    | Crash(i: nat)
    | Tick(d: real)

  predicate IsInitial(s: State) {
    s.cache == map[] && s.clients == [] && s.issued == {} && s.fetched == s.stored == s.lost == s.removed == 0
  }

  predicate Inside(client: Client) {
    client.phase.Calling? && Critical(client.phase.pc)
  }

  predicate IsFetching(client: Client) {
    client.phase.Calling? && client.phase.pc.Fetching?
  }

  predicate IsStoring(client: Client) {
    client.phase.Calling? && client.phase.pc.Storing?
  }

  predicate Enabled(s: State, l: Label) {
    match l
    case Enter => true
    case Act(i, reply) =>
      && i < |s.clients| && s.clients[i].phase.Calling?
      && !s.clients[i].phase.pc.Got? && !s.clients[i].phase.pc.Raised?
      && (reply.Token? ==> reply.token != "")
    case Rejected(i) => i < |s.clients| && s.clients[i].phase.Calling? && s.clients[i].phase.pc.Got?
    case Answered(i) =>
      i < |s.clients| && s.clients[i].phase.Calling? && (s.clients[i].phase.pc.Got? || s.clients[i].phase.pc.Raised?)
    case Refetch(i) => i < |s.clients| && s.clients[i].phase.Refresh?
    case Invalidate => true
    case Crash(i) => i < |s.clients| && !s.clients[i].phase.Over? && !s.clients[i].phase.Crashed?
    case Tick(d) => d >= 0.0
  }

  function Goto(s: State, i: nat, phase: Phase): State
    requires i < |s.clients|
  {
    s.(clients := s.clients[i := s.clients[i].(phase := phase)])
  }

  function ActStep(s: State, i: nat, reply: Fetched): State
    requires Enabled(s, Act(i, reply))
  {
    var pc := s.clients[i].phase.pc;
    var (op, cache) := Perform(s.cache, s.now, i, s.buffer, pc, reply);
    Goto(s, i, Calling(Step(pc, op).value)).(
      cache := cache,
      issued := if pc.Fetching? && reply.Token? then s.issued + {reply.token} else s.issued,
      fetched := if pc.Fetching? && reply.Token? then s.fetched + 1 else s.fetched,
      stored := if pc.Storing? then s.stored + 1 else s.stored)
  }

  /** A cached token leaves the cache when it is deleted or when its time is over. */
  function Removal(was: bool, will: bool): nat {
    if was && !will then 1 else 0
  }

  function DropToken(s: State): State {
    s.(cache := s.cache - {TokenSlot}, removed := s.removed + Removal(Live(s.cache, TokenSlot, s.now), false))
  }

  function Next(s: State, l: Label): State
    requires Enabled(s, l)
  {
    match l
    case Enter => s.(clients := s.clients + [Client(Calling(Start), None)])
    case Act(i, reply) => ActStep(s, i, reply)
    case Rejected(i) =>
      // the second 401 raises instead of refreshing again
      if s.clients[i].rejected.Some? then Goto(s, i, Over) else Goto(s, i, Refresh(s.clients[i].phase.pc.token))
    case Answered(i) => Goto(s, i, Over)
    case Refetch(i) => DropToken(s).(clients := s.clients[i := Client(Calling(Start), Some(s.clients[i].phase.token))])
    case Invalidate => DropToken(s)
    case Crash(i) =>
      Goto(s, i, Crashed(if Inside(s.clients[i]) then Some(s.clients[i].phase.pc.until) else None))
      .(lost := if IsStoring(s.clients[i]) then s.lost + 1 else s.lost)
    case Tick(d) =>
      var was := Live(s.cache, TokenSlot, s.now);
      s.(now := s.now + d, removed := s.removed + Removal(was, Live(s.cache, TokenSlot, s.now + d)))
  }

  ghost predicate IsRun(run: seq<State>, labels: seq<Label>) {
    && |run| == |labels| + 1
    && IsInitial(run[0])
    && forall k {:trigger labels[k]} :: 0 <= k < |labels| ==>
         Enabled(run[k], labels[k]) && run[k + 1] == Next(run[k], labels[k])
  }

  predicate Transition(s: State, l: Label, t: State) {
    Enabled(s, l) && Next(s, l) == t
  }

  /** One act of a client is one operation of the imperative call, in the surroundings it meets at
      this point of the run: same cache left behind, same place in the program afterwards. */
  lemma ActIsOneOperation(s: State, i: nat, c: Caller, call: Call)
    requires c.me == i && c.buffer == s.buffer
    requires c.env.others(call.turn, call.cache) == s.cache && c.env.clock(call.turn) == s.now
    requires Enabled(s, Act(i, Classify(c.env.endpoint(call.turn)))) && s.clients[i].phase == Calling(call.pc)
    ensures !Ended(call.pc)
    ensures var s' := Next(s, Act(i, Classify(c.env.endpoint(call.turn)))); var next := After(c, call);
      && s'.cache == next.cache
      && s'.clients == s.clients[i := s.clients[i].(phase := Calling(next.pc))]
      && next.turn == call.turn + 1
  {
  }

  // ----- hypotheses -----

  /** Every client inside its critical section got there less than LOCK_TIMEOUT seconds ago. */
  ghost predicate InTime(s: State) {
    forall i :: 0 <= i < |s.clients| && Inside(s.clients[i]) ==> s.now < s.clients[i].phase.pc.until
  }

  /** The endpoint hands out this token although it has done so before. */
  predicate Reissues(s: State, l: Label, token: string) {
    && l.Act? && Enabled(s, l) && s.clients[l.i].phase.pc.Fetching?
    && l.reply.Token? && l.reply.token == token && token in s.issued
  }

  // ----- mutual exclusion -----

  /** The lock in the cache is the one this client added. */
  predicate Owns(s: State, i: nat, until: real) {
    LockSlot in s.cache && s.cache[LockSlot].setter == i && s.cache[LockSlot].expiry == until
  }

  /** What the lock entry and a client say about each other. */
  ghost predicate LockAgrees(s: State, i: nat)
    requires i < |s.clients|
  {
    && (Inside(s.clients[i]) ==> Owns(s, i, s.clients[i].phase.pc.until))
    && (s.clients[i].phase.Crashed? && s.clients[i].phase.until.Some? && s.now < s.clients[i].phase.until.value ==>
          Owns(s, i, s.clients[i].phase.until.value))
  }

  /** A live lock was added by a client that is inside, or crashed there. */
  predicate HolderKnown(s: State) {
    Live(s.cache, LockSlot, s.now) ==>
      && s.cache[LockSlot].setter < |s.clients|
      && var client := s.clients[s.cache[LockSlot].setter];
         Inside(client) || (client.phase.Crashed? && client.phase.until == Some(s.cache[LockSlot].expiry))
  }

  ghost predicate Exclusive(s: State) {
    (forall i :: 0 <= i < |s.clients| ==> LockAgrees(s, i)) && HolderKnown(s)
  }

  lemma StepKeepsAgreement(s: State, l: Label, i: nat)
    requires Exclusive(s) && InTime(s) && Enabled(s, l) && i < |Next(s, l).clients|
    ensures LockAgrees(Next(s, l), i)
  {
    if i < |s.clients| {
      assert LockAgrees(s, i);
    }
    if l.Act? && l.i < |s.clients| {
      assert LockAgrees(s, l.i);
    }
  }

  lemma StepKeepsHolder(s: State, l: Label)
    requires Exclusive(s) && InTime(s) && Enabled(s, l)
    ensures HolderKnown(Next(s, l))
  {
    if Live(s.cache, LockSlot, s.now) {
      assert LockAgrees(s, s.cache[LockSlot].setter);
    }
    if l.Act? {
      assert LockAgrees(s, l.i);
    }
  }

  lemma StepKeepsExclusive(s: State, l: Label)
    requires Exclusive(s) && InTime(s) && Enabled(s, l)
    ensures Exclusive(Next(s, l))
  {
    forall i | 0 <= i < |Next(s, l).clients|
      ensures LockAgrees(Next(s, l), i)
    {
      StepKeepsAgreement(s, l, i);
    }
    StepKeepsHolder(s, l);
  }

  lemma {:induction false} RunKeepsExclusive(run: seq<State>, labels: seq<Label>, k: nat)
    requires IsRun(run, labels) && k < |run| && forall j :: 0 <= j < k ==> InTime(run[j])
    ensures Exclusive(run[k])
  {
    if k == 0 {
    } else {
      RunKeepsExclusive(run, labels, k - 1);
      assert Enabled(run[k - 1], labels[k - 1]);
      StepKeepsExclusive(run[k - 1], labels[k - 1]);
    }
  }

  /** Mutual exclusion, as long as every section ends before its own lock expires. */
  lemma MutualExclusion(run: seq<State>, labels: seq<Label>, k: nat, i: nat, j: nat)
    requires IsRun(run, labels) && k < |run| && forall h :: 0 <= h <= k ==> InTime(run[h])
    requires i < |run[k].clients| && j < |run[k].clients| && Inside(run[k].clients[i]) && Inside(run[k].clients[j])
    ensures i == j
  {
    RunKeepsExclusive(run, labels, k);
    assert LockAgrees(run[k], i) && LockAgrees(run[k], j);
  }

  /** A client keeps the lock key in the cache: inside, or crashed there with time left on the lock. */
  ghost predicate Keeps(s: State, i: nat)
    requires i < |s.clients|
  {
    var client := s.clients[i];
    Inside(client) || (client.phase.Crashed? && client.phase.until.Some? && s.now < client.phase.until.value)
  }

  /** The lock key is present exactly while one client keeps it, and never more than one does. */
  lemma LockIsPresentIff(run: seq<State>, labels: seq<Label>, k: nat)
    requires IsRun(run, labels) && k < |run| && forall h :: 0 <= h <= k ==> InTime(run[h])
    ensures Live(run[k].cache, LockSlot, run[k].now) <==> exists i :: 0 <= i < |run[k].clients| && Keeps(run[k], i)
    ensures forall i, j :: 0 <= i < j < |run[k].clients| ==> !(Keeps(run[k], i) && Keeps(run[k], j))
  {
    var s := run[k];
    RunKeepsExclusive(run, labels, k);
    forall i | 0 <= i < |s.clients| && Keeps(s, i)
      ensures Live(s.cache, LockSlot, s.now) && s.cache[LockSlot].setter == i
    {
      assert LockAgrees(s, i);
    }
    if Live(s.cache, LockSlot, s.now) {
      assert Keeps(s, s.cache[LockSlot].setter);
    }
  }

  /** The unconditional delete removes the deleting client's own lock. */
  lemma DeleteRemovesOwnLock(run: seq<State>, labels: seq<Label>, k: nat)
    requires IsRun(run, labels) && k < |labels| && forall h :: 0 <= h <= k ==> InTime(run[h])
    requires labels[k].Act? && var phase := run[k].clients[labels[k].i].phase; phase.Calling? && phase.pc.Leaving?
    ensures Owns(run[k], labels[k].i, run[k].clients[labels[k].i].phase.pc.until)
    ensures LockSlot !in run[k + 1].cache
  {
    assert Enabled(run[k], labels[k]);
    RunKeepsExclusive(run, labels, k);
    assert LockAgrees(run[k], labels[k].i);
  }

  /** When nobody is inside and no crashed client's lock is still running, no lock is present. */
  lemma NoLockRemains(run: seq<State>, labels: seq<Label>, k: nat)
    requires IsRun(run, labels) && k < |run| && forall h :: 0 <= h <= k ==> InTime(run[h])
    requires forall i :: 0 <= i < |run[k].clients| ==> !Keeps(run[k], i)
    ensures !Live(run[k].cache, LockSlot, run[k].now)
  {
    LockIsPresentIff(run, labels, k);
  }

  // ----- how often tokens are stored -----

  predicate TokenLive(s: State) {
    Live(s.cache, TokenSlot, s.now)
  }

  predicate SomeoneStoring(s: State) {
    exists i :: 0 <= i < |s.clients| && IsStoring(s.clients[i])
  }

  /** Every store but the one still in the cache has been removed; every fetch was stored, was lost,
      or is about to be stored; and nobody fetches over a live token. */
  ghost predicate Accounted(s: State) {
    && s.stored == s.removed + (if TokenLive(s) then 1 else 0)
    && s.fetched == s.stored + s.lost + (if SomeoneStoring(s) then 1 else 0)
    && forall i :: 0 <= i < |s.clients| && (IsFetching(s.clients[i]) || IsStoring(s.clients[i])) ==> !TokenLive(s)
  }

  predicate NamedTokens(s: State) {
    && (TokenSlot in s.cache ==> s.cache[TokenSlot].value != "")
    && forall i :: 0 <= i < |s.clients| && IsStoring(s.clients[i]) ==>
         s.clients[i].phase.pc.token != ""
  }

  lemma StepKeepsNamedTokens(s: State, l: Label)
    requires NamedTokens(s) && Enabled(s, l)
    ensures NamedTokens(Next(s, l))
  {
  }

  /** Whoever is inside is the only one. */
  lemma AloneInside(s: State, i: nat, j: nat)
    requires Exclusive(s) && i < |s.clients| && j < |s.clients| && Inside(s.clients[i]) && Inside(s.clients[j])
    ensures i == j
  {
    assert LockAgrees(s, i) && LockAgrees(s, j);
  }

  lemma ActKeepsAccounts(s: State, i: nat, reply: Fetched)
    requires Exclusive(s) && NamedTokens(s) && Accounted(s) && Enabled(s, Act(i, reply))
    ensures Accounted(Next(s, Act(i, reply)))
  {
    var s' := Next(s, Act(i, reply));
    if Inside(s.clients[i]) {
      forall j | 0 <= j < |s.clients| && Inside(s.clients[j])
        ensures j == i
      {
        AloneInside(s, i, j);
      }
      assert SomeoneStoring(s) <==> IsStoring(s.clients[i]);
      assert SomeoneStoring(s') <==> IsStoring(s'.clients[i]);
    } else {
      StoringGoesOn(s, s', i);
    }
  }

  /** A step that neither takes client `i` into nor out of storing. */
  lemma StoringGoesOn(s: State, s': State, i: nat)
    requires |s.clients| <= |s'.clients|
    requires forall j :: 0 <= j < |s'.clients| && j != i ==>
               if j < |s.clients| then s'.clients[j] == s.clients[j] else !IsStoring(s'.clients[j])
    requires i < |s.clients| ==> IsStoring(s'.clients[i]) == IsStoring(s.clients[i])
    requires i >= |s.clients| && i < |s'.clients| ==> !IsStoring(s'.clients[i])
    ensures SomeoneStoring(s') == SomeoneStoring(s)
  {
    if j :| 0 <= j < |s.clients| && IsStoring(s.clients[j]) {
      assert IsStoring(s'.clients[j]);
    }
  }

  lemma CrashKeepsAccounts(s: State, i: nat)
    requires Exclusive(s) && Accounted(s) && Enabled(s, Crash(i))
    ensures Accounted(Next(s, Crash(i)))
  {
    var s' := Next(s, Crash(i));
    if IsStoring(s.clients[i]) {
      forall j | 0 <= j < |s'.clients|
        ensures !IsStoring(s'.clients[j])
      {
        if IsStoring(s'.clients[j]) {
          AloneInside(s, i, j);
        }
      }
    } else {
      StoringGoesOn(s, s', i);
    }
  }

  lemma StepKeepsAccounts(s: State, l: Label)
    requires Exclusive(s) && NamedTokens(s) && Accounted(s) && Enabled(s, l)
    ensures Accounted(Next(s, l))
  {
    match l
    case Act(i, reply) => ActKeepsAccounts(s, i, reply);
    case Crash(i) => CrashKeepsAccounts(s, i);
    case Rejected(i) => StoringGoesOn(s, Next(s, l), i);
    case Answered(i) => StoringGoesOn(s, Next(s, l), i);
    case Refetch(i) => StoringGoesOn(s, Next(s, l), i);
    case _ => StoringGoesOn(s, Next(s, l), |s.clients|);
  }

  lemma {:induction false} RunKeepsAccounts(run: seq<State>, labels: seq<Label>, k: nat)
    requires IsRun(run, labels) && k < |run| && forall j :: 0 <= j < k ==> InTime(run[j])
    ensures Accounted(run[k]) && NamedTokens(run[k])
  {
    if k == 0 {
    } else {
      RunKeepsAccounts(run, labels, k - 1);
      RunKeepsExclusive(run, labels, k - 1);
      assert Enabled(run[k - 1], labels[k - 1]);
      StepKeepsNamedTokens(run[k - 1], labels[k - 1]);
      StepKeepsAccounts(run[k - 1], labels[k - 1]);
    }
  }

  /** The fetch bound, exactly: tokens stored are tokens removed, plus the one in the cache; and
      as long as no crash loses a fetched token, fetches exceed removals by at most one. */
  lemma FetchesAreBounded(run: seq<State>, labels: seq<Label>, k: nat)
    requires IsRun(run, labels) && k < |run| && forall j :: 0 <= j < k ==> InTime(run[j])
    ensures run[k].stored == run[k].removed + (if TokenLive(run[k]) then 1 else 0)
    ensures run[k].fetched <= run[k].removed + run[k].lost + 1
  {
    RunKeepsAccounts(run, labels, k);
  }

  // ----- freshness -----

  /** A cached token's expiry follows from its grant. */
  predicate Granted(s: State) {
    && (TokenSlot in s.cache ==>
          var entry := s.cache[TokenSlot];
          && entry.grant.Some?
          && var Grant(issuedAt, expiresIn, storedAt) := entry.grant.value;
          && issuedAt <= storedAt <= s.now
          && entry.expiry == storedAt + Ttl(expiresIn, s.buffer) as real)
    && forall i :: 0 <= i < |s.clients| && IsStoring(s.clients[i]) ==>
         s.clients[i].phase.pc.issuedAt <= s.now
  }

  lemma StepKeepsGranted(s: State, l: Label)
    requires Granted(s) && Enabled(s, l)
    ensures Granted(Next(s, l))
  {
  }

  lemma {:induction false} RunKeepsGranted(run: seq<State>, labels: seq<Label>, k: nat)
    requires IsRun(run, labels) && k < |run|
    ensures Granted(run[k])
  {
    if k == 0 {
    } else {
      RunKeepsGranted(run, labels, k - 1);
      assert Enabled(run[k - 1], labels[k - 1]);
      StepKeepsGranted(run[k - 1], labels[k - 1]);
    }
  }

  /** Freshness margin: a token read from the cache is still good for more than
      min(buffer, expires_in - 1) seconds, less the delay between issue and store. No hypothesis. */
  lemma CachedTokensAreFresh(run: seq<State>, labels: seq<Label>, k: nat)
    requires IsRun(run, labels) && k < |run| && ReadToken(run[k].cache, run[k].now).Some?
    ensures TokenSlot in run[k].cache && run[k].cache[TokenSlot].grant.Some?
    ensures var Grant(issuedAt, expiresIn, storedAt) := run[k].cache[TokenSlot].grant.value;
      var margin := if run[k].buffer < expiresIn - 1 then run[k].buffer else expiresIn - 1;
      issuedAt + expiresIn as real - run[k].now > margin as real - (storedAt - issuedAt)
  {
    RunKeepsGranted(run, labels, k);
  }

  // ----- how long a stored token is served -----

  /** A step that takes a token out of the cache or puts another in. */
  predicate Replaces(s: State, l: Label)
    requires Enabled(s, l)
  {
    l.Invalidate? || l.Refetch? || (l.Act? && IsStoring(s.clients[l.i]))
  }

  lemma StepKeepsEntry(s: State, l: Label)
    requires Enabled(s, l) && !Replaces(s, l) && TokenSlot in s.cache
    ensures TokenSlot in Next(s, l).cache && Next(s, l).cache[TokenSlot] == s.cache[TokenSlot]
  {
  }

  lemma {:induction false} RunKeepsNamedTokens(run: seq<State>, labels: seq<Label>, k: nat)
    requires IsRun(run, labels) && k < |run|
    ensures NamedTokens(run[k])
  {
    if k == 0 {
    } else {
      RunKeepsNamedTokens(run, labels, k - 1);
      assert Enabled(run[k - 1], labels[k - 1]);
      StepKeepsNamedTokens(run[k - 1], labels[k - 1]);
    }
  }

  /** Steps `i` to `j` of the run leave the cached token alone. */
  ghost predicate Undisturbed(run: seq<State>, labels: seq<Label>, i: nat, j: nat)
    requires IsRun(run, labels) && j <= |labels|
  {
    forall h {:trigger labels[h]} :: i <= h < j ==> Enabled(run[h], labels[h]) && !Replaces(run[h], labels[h])
  }

  lemma {:induction false} EntryStays(run: seq<State>, labels: seq<Label>, i: nat, j: nat)
    requires IsRun(run, labels) && i <= j <= |labels| && Undisturbed(run, labels, i, j)
    requires TokenSlot in run[i].cache
    ensures TokenSlot in run[j].cache && run[j].cache[TokenSlot] == run[i].cache[TokenSlot]
    decreases j - i
  {
    if i == j {
    } else {
      EntryStays(run, labels, i, j - 1);
      assert Enabled(run[j - 1], labels[j - 1]) && !Replaces(run[j - 1], labels[j - 1]);
      StepKeepsEntry(run[j - 1], labels[j - 1]);
    }
  }

  /** The entry a storing client leaves in the cache. */
  lemma StoredEntry(s: State, i: nat, reply: Fetched)
    requires Enabled(s, Act(i, reply)) && IsStoring(s.clients[i])
    ensures var Storing(_, token, expiresIn, _) := s.clients[i].phase.pc; var cache := Next(s, Act(i, reply)).cache;
      && TokenSlot in cache && cache[TokenSlot].value == token
      && forall u: real :: Live(cache, TokenSlot, u) <==>
           u < s.now + 1.0 || u < s.now + (expiresIn - s.buffer) as real
  {
  }

  lemma FirstRead(s: State, i: nat, reply: Fetched)
    requires Enabled(s, Act(i, reply)) && s.clients[i].phase.pc == Start
    requires TokenSlot in s.cache && s.cache[TokenSlot].value != ""
    ensures var t := Next(s, Act(i, reply)); i < |t.clients| && t.fetched == s.fetched && t.cache == s.cache
    ensures Next(s, Act(i, reply)).clients[i].phase ==
            Calling(if Live(s.cache, TokenSlot, s.now) then Got(s.cache[TokenSlot].value) else Trying(0))
  {
  }

  /** The exact lifetime. Client `i` caches a token at step `j`; nobody invalidates or replaces it before
      step `k`, at which a call begins. The call returns that token at once, fetching nothing, if
      and only if it begins within one second of the store, or within expires_in less the buffer. */
  lemma StoredTokenIsServedIff(run: seq<State>, labels: seq<Label>, j: nat, k: nat, c: nat)
    requires IsRun(run, labels) && j < k < |labels|
    requires labels[j].Act? && Enabled(run[j], labels[j]) && IsStoring(run[j].clients[labels[j].i])
    requires Undisturbed(run, labels, j + 1, k)
    requires labels[k].Act? && labels[k].i == c < |run[k].clients| && run[k].clients[c].phase == Calling(Start)
    ensures c < |run[k + 1].clients| && run[k + 1].fetched == run[k].fetched
    ensures var Storing(_, token, expiresIn, _) := run[j].clients[labels[j].i].phase.pc;
      var age := run[k].now - run[j].now;
      run[k + 1].clients[c].phase ==
      Calling(if age < 1.0 || age < (expiresIn - run[j].buffer) as real then Got(token) else Trying(0))
  {
    RunKeepsNamedTokens(run, labels, j);
    StoredEntry(run[j], labels[j].i, labels[j].reply);
    EntryStays(run, labels, j + 1, k);
    assert Enabled(run[k], labels[k]);
    FirstRead(run[k], c, labels[k].reply);
    SameLife(run[j + 1].cache, run[k].cache, run[k].now);
  }

  lemma SameLife(a: Cache, b: Cache, time: real)
    requires TokenSlot in a && TokenSlot in b && a[TokenSlot] == b[TokenSlot]
    ensures Live(a, TokenSlot, time) <==> Live(b, TokenSlot, time)
  {
  }

  // ----- rejected tokens -----

  /** The token a client knows of as a result of get_token. */
  function Known(client: Client): Option<string> {
    match client.phase
    case Calling(Leaving(_, outcome)) => outcome
    case Calling(Got(token)) => Some(token)
    case Refresh(token) => Some(token)
    case _ => None
  }

  /** Client `i` has fetched this token and is about to store it. */
  predicate Stores(s: State, i: nat, token: string)
    requires i < |s.clients|
  {
    IsStoring(s.clients[i]) && s.clients[i].phase.pc.token == token
  }

  predicate InCache(s: State, token: string) {
    TokenSlot in s.cache && s.cache[TokenSlot].value == token
  }

  /** The token, fetched by `i` and not stored yet, is known to nobody else and not cached. */
  ghost predicate Private(s: State, i: nat, token: string) {
    && token in s.issued && !InCache(s, token)
    && forall j :: 0 <= j < |s.clients| ==>
         && Known(s.clients[j]) != Some(token) && s.clients[j].rejected != Some(token)
         && (j != i ==> !Stores(s, j, token))
  }

  /** If the client was told to drop the token, it is out of the cache and not about to be used by it again. */
  ghost predicate Banned(s: State, i: nat, token: string)
    requires i < |s.clients|
  {
    s.clients[i].rejected == Some(token) ==>
      token in s.issued && !InCache(s, token) && Known(s.clients[i]) != Some(token)
  }

  ghost predicate TokenOk(s: State, token: string) {
    && (InCache(s, token) ==> token in s.issued)
    && (forall i :: 0 <= i < |s.clients| && Known(s.clients[i]) == Some(token) ==> token in s.issued)
    && (forall i :: 0 <= i < |s.clients| && Stores(s, i, token) ==> Private(s, i, token))
    && (forall i :: 0 <= i < |s.clients| ==> Banned(s, i, token))
  }

  /** The client goes on storing the token. */
  lemma StepKeepsPrivate(s: State, l: Label, i: nat, token: string)
    requires TokenOk(s, token) && Enabled(s, l) && !Reissues(s, l, token)
    requires i < |s.clients| && Stores(s, i, token) && i < |Next(s, l).clients| && Stores(Next(s, l), i, token)
    ensures Private(Next(s, l), i, token)
  {
    assert Private(s, i, token);
  }

  /** The client has just fetched the token: it had never been handed out. */
  lemma FetchIsPrivate(s: State, l: Label, i: nat, token: string)
    requires TokenOk(s, token) && Enabled(s, l) && !Reissues(s, l, token)
    requires i < |Next(s, l).clients| && Stores(Next(s, l), i, token) && !(i < |s.clients| && Stores(s, i, token))
    ensures Private(Next(s, l), i, token)
  {
    assert l.Act? && l.i == i && IsFetching(s.clients[i]) && token !in s.issued;
    forall j | 0 <= j < |s.clients|
      ensures Known(s.clients[j]) != Some(token) && s.clients[j].rejected != Some(token) && !Stores(s, j, token)
    {
      assert Banned(s, j, token);
    }
  }

  lemma StepKeepsBanned(s: State, l: Label, i: nat, token: string)
    requires TokenOk(s, token) && Enabled(s, l) && i < |Next(s, l).clients|
    ensures Banned(Next(s, l), i, token)
  {
    if i < |s.clients| {
      assert Banned(s, i, token);
    }
    if l.Act? && Stores(s, l.i, token) {
      assert Private(s, l.i, token);
    }
  }

  lemma KnownTokensWereIssued(s: State, l: Label, i: nat, token: string)
    requires TokenOk(s, token) && Enabled(s, l) && i < |Next(s, l).clients|
    requires Known(Next(s, l).clients[i]) == Some(token)
    ensures token in Next(s, l).issued
  {
    if l.Act? && Stores(s, l.i, token) {
      assert Private(s, l.i, token);
    }
  }

  lemma CachedTokensWereIssued(s: State, l: Label, token: string)
    requires TokenOk(s, token) && Enabled(s, l) && InCache(Next(s, l), token)
    ensures token in Next(s, l).issued
  {
    if l.Act? && Stores(s, l.i, token) {
      assert Private(s, l.i, token);
    }
  }

  lemma StepKeepsToken(s: State, l: Label, token: string)
    requires TokenOk(s, token) && Enabled(s, l) && !Reissues(s, l, token)
    ensures TokenOk(Next(s, l), token)
  {
    var s' := Next(s, l);
    forall i | 0 <= i < |s'.clients|
      ensures Banned(s', i, token) && (Stores(s', i, token) ==> Private(s', i, token))
      ensures Known(s'.clients[i]) == Some(token) ==> token in s'.issued
    {
      StepKeepsBanned(s, l, i, token);
      if Stores(s', i, token) {
        if i < |s.clients| && Stores(s, i, token) {
          StepKeepsPrivate(s, l, i, token);
        } else {
          FetchIsPrivate(s, l, i, token);
        }
      }
      if Known(s'.clients[i]) == Some(token) {
        KnownTokensWereIssued(s, l, i, token);
      }
    }
    if InCache(s', token) {
      CachedTokensWereIssued(s, l, token);
    }
  }

  lemma {:induction false} RunKeepsToken(run: seq<State>, labels: seq<Label>, k: nat, token: string)
    requires IsRun(run, labels) && k < |run| && forall j :: 0 <= j < k ==> !Reissues(run[j], labels[j], token)
    ensures TokenOk(run[k], token)
  {
    if k == 0 {
    } else {
      RunKeepsToken(run, labels, k - 1, token);
      assert Enabled(run[k - 1], labels[k - 1]);
      StepKeepsToken(run[k - 1], labels[k - 1], token);
    }
  }

  lemma BannedTokensAreNotGot(s: State, i: nat, token: string)
    requires TokenOk(s, token) && i < |s.clients| && Known(s.clients[i]) == Some(token)
    ensures s.clients[i].rejected != Some(token)
  {
    assert Banned(s, i, token);
  }

  /** Rejected tokens are not reused: what a client gets after a 401 is the rejected token again only
      if the endpoint has handed out that very token twice, whatever it did with others, whatever
      the other clients fetch, cache or invalidate in between, and even when expired locks break
      mutual exclusion. */
  lemma RejectedTokenIsNotReused(run: seq<State>, labels: seq<Label>, k: nat, i: nat)
    requires IsRun(run, labels) && k < |run|
    requires i < |run[k].clients| && run[k].clients[i].phase.Calling? && run[k].clients[i].phase.pc.Got?
    requires run[k].clients[i].rejected == Some(run[k].clients[i].phase.pc.token)
    ensures exists j :: 0 <= j < k && Reissues(run[j], labels[j], run[k].clients[i].phase.pc.token)
  {
    var token := run[k].clients[i].phase.pc.token;
    if forall j :: 0 <= j < k ==> !Reissues(run[j], labels[j], token) {
      RunKeepsToken(run, labels, k, token);
      BannedTokensAreNotGot(run[k], i, token);
    }
  }

  // ----- a token handed out twice -----

  /** Client `i` with another phase, and nothing said about the rest of the state. */
  predicate Moved(s: State, t: State, i: nat, phase: Phase)
    requires i < |s.clients|
  {
    i < |t.clients| && t.clients[i] == s.clients[i].(phase := phase)
  }

  lemma FetchStep(s: State, i: nat, token: string, expiresIn: int) returns (l: Label, t: State)
    requires i < |s.clients| && IsFetching(s.clients[i]) && token != ""
    ensures Enabled(s, l) && Next(s, l) == t
    ensures Moved(s, t, i, Calling(Storing(s.clients[i].phase.pc.until, token, expiresIn, s.now)))
  {
    l := Act(i, Token(token, expiresIn));
    t := Next(s, l);
  }

  lemma StoreStep(s: State, i: nat) returns (l: Label, t: State)
    requires i < |s.clients| && IsStoring(s.clients[i])
    ensures Enabled(s, l) && Next(s, l) == t
    ensures Moved(s, t, i, Calling(Leaving(s.clients[i].phase.pc.until, Some(s.clients[i].phase.pc.token))))
  {
    l := Act(i, NoToken);
    t := Next(s, l);
  }

  lemma UnlockStep(s: State, i: nat, token: string) returns (l: Label, t: State)
    requires i < |s.clients| && s.clients[i].phase.Calling?
    requires s.clients[i].phase.pc.Leaving? && s.clients[i].phase.pc.outcome == Some(token)
    ensures Enabled(s, l) && Next(s, l) == t && Moved(s, t, i, Calling(Got(token)))
  {
    l := Act(i, NoToken);
    t := Next(s, l);
  }

  /** And the endpoint can: whenever a client that was told to drop a token fetches again, an
      endpoint that repeats the token makes the client use it again. */
  lemma RepeatedTokenIsReused(s: State, i: nat, expiresIn: int) returns (t: State)
    requires i < |s.clients| && IsFetching(s.clients[i]) && s.clients[i].rejected.Some?
    requires s.clients[i].rejected.value != ""
    ensures Goes(Transition, s, t) && Moved(s, t, i, Calling(Got(s.clients[i].rejected.value)))
  {
    GoesHere(Transition, s);
    var fetch, storing := FetchStep(s, i, s.clients[i].rejected.value, expiresIn);
    GoesNext(Transition, s, s, fetch, storing);
    var store, leaving := StoreStep(storing, i);
    GoesNext(Transition, s, storing, store, leaving);
    var unlock: Label;
    unlock, t := UnlockStep(leaving, i, s.clients[i].rejected.value);
    GoesNext(Transition, s, leaving, unlock, t);
  }
}
