/** A post and its tokens together: when `post` meets a 401 it invalidates the cached token and calls
    get_token again, on a cache that the other callers use too. */
module Reauthentication {
  import opened Models
  import opened TokenCache
  import C = Client

  // ----- which token a call returns -----

  /** The operation gives the caller this token, out of the cache or from the endpoint. */
  predicate Yields(op: Op, token: string) {
    op == Read(Some(token)) || (op.Reply? && op.reply.Token? && op.reply.token == token)
  }

  /** The token a call has in hand. */
  predicate InHand(pc: Pc, token: string) {
    match pc
    case Storing(_, stored, _, _) => stored == token
    case Leaving(_, outcome) => outcome == Some(token)
    case Got(got) => got == token
    case _ => false
  }

  predicate EmptyHanded(pc: Pc) {
    !pc.Storing? && !pc.Got? && !(pc.Leaving? && pc.outcome.Some?)
  }

  ghost predicate Meets(trace: seq<Access>, token: string) {
    exists n :: 0 <= n < |trace| && Yields(trace[n].op, token)
  }

  /** One operation: it puts a token in hand exactly if it yields it, and a token in hand stays. */
  lemma OperationAndHand(c: Caller, call: TokenCache.Call, token: string)
    requires !Ended(call.pc)
    ensures EmptyHanded(call.pc) ==> (InHand(After(c, call).pc, token) <==> Yields(NextAccess(c, call).op, token))
    ensures !EmptyHanded(call.pc) ==>
              && !EmptyHanded(After(c, call).pc) && !Yields(NextAccess(c, call).op, token)
              && (InHand(After(c, call).pc, token) <==> InHand(call.pc, token))
  {
  }

  lemma MeetsUncons(c: Caller, call: TokenCache.Call, token: string)
    requires !Ended(call.pc)
    ensures Meets(Trace(c, call), token) <==>
              Yields(NextAccess(c, call).op, token) || Meets(Trace(c, After(c, call)), token)
  {
    var trace, rest := Trace(c, call), Trace(c, After(c, call));
    assert trace[0] == NextAccess(c, call) && trace[1..] == rest;
    if n :| 0 <= n < |rest| && Yields(rest[n].op, token) {
      assert trace[n + 1] == rest[n];
    }
    if n :| 0 < n < |trace| && Yields(trace[n].op, token) {
      assert rest[n - 1] == trace[n];
    }
  }

  /** A call with a token in hand returns it and meets no other. */
  lemma {:induction false} FullHandReturns(c: Caller, call: TokenCache.Call, token: string)
    requires !EmptyHanded(call.pc)
    ensures Final(c, call).pc == Got(token) <==> InHand(call.pc, token)
    ensures !Meets(Trace(c, call), token)
    decreases OpsLeft(call.pc)
  {
    if Ended(call.pc) {
    } else {
      OperationAndHand(c, call, token);
      FullHandReturns(c, After(c, call), token);
      MeetsUncons(c, call, token);
    }
  }

  /** A call returns a token exactly if one of its operations yields it. */
  lemma {:induction false} GotIffMet(c: Caller, call: TokenCache.Call, token: string)
    requires EmptyHanded(call.pc)
    ensures Final(c, call).pc == Got(token) <==> Meets(Trace(c, call), token)
    decreases OpsLeft(call.pc)
  {
    if Ended(call.pc) {
    } else {
      var next := After(c, call);
      OperationAndHand(c, call, token);
      MeetsUncons(c, call, token);
      if EmptyHanded(next.pc) {
        GotIffMet(c, next, token);
      } else {
        FullHandReturns(c, next, token);
      }
    }
  }

  // ----- two calls around an invalidation -----

  function TokenOf(pc: Pc): Option<string> {
    if pc.Got? then Some(pc.token) else None
  }

  /** The get_token call after the 401: others have used the cache since the first call ended, then
      `invalidate` has deleted the token. */
  function SecondCall(c: Caller, first: TokenCache.Call): TokenCache.Call {
    var end := Final(c, first);
    TokenCache.Call(Start, c.env.others(end.turn, end.cache) - {TokenSlot}, end.turn + 1)
  }

  /** The post's get_token calls number `k` and `k + 1` are these two. */
  ghost predicate Supplies(c: Caller, first: TokenCache.Call, w: C.World, k: nat) {
    && w.tokens(k) == TokenOf(Final(c, first).pc)
    && w.tokens(k + 1) == TokenOf(Final(c, SecondCall(c, first)).pc)
  }

  /** The exact condition. A request re-sent after the 401 carries the token that was rejected if and
      only if the second call meets that very token: somebody has put it back into the cache after
      the invalidation, or the endpoint hands it out again. */
  lemma ResentTokenIff(c: Caller, first: TokenCache.Call, w: C.World, i: nat, k: nat, h: nat)
    requires first.pc == Start && Supplies(c, first, w, k) && w.tokens(k).Some?
    requires C.Decisive(w, i, w.maxRetries) - i < h < |C.PostSpec(w, i, k).sent|
    ensures C.PostSpec(w, i, k).sent[h] == w.tokens(k).value <==>
              Meets(Trace(c, SecondCall(c, first)), w.tokens(k).value)
  {
    C.ResendsUseTheNewToken(w, i, k, h);
    GotIffMet(c, SecondCall(c, first), w.tokens(k).value);
  }

  // ----- a rejected token that stays out -----

  predicate Clean(cache: Cache, token: string) {
    TokenSlot in cache ==> cache[TokenSlot].value != token
  }

  /** From this turn on nobody puts the token back into a cache without it, and the endpoint does not
      hand it out. */
  ghost predicate StaysOut(env: Env, from: nat, token: string) {
    && (forall t, cache :: from <= t && Clean(cache, token) ==> Clean(env.others(t, cache), token))
    && (forall t :: from <= t && TokenCache.Classify(env.endpoint(t)).Token? ==>
          TokenCache.Classify(env.endpoint(t)).token != token)
  }

  lemma CleanOperation(c: Caller, call: TokenCache.Call, token: string)
    requires !Ended(call.pc) && StaysOut(c.env, call.turn, token) && Clean(call.cache, token) && !InHand(call.pc, token)
    ensures !Yields(NextAccess(c, call).op, token)
    ensures Clean(After(c, call).cache, token) && !InHand(After(c, call).pc, token)
  {
    assert Clean(c.env.others(call.turn, call.cache), token);
  }

  lemma {:induction false} CleanCallMeetsNothing(c: Caller, call: TokenCache.Call, token: string)
    requires StaysOut(c.env, call.turn, token) && Clean(call.cache, token) && !InHand(call.pc, token)
    ensures !Meets(Trace(c, call), token)
    decreases OpsLeft(call.pc)
  {
    if Ended(call.pc) {
    } else {
      CleanOperation(c, call, token);
      CleanCallMeetsNothing(c, After(c, call), token);
      MeetsUncons(c, call, token);
    }
  }

  /** So as long as nobody brings the rejected token back, a post sends it up to the 401 and never
      again, whatever the others do otherwise. */
  lemma RejectedTokenIsSentOnlyBefore(c: Caller, first: TokenCache.Call, w: C.World, i: nat, k: nat, h: nat)
    requires first.pc == Start && Supplies(c, first, w, k) && w.tokens(k).Some?
    requires StaysOut(c.env, SecondCall(c, first).turn, w.tokens(k).value)
    requires h < |C.PostSpec(w, i, k).sent|
    ensures C.PostSpec(w, i, k).sent[h] == w.tokens(k).value <==> h <= C.Decisive(w, i, w.maxRetries) - i
  {
    C.ResendsUseTheNewToken(w, i, k, h);
    if h > C.Decisive(w, i, w.maxRetries) - i {
      ResentTokenIff(c, first, w, i, k, h);
      CleanCallMeetsNothing(c, SecondCall(c, first), w.tokens(k).value);
    }
  }
}
