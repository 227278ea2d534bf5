/** Realtime tokens and connection epochs, backend/app/realtime.py.

  Issuing commits a new epoch to the database and then writes a one-shot token to Redis; redeeming takes the token out
  of Redis and then reads the epoch.  Nothing joins the two stores, and a request may stop between its two writes.
 */
module Realtime {
  import opened Rows

  type SessionId = nat
  type RequestId = nat
  type Token = string

  datatype Grant = Grant(token: Token, session: SessionId, device: string, epoch: nat, expiresAt: int)

  datatype Failure =
    | SessionNotFound | EpochIsStale | NotReserved | StoreUnavailable
    | MissingToken | BindingMismatch | TokenExpired
  datatype Outcome = Granted(grant: Grant) | Refused(failure: Failure)

  datatype Step =
    | CreateSession(session: SessionId)
    | Begin(req: RequestId, session: SessionId, device: string, token: Token, expected: Option<nat>, expiresAt: int)
    | Store(req: RequestId)
    | Consume(req: RequestId, session: SessionId, device: string, token: Token, now: int)
    | ReadEpoch(req: RequestId)
    | Abandon(req: RequestId)
    | Lose(token: Token)

  datatype World = World(
    epochs: map<SessionId, nat>,
    store: map<Token, Grant>,
    issuing: map<RequestId, Grant>,     // committed, not yet in Redis
    redeeming: map<RequestId, Grant>,   // taken out of Redis, epoch not yet read
    redeemed: seq<Grant>,               // history: successful redeems, in the order of their epoch reads
    resumed: seq<(SessionId, nat)>,     // history: resumes that succeeded, with the epoch they named
    drawn: seq<Grant>)                  // history: every committed grant

  const START := World(map[], map[], map[], map[], [], [], [])

  /** The transaction of `issue_realtime_token`, and why it is refused. */
  function RefusedBump(epochs: map<SessionId, nat>, session: SessionId, expected: Option<nat>): Option<Failure> {
    if session !in epochs then Some(SessionNotFound)
    else if expected.Some? && epochs[session] != expected.value then Some(EpochIsStale)
    else None
  }

  /** The checks of `redeem_realtime_token` on the payload it has taken out of Redis. */
  function RefusedPayload(g: Grant, session: SessionId, device: string, now: int): Option<Failure> {
    if g.session != session || g.device != device then Some(BindingMismatch)
    else if g.expiresAt <= now then Some(TokenExpired)
    else None
  }

  function Do(w: World, s: Step): World {
    match s
    case CreateSession(session) => if session in w.epochs then w else w.(epochs := w.epochs[session := 0])
    case Begin(req, session, device, token, expected, expiresAt) =>
      if req in w.issuing || RefusedBump(w.epochs, session, expected).Some? then w
      else
        var g := Grant(token, session, device, w.epochs[session] + 1, expiresAt);
        w.(epochs := w.epochs[session := w.epochs[session] + 1], issuing := w.issuing[req := g], drawn := w.drawn + [g],
           resumed := if expected.Some? then w.resumed + [(session, expected.value)] else w.resumed)
    case Store(req) =>
      if req !in w.issuing then w
      else
        var g := w.issuing[req];
        w.(issuing := w.issuing - {req}, store := if g.token in w.store then w.store else w.store[g.token := g])
    case Consume(req, session, device, token, now) =>
      if req in w.redeeming || token !in w.store then w
      else
        var g := w.store[token];
        var taken := w.(store := w.store - {token});
        if RefusedPayload(g, session, device, now).Some? then taken else taken.(redeeming := w.redeeming[req := g])
    case ReadEpoch(req) =>
      if req !in w.redeeming then w
      else
        var g := w.redeeming[req];
        var done := w.(redeeming := w.redeeming - {req});
        if g.session in w.epochs && w.epochs[g.session] == g.epoch then done.(redeemed := w.redeemed + [g]) else done
    case Abandon(req) => w.(issuing := w.issuing - {req}, redeeming := w.redeeming - {req})
    case Lose(token) => w.(store := w.store - {token})
  }

  function After(steps: seq<Step>): World {
    if steps == [] then START else Do(After(steps[..|steps| - 1]), steps[|steps| - 1])
  }

  // ---------- The invariant: every grant is in one place ----------

  datatype Place = InFlight(req: RequestId) | InStore(token: Token) | InHand(req: RequestId) | Spent(index: nat)

  function At(w: World, p: Place): Option<Grant> {
    match p
    case InFlight(req) => if req in w.issuing then Some(w.issuing[req]) else None
    case InStore(token) => if token in w.store then Some(w.store[token]) else None
    case InHand(req) => if req in w.redeeming then Some(w.redeeming[req]) else None
    case Spent(i) => if i < |w.redeemed| then Some(w.redeemed[i]) else None
  }

  predicate SameEpoch(a: Grant, b: Grant) {
    a.session == b.session && a.epoch == b.epoch
  }

  /** A committed grant never names an epoch that its session has not reached. */
  predicate Bounded(w: World, g: Grant) {
    g.session in w.epochs && g.epoch <= w.epochs[g.session] && g in w.drawn
  }

  ghost predicate OnePlace(w: World) {
    && (forall p :: At(w, p).Some? ==> Bounded(w, At(w, p).value))
    && (forall p, q :: At(w, p).Some? && At(w, q).Some? && p != q ==> !SameEpoch(At(w, p).value, At(w, q).value))
  }

  ghost predicate HistoryOk(w: World) {
    && (forall i :: 0 <= i < |w.drawn| ==> w.drawn[i].session in w.epochs && w.drawn[i].epoch <= w.epochs[w.drawn[i].session])
    && (forall i, j :: 0 <= i < j < |w.drawn| ==> !SameEpoch(w.drawn[i], w.drawn[j]))
    && (forall i :: 0 <= i < |w.resumed| ==> w.resumed[i].0 in w.epochs && w.resumed[i].1 < w.epochs[w.resumed[i].0])
    && (forall i, j :: 0 <= i < j < |w.resumed| && w.resumed[i].0 == w.resumed[j].0 ==> w.resumed[i].1 < w.resumed[j].1)
    && (forall i, j :: 0 <= i < j < |w.redeemed| && w.redeemed[i].session == w.redeemed[j].session ==>
          w.redeemed[i].epoch < w.redeemed[j].epoch)
  }

  ghost predicate Inv(w: World) {
    OnePlace(w) && HistoryOk(w)
  }

  /** Every grant of `w'` was somewhere in `w`, and none was doubled. */
  ghost predicate Moves(w: World, w': World, from: Place, to: Place) {
    && (forall s :: s in w.epochs ==> s in w'.epochs && w.epochs[s] <= w'.epochs[s])
    && (forall g :: g in w.drawn ==> g in w'.drawn)
    && (forall p :: At(w', p).Some? ==>
          if p == to then At(w', p) == At(w, from) else p != from && At(w', p) == At(w, p))
  }

  lemma MovesKeep(w: World, w': World, from: Place, to: Place)
    requires OnePlace(w) && Moves(w, w', from, to)
    ensures OnePlace(w')
  {
    forall p | At(w', p).Some? ensures Bounded(w', At(w', p).value) {
      assert Bounded(w, At(w', p).value);
    }
  }

  lemma BeginKeeps(w: World, s: Step)
    requires Inv(w) && s.Begin?
    ensures Inv(Do(w, s))
  {
    var w' := Do(w, s);
    if w' != w {
      var g := w'.issuing[s.req];
      assert w'.drawn[|w.drawn|] == g;
      forall p | At(w', p).Some? && p != InFlight(s.req)
        ensures At(w', p) == At(w, p) && Bounded(w', At(w', p).value) && !SameEpoch(At(w', p).value, g)
      {
        assert At(w', p) == At(w, p);
        assert Bounded(w, At(w, p).value);
      }
    }
  }

  lemma ReadEpochKeeps(w: World, s: Step)
    requires Inv(w) && s.ReadEpoch? && s.req in w.redeeming
    ensures Inv(Do(w, s))
  {
    var w' := Do(w, s);
    var n := |w.redeemed|;
    MovesKeep(w, w', InHand(s.req), Spent(n));
    forall i | 0 <= i < n && |w'.redeemed| == n + 1 && w.redeemed[i].session == w'.redeemed[n].session
      ensures w.redeemed[i].epoch < w'.redeemed[n].epoch
    {
      assert At(w, Spent(i)) == Some(w.redeemed[i]);
      assert At(w, InHand(s.req)) == Some(w'.redeemed[n]);
    }
  }

  /** Grants may disappear, but none moves. */
  lemma DropsKeep(w: World, w': World)
    requires Inv(w)
    requires forall s :: s in w.epochs ==> s in w'.epochs && w.epochs[s] <= w'.epochs[s]
    requires w' == w.(epochs := w'.epochs, store := w'.store, issuing := w'.issuing, redeeming := w'.redeeming)
    requires forall p :: At(w', p).Some? ==> At(w', p) == At(w, p)
    ensures Inv(w')
  {
    MovesKeep(w, w', Spent(|w.redeemed|), Spent(|w.redeemed|));
  }

  lemma StoreKeeps(w: World, s: Step)
    requires Inv(w) && s.Store? && s.req in w.issuing
    ensures Inv(Do(w, s))
  {
    var w', g := Do(w, s), w.issuing[s.req];
    if g.token in w.store {
      DropsKeep(w, w');
    } else {
      MovesKeep(w, w', InFlight(s.req), InStore(g.token));
    }
  }

  lemma ConsumeKeeps(w: World, s: Step)
    requires Inv(w) && s.Consume? && s.req !in w.redeeming && s.token in w.store
    ensures Inv(Do(w, s))
  {
    var w' := Do(w, s);
    if RefusedPayload(w.store[s.token], s.session, s.device, s.now).Some? {
      DropsKeep(w, w');
    } else {
      MovesKeep(w, w', InStore(s.token), InHand(s.req));
    }
  }

  lemma StepKeeps(w: World, s: Step)
    requires Inv(w)
    ensures Inv(Do(w, s))
  {
    match s
    case CreateSession(_) => DropsKeep(w, Do(w, s));
    case Begin(_, _, _, _, _, _) => BeginKeeps(w, s);
    case Store(req) => if req in w.issuing { StoreKeeps(w, s); }
    case Consume(req, _, _, token, _) => if req !in w.redeeming && token in w.store { ConsumeKeeps(w, s); }
    case ReadEpoch(req) => if req in w.redeeming { ReadEpochKeeps(w, s); }
    case Abandon(_) => DropsKeep(w, Do(w, s));
    case Lose(_) => DropsKeep(w, Do(w, s));
  }

  lemma {:induction false} RunsKeep(steps: seq<Step>)
    ensures Inv(After(steps))
  {
    if steps != [] {
      RunsKeep(steps[..|steps| - 1]);
      StepKeeps(After(steps[..|steps| - 1]), steps[|steps| - 1]);
    }
  }

  // ---------- Theorems over all runs ----------

  /** The token would be accepted now: it is in Redis and its epoch is the session's. */
  predicate IsRedeemable(w: World, token: Token, session: SessionId) {
    && token in w.store && w.store[token].session == session
    && session in w.epochs && w.store[token].epoch == w.epochs[session]
  }

  /** In every state at most one token of a session can still be redeemed, and none while a newer grant is on its way
    to Redis or has been redeemed. */
  lemma OneRedeemableToken(steps: seq<Step>, session: SessionId, a: Token, b: Token)
    requires IsRedeemable(After(steps), a, session) && IsRedeemable(After(steps), b, session)
    ensures a == b
    ensures forall req :: req in After(steps).issuing && After(steps).issuing[req].session == session ==>
              After(steps).issuing[req].epoch < After(steps).epochs[session]
    ensures forall i :: 0 <= i < |After(steps).redeemed| && After(steps).redeemed[i].session == session ==>
              After(steps).redeemed[i].epoch < After(steps).epochs[session]
  {
    RunsKeep(steps);
    var w := After(steps);
    assert At(w, InStore(a)) == Some(w.store[a]) && At(w, InStore(b)) == Some(w.store[b]);
    forall req | req in w.issuing && w.issuing[req].session == session ensures w.issuing[req].epoch < w.epochs[session] {
      assert At(w, InFlight(req)) == Some(w.issuing[req]);
    }
    forall i | 0 <= i < |w.redeemed| && w.redeemed[i].session == session ensures w.redeemed[i].epoch < w.epochs[session] {
      assert At(w, Spent(i)) == Some(w.redeemed[i]);
    }
  }

  /** Successful redeems of a session, in the order in which they read the epoch, have strictly increasing epochs. */
  lemma RedeemedEpochsIncrease(steps: seq<Step>, i: nat, j: nat)
    requires i < j < |After(steps).redeemed| && After(steps).redeemed[i].session == After(steps).redeemed[j].session
    ensures After(steps).redeemed[i].epoch < After(steps).redeemed[j].epoch
  {
    RunsKeep(steps);
  }

  /** No two committed grants share their token; the tokens are 32 random bytes each. */
  ghost predicate DrawsAreFresh(w: World) {
    forall i, j :: 0 <= i < j < |w.drawn| ==> w.drawn[i].token != w.drawn[j].token
  }

  /** Each token redeems at most once. */
  lemma TokenRedeemsOnce(steps: seq<Step>, i: nat, j: nat)
    requires DrawsAreFresh(After(steps)) && i < j < |After(steps).redeemed|
    ensures After(steps).redeemed[i].token != After(steps).redeemed[j].token
  {
    RunsKeep(steps);
    var w := After(steps);
    assert At(w, Spent(i)) == Some(w.redeemed[i]) && At(w, Spent(j)) == Some(w.redeemed[j]);
    assert !SameEpoch(w.redeemed[i], w.redeemed[j]);
    var a :| 0 <= a < |w.drawn| && w.drawn[a] == w.redeemed[i];
    var b :| 0 <= b < |w.drawn| && w.drawn[b] == w.redeemed[j];
  }

  /** Of all resumes of a session that name one previous epoch, at most one succeeds. */
  lemma OneResumePerEpoch(steps: seq<Step>, i: nat, j: nat)
    requires i < |After(steps).resumed| && j < |After(steps).resumed|
    requires After(steps).resumed[i] == After(steps).resumed[j]
    ensures i == j
  {
    RunsKeep(steps);
  }

  /** A token that expires or is lost in Redis, and a request that stops half-way, only take grants away. */
  lemma LostIsLost(w: World, token: Token, req: RequestId)
    ensures Do(w, Lose(token)) == w.(store := w.store - {token})
    ensures Do(w, Abandon(req)) == w.(issuing := w.issuing - {req}, redeeming := w.redeeming - {req})
  {}

  // ---------- One request from start to end ----------

  /** The session exists and stands at the epoch that the caller names, if it names one. */
  predicate MayIssue(epochs: map<SessionId, nat>, session: SessionId, expected: Option<nat>) {
    session in epochs && (expected.Some? ==> expected.value == epochs[session])
  }

  /** In any world, whatever else is under way: an issue, or a resume that names the session's epoch, commits the next
    epoch, and any other commits nothing. */
  lemma IssueIsCommitted(
    w: World, req: RequestId, session: SessionId, device: string, token: Token, expected: Option<nat>, expiresAt: int)
    requires req !in w.issuing
    ensures var w' := Do(w, Begin(req, session, device, token, expected, expiresAt));
            if MayIssue(w.epochs, session, expected) then
              && w'.epochs == w.epochs[session := w.epochs[session] + 1]
              && w'.issuing == w.issuing[req := Grant(token, session, device, w.epochs[session] + 1, expiresAt)]
              && w'.resumed == w.resumed + (if expected.Some? then [(session, w.epochs[session])] else [])
              && w'.store == w.store && w'.redeeming == w.redeeming && w'.redeemed == w.redeemed
            else w' == w
  {}

  /** An issue that nothing interrupts makes its own token the redeemable one and every older token of the session
    useless, also when it resumes. */
  lemma IssueSupersedes(
    steps: seq<Step>, req: RequestId, session: SessionId, device: string, token: Token, expected: Option<nat>, expiresAt: int)
    requires req !in After(steps).issuing && MayIssue(After(steps).epochs, session, expected)
    requires token !in After(steps).store
    ensures var w' := Do(Do(After(steps), Begin(req, session, device, token, expected, expiresAt)), Store(req));
            && IsRedeemable(w', token, session) && w'.store[token].epoch == After(steps).epochs[session] + 1
            && forall t :: IsRedeemable(w', t, session) ==> t == token
  {
    RunsKeep(steps);
    var w := After(steps);
    forall t | t in w.store && w.store[t].session == session ensures w.store[t].epoch <= w.epochs[session] {
      assert At(w, InStore(t)) == Some(w.store[t]);
    }
  }

  // ---------- The two functions, as one caller sees them ----------

  lemma TwoSteps(steps: seq<Step>, s: Step, t: Step)
    ensures After(steps + [s, t]) == Do(Do(After(steps), s), t)
  {
    assert (steps + [s, t])[..|steps| + 1] == steps + [s];
    assert (steps + [s])[..|steps|] == steps;
  }

  lemma CreateIsStep(steps: seq<Step>, session: SessionId)
    ensures After(steps + [CreateSession(session)]) == Do(After(steps), CreateSession(session))
  {
    assert (steps + [CreateSession(session)])[..|steps|] == steps;
  }

  /** Callers that come one after the other.  `steps` is the run that their calls amount to. */
  class TokenService {
    var epochs: map<SessionId, nat>
    var store: map<Token, Grant>
    ghost var steps: seq<Step>

    constructor ()
      ensures Valid() && epochs == map[] && store == map[] && steps == []
    {
      epochs, store, steps := map[], map[], [];
    }

    ghost predicate Valid()
      reads this
    {
      && After(steps).epochs == epochs && After(steps).store == store
      && After(steps).issuing == map[] && After(steps).redeeming == map[]
    }

    method AddSession(session: SessionId)
      requires Valid()
      modifies this
      ensures Valid() && steps == old(steps) + [CreateSession(session)]
      ensures epochs == if session in old(epochs) then old(epochs) else old(epochs)[session := 0]
    {
      CreateIsStep(steps, session);
      if session !in epochs {
        epochs := epochs[session := 0];
      }
      steps := steps + [CreateSession(session)];
    }

    /** `issue_realtime_token`: the steps Begin and Store of a run, or Begin alone when Redis fails, so the epoch stays
      raised.  A granted token is the only redeemable one of its session. */
    method Issue(
      session: SessionId, device: string, token: Token, expected: Option<nat>, expiresAt: int, redisUp: bool)
      returns (r: Outcome)
      requires Valid()
      modifies this
      ensures Valid()
      ensures steps == old(steps)
                + [Begin(0, session, device, token, expected, expiresAt), if redisUp then Store(0) else Abandon(0)]
      ensures r.Granted? <==>
                && session in old(epochs) && (expected == None || expected == Some(old(epochs)[session]))
                && redisUp && token !in old(store)
      ensures r.Granted? ==> r.grant == Grant(token, session, device, After(old(steps)).epochs[session] + 1, expiresAt)
      ensures r.Granted? ==> forall t :: IsRedeemable(After(steps), t, session) <==> t == token
      ensures r.Refused? ==> store == old(store)
      ensures r == Refused(SessionNotFound) <==> session !in old(epochs)
      ensures r == Refused(EpochIsStale) <==>
                session in old(epochs) && expected.Some? && expected.value != old(epochs)[session]
      ensures r.Refused? && MayIssue(old(epochs), session, expected) ==> r.failure == if redisUp then NotReserved else StoreUnavailable
      ensures epochs == if MayIssue(old(epochs), session, expected) then old(epochs)[session := old(epochs)[session] + 1]
                        else old(epochs)
    {
      ghost var before := steps;
      steps := before + [Begin(0, session, device, token, expected, expiresAt), if redisUp then Store(0) else Abandon(0)];
      TwoSteps(before, Begin(0, session, device, token, expected, expiresAt), if redisUp then Store(0) else Abandon(0));
      if session !in epochs {
        return Refused(SessionNotFound);
      }
      if expected.Some? && epochs[session] != expected.value {
        return Refused(EpochIsStale);
      }
      epochs := epochs[session := epochs[session] + 1];
      var g := Grant(token, session, device, epochs[session], expiresAt);
      if !redisUp {
        return Refused(StoreUnavailable);
      }
      if token in store {
        return Refused(NotReserved);
      }
      IssueSupersedes(before, 0, session, device, token, expected, expiresAt);
      store := store[token := g];
      return Granted(g);
    }

    /** `redeem_realtime_token`: the steps Consume and ReadEpoch of a run.  Whatever comes of it, the token is used up. */
    method Redeem(session: SessionId, device: string, token: Token, now: int) returns (r: Outcome)
      requires Valid()
      modifies this`store, this`steps
      ensures Valid()
      ensures steps == old(steps) + [Consume(0, session, device, token, now), ReadEpoch(0)]
      ensures After(steps).redeemed == After(old(steps)).redeemed + if r.Granted? then [r.grant] else []
      ensures store == old(store) - {token}
      ensures r.Granted? <==>
                && IsRedeemable(After(old(steps)), token, session)
                && old(store)[token].device == device && now < old(store)[token].expiresAt
      ensures r.Granted? ==> r.grant == old(store)[token]
      ensures r == Refused(MissingToken) <==> token !in old(store)
      ensures r == Refused(BindingMismatch) <==>
                token in old(store) && !(old(store)[token].session == session && old(store)[token].device == device)
      ensures r == Refused(TokenExpired) <==>
                && token in old(store) && old(store)[token].session == session && old(store)[token].device == device
                && old(store)[token].expiresAt <= now
      ensures r.Refused? ==>
                r.failure in {MissingToken, BindingMismatch, TokenExpired, EpochIsStale}
    {
      ghost var before := steps;
      TwoSteps(before, Consume(0, session, device, token, now), ReadEpoch(0));
      steps := before + [Consume(0, session, device, token, now), ReadEpoch(0)];
      if token !in store {
        return Refused(MissingToken);
      }
      var g := store[token];
      store := store - {token};
      if g.session != session || g.device != device {
        return Refused(BindingMismatch);
      }
      if g.expiresAt <= now {
        return Refused(TokenExpired);
      }
      if session !in epochs || epochs[session] != g.epoch {
        return Refused(EpochIsStale);
      }
      return Granted(g);
    }
  }
}
