/** Browser pairing codes and remembered sessions. */
module BrowserSessions {
  import opened Base

  const SESSION_LIFETIME_MS: nat := 15552000000

  type Principal = nat
  type Token = nat
  type Hash = nat

  /** Derives a session's stored identity from a pairing code and the browser's nonce. */
  type SessionFor = (Token, string) -> Hash

  ghost predicate Injective(sessionFor: SessionFor) {
    forall t, n, t', n' :: sessionFor(t, n) == sessionFor(t', n') ==> t == t' && n == n'
  }

  datatype Pairing = Pairing(principal: Principal, expires: int, claimed: Option<Hash>)

  datatype Session = Session(principal: Principal, expires: int)

  datatype Rows = Rows(pairings: map<Token, Pairing>, sessions: map<Hash, Session>)

  datatype Error = InvalidExpiry | AuthenticationFailed | StoreFailure

  // Operations --------------------------------------------------------------

  function LivePairings(pairings: map<Token, Pairing>, now: int): map<Token, Pairing> {
    map t | t in pairings && pairings[t].expires > now :: pairings[t]
  }

  function LiveSessions(sessions: map<Hash, Session>, now: int): map<Hash, Session> {
    map h | h in sessions && sessions[h].expires > now :: sessions[h]
  }

  function Create(r: Rows, token: Token, principal: Principal, expires: int, now: int): Result<Rows, Error> {
    if expires <= now then Err(InvalidExpiry)
    else if token in LivePairings(r.pairings, now) then Err(StoreFailure)
    else Ok(r.(pairings := LivePairings(r.pairings, now)[token := Pairing(principal, expires, None)]))
  }

  /** A code admits one session; a retry finds it, unless it has ended. */
  function Redeem(r: Rows, token: Token, session: Hash, now: int): Result<(Rows, int), Error> {
    if token !in r.pairings || r.pairings[token].expires <= now then Err(AuthenticationFailed)
    else
      var pairing := r.pairings[token];
      match pairing.claimed
      case Some(claimed) =>
        if claimed != session || session !in r.sessions || r.sessions[session].principal != pairing.principal
          || r.sessions[session].expires <= now then Err(AuthenticationFailed)
        else Ok((r, r.sessions[session].expires))
      case None =>
        var kept := LiveSessions(r.sessions, now);
        if session in kept then Err(StoreFailure)
        else
          var expires := now + SESSION_LIFETIME_MS;
          Ok((Rows(r.pairings[token := pairing.(claimed := Some(session))],
                   kept[session := Session(pairing.principal, expires)]),
              expires))
  }

  predicate Live(r: Rows, session: Hash, now: int) {
    session in r.sessions && r.sessions[session].expires > now
  }

  /** A live session renews once less than half its lifetime is left. */
  function Authenticate(r: Rows, session: Hash, now: int): (Rows, Option<Session>) {
    if !Live(r, session, now) then (r, None)
    else
      var found := r.sessions[session];
      var renewed :=
        if found.expires - now < SESSION_LIFETIME_MS / 2 then found.(expires := now + SESSION_LIFETIME_MS) else found;
      (r.(sessions := r.sessions[session := renewed]), Some(renewed))
  }

  function Logout(r: Rows, session: Hash): Rows {
    r.(sessions := r.sessions - {session})
  }

  function Revoke(r: Rows, principal: Principal): Rows {
    Rows(map t | t in r.pairings && r.pairings[t].principal != principal :: r.pairings[t],
         map h | h in r.sessions && r.sessions[h].principal != principal :: r.sessions[h])
  }

  class IdentityStore {
    var pairings: map<Token, Pairing>
    var sessions: map<Hash, Session>

    function State(): Rows
      reads this
    {
      Rows(pairings, sessions)
    }

    constructor ()
      ensures State() == Rows(map[], map[])
    {
      pairings, sessions := map[], map[];
    }

    method CreatePairing(token: Token, principal: Principal, expires: int, now: int) returns (failed: Option<Error>)
      modifies this`pairings
      ensures failed.None? ==> Create(old(State()), token, principal, expires, now) == Ok(State())
      ensures failed.Some? ==>
        Create(old(State()), token, principal, expires, now) == Err(failed.value) && State() == old(State())
    {
      if expires <= now {
        return Some(InvalidExpiry);
      }
      var kept := LivePairings(pairings, now);
      if token in kept {
        return Some(StoreFailure);
      }
      pairings := kept[token := Pairing(principal, expires, None)];
      return None;
    }

    method RedeemPairing(token: Token, session: Hash, now: int) returns (expires: Result<int, Error>)
      modifies this
      ensures expires.Ok? ==> Redeem(old(State()), token, session, now) == Ok((State(), expires.value))
      ensures expires.Err? ==> Redeem(old(State()), token, session, now) == Err(expires.error) && State() == old(State())
    {
      if token !in pairings || pairings[token].expires <= now {
        return Err(AuthenticationFailed);
      }
      var pairing := pairings[token];
      if pairing.claimed.Some? {
        if pairing.claimed.value != session || session !in sessions || sessions[session].principal != pairing.principal
          || sessions[session].expires <= now {
          return Err(AuthenticationFailed);
        }
        return Ok(sessions[session].expires);
      }
      var kept := LiveSessions(sessions, now);
      if session in kept {
        return Err(StoreFailure);
      }
      sessions := kept[session := Session(pairing.principal, now + SESSION_LIFETIME_MS)];
      pairings := pairings[token := pairing.(claimed := Some(session))];
      return Ok(now + SESSION_LIFETIME_MS);
    }

    method AuthenticateSession(session: Hash, now: int) returns (found: Option<Session>)
      modifies this`sessions
      ensures (State(), found) == Authenticate(old(State()), session, now)
    {
      if session !in sessions || sessions[session].expires <= now {
        return None;
      }
      if sessions[session].expires - now < SESSION_LIFETIME_MS / 2 {
        sessions := sessions[session := sessions[session].(expires := now + SESSION_LIFETIME_MS)];
      }
      found := Some(sessions[session]);
      assert old(sessions)[session := sessions[session]] == sessions;
    }

    method LogoutSession(session: Hash)
      modifies this`sessions
      ensures State() == Logout(old(State()), session)
    {
      sessions := sessions - {session};
    }

    method RevokePrincipal(principal: Principal)
      modifies this
      ensures State() == Revoke(old(State()), principal)
    {
      sessions := map h | h in sessions && sessions[h].principal != principal :: sessions[h];
      pairings := map t | t in pairings && pairings[t].principal != principal :: pairings[t];
    }
  }

  // Runs --------------------------------------------------------------------

  /** `clock` is the latest time any transaction carried, `issued` holds every code
      created, `admitted` every session ever inserted, and `redeemed` every code with a
      session it admitted or confirmed. */
  datatype World = World(
    rows: Rows, clock: int, issued: set<Token>, admitted: set<Hash>, redeemed: set<(Token, Hash)>)

  datatype Input =
    | CreateAt(token: Token, principal: Principal, expires: int, now: int)
    | RedeemAt(token: Token, nonce: string, now: int)
    | AuthenticateAt(session: Hash, now: int)
    | LogoutAt(session: Hash, now: int)
    | RevokeAt(principal: Principal, now: int)

  /** Codes are random, so a created one was never issued. The clock is read before the
      transaction, so a transaction may carry an earlier time than one before it. */
  function Step(sessionFor: SessionFor, w: World, input: Input): Option<World> {
    var at := w.(clock := if input.now < w.clock then w.clock else input.now);
    match input
    case CreateAt(token, principal, expires, now) =>
      if token in w.issued then None
      else
        var created := Create(w.rows, token, principal, expires, now);
        if created.Err? then Some(at) else Some(at.(rows := created.value, issued := w.issued + {token}))
    case RedeemAt(token, nonce, now) =>
      var session := sessionFor(token, nonce);
      var redeemed := Redeem(w.rows, token, session, now);
      if redeemed.Err? then Some(at)
      else
        Some(at.(rows := redeemed.value.0, admitted := w.admitted + {session}, redeemed := w.redeemed + {(token, session)}))
    case AuthenticateAt(session, now) => Some(at.(rows := Authenticate(w.rows, session, now).0))
    case LogoutAt(session, _) => Some(at.(rows := Logout(w.rows, session)))
    case RevokeAt(principal, _) => Some(at.(rows := Revoke(w.rows, principal)))
  }

  const EMPTY := World(Rows(map[], map[]), 0, {}, {}, {})

  function Run(sessionFor: SessionFor, inputs: seq<Input>): Option<World> {
    if inputs == [] then Some(EMPTY)
    else
      match Run(sessionFor, inputs[..|inputs| - 1])
      case None => None
      case Some(w) => Step(sessionFor, w, inputs[|inputs| - 1])
  }

  // What every run keeps ----------------------------------------------------

  ghost predicate FromIssued(sessionFor: SessionFor, w: World, session: Hash) {
    exists token, nonce :: token in w.issued && session == sessionFor(token, nonce) && !Unclaimed(w, token)
  }

  predicate Unclaimed(w: World, token: Token) {
    token in w.rows.pairings && w.rows.pairings[token].claimed.None?
  }

  ghost predicate Inv(sessionFor: SessionFor, w: World) {
    && (forall token | token in w.rows.pairings :: token in w.issued)
    && (forall session | session in w.rows.sessions :: session in w.admitted)
    && (forall session | session in w.admitted :: FromIssued(sessionFor, w, session))
    && (forall token, session | (token, session) in w.redeemed ::
          token in w.issued && (token in w.rows.pairings ==> w.rows.pairings[token].claimed == Some(session)))
    && (forall token, a, b | (token, a) in w.redeemed && (token, b) in w.redeemed :: a == b)
  }

  lemma ClaimsStay(sessionFor: SessionFor, w: World, w': World, session: Hash)
    requires FromIssued(sessionFor, w, session) && w.issued <= w'.issued
    requires forall token | token in w.issued && Unclaimed(w', token) :: Unclaimed(w, token)
    ensures FromIssued(sessionFor, w', session)
  {
    var token, nonce :| token in w.issued && session == sessionFor(token, nonce) && !Unclaimed(w, token);
    assert token in w'.issued && !Unclaimed(w', token);
  }

  lemma RedeemKeeps(sessionFor: SessionFor, w: World, token: Token, nonce: string, now: int)
    requires Injective(sessionFor) && Inv(sessionFor, w)
    ensures Inv(sessionFor, Step(sessionFor, w, RedeemAt(token, nonce, now)).value)
    ensures var session := sessionFor(token, nonce);
      var redeemed := Redeem(w.rows, token, session, now);
      redeemed.Ok? && w.rows.pairings[token].claimed.None? ==> session !in w.admitted
  {
    var session := sessionFor(token, nonce);
    var redeemed := Redeem(w.rows, token, session, now);
    if redeemed.Ok? {
      var w' := Step(sessionFor, w, RedeemAt(token, nonce, now)).value;
      if session in w.admitted {
        var t, n :| t in w.issued && session == sessionFor(t, n) && !Unclaimed(w, t);
        assert t == token;
      }
      forall other | other in w'.admitted ensures FromIssued(sessionFor, w', other) {
        if other in w.admitted {
          ClaimsStay(sessionFor, w, w', other);
        } else {
          assert token in w'.issued && other == sessionFor(token, nonce) && !Unclaimed(w', token);
        }
      }
    }
  }

  lemma StepKeepsInv(sessionFor: SessionFor, w: World, input: Input)
    requires Injective(sessionFor) && Inv(sessionFor, w) && Step(sessionFor, w, input).Some?
    ensures Inv(sessionFor, Step(sessionFor, w, input).value)
  {
    var w' := Step(sessionFor, w, input).value;
    if input.RedeemAt? {
      RedeemKeeps(sessionFor, w, input.token, input.nonce, input.now);
    } else {
      forall session | session in w'.admitted ensures FromIssued(sessionFor, w', session) {
        ClaimsStay(sessionFor, w, w', session);
      }
    }
  }

  lemma {:induction false} RunKeepsInv(sessionFor: SessionFor, inputs: seq<Input>)
    requires Injective(sessionFor) && Run(sessionFor, inputs).Some?
    ensures Inv(sessionFor, Run(sessionFor, inputs).value)
  {
    if inputs != [] {
      RunKeepsInv(sessionFor, inputs[..|inputs| - 1]);
      StepKeepsInv(sessionFor, Run(sessionFor, inputs[..|inputs| - 1]).value, inputs[|inputs| - 1]);
    }
  }

  /** One pairing code admits at most one session identity, over all retries. */
  lemma OneSessionPerCode(sessionFor: SessionFor, inputs: seq<Input>, token: Token, a: Hash, b: Hash)
    requires Injective(sessionFor) && Run(sessionFor, inputs).Some?
    requires (token, a) in Run(sessionFor, inputs).value.redeemed && (token, b) in Run(sessionFor, inputs).value.redeemed
    ensures a == b
  {
    RunKeepsInv(sessionFor, inputs);
  }

  // Ended sessions ----------------------------------------------------------

  lemma RunSnoc(sessionFor: SessionFor, inputs: seq<Input>, input: Input)
    requires Run(sessionFor, inputs).Some?
    ensures Run(sessionFor, inputs + [input]) == Step(sessionFor, Run(sessionFor, inputs).value, input)
  {
    assert (inputs + [input])[..|inputs|] == inputs;
  }

  /** An admitted session whose row was removed. */
  predicate Removed(w: World, session: Hash) {
    session in w.admitted && session !in w.rows.sessions
  }

  /** Whatever times transactions carry, a session that was logged out, revoked or cleaned
      up never gets a row again. */
  lemma {:induction false} RemovedStaysRemoved(sessionFor: SessionFor, before: seq<Input>, after: seq<Input>, session: Hash)
    requires Injective(sessionFor) && Run(sessionFor, before).Some? && Run(sessionFor, before + after).Some?
    requires Removed(Run(sessionFor, before).value, session)
    ensures Removed(Run(sessionFor, before + after).value, session)
    decreases |after|
  {
    if after == [] {
      assert before + after == before;
    } else {
      var most, last := after[..|after| - 1], after[|after| - 1];
      assert before + after == (before + most) + [last] && (before + after)[..|before + after| - 1] == before + most;
      RemovedStaysRemoved(sessionFor, before, most, session);
      RunKeepsInv(sessionFor, before + most);
      if session in Run(sessionFor, before + after).value.rows.sessions {
        GoneStaysGone(sessionFor, Run(sessionFor, before + most).value, last, session);
      }
    }
  }

  /** A session that was admitted and is not live any more. */
  predicate Over(w: World, session: Hash) {
    session in w.admitted && !Live(w.rows, session, w.clock)
  }

  /** An expired session is looked up with a time from before its expiry, and renewed
      past the present. */
  predicate Revives(w: World, input: Input, session: Hash) {
    && input.AuthenticateAt? && input.session == session && Live(w.rows, session, input.now)
    && w.rows.sessions[session].expires - input.now < SESSION_LIFETIME_MS / 2
    && input.now + SESSION_LIFETIME_MS > w.clock
  }

  /** A step makes an ended session live again exactly when it revives it. */
  lemma StepRevivesExactly(sessionFor: SessionFor, w: World, input: Input, session: Hash)
    requires Injective(sessionFor) && Inv(sessionFor, w) && Step(sessionFor, w, input).Some? && Over(w, session)
    ensures Over(Step(sessionFor, w, input).value, session) <==> !Revives(w, input, session)
  {
    if input.RedeemAt? {
      RedeemKeeps(sessionFor, w, input.token, input.nonce, input.now);
    }
  }

  /** The state after `before` and the first `n` of `after`. */
  ghost function At(sessionFor: SessionFor, before: seq<Input>, after: seq<Input>, n: nat): World
    requires Run(sessionFor, before + after).Some? && n <= |after|
  {
    PrefixRuns(sessionFor, before, after, n);
    Run(sessionFor, before + after[..n]).value
  }

  lemma {:induction false} PrefixRuns(sessionFor: SessionFor, before: seq<Input>, after: seq<Input>, n: nat)
    requires Run(sessionFor, before + after).Some? && n <= |after|
    ensures Run(sessionFor, before + after[..n]).Some?
    decreases |after| - n
  {
    if n == |after| {
      assert after[..n] == after;
    } else {
      PrefixRuns(sessionFor, before, after, n + 1);
      assert (before + after[..n + 1])[..|before| + n] == before + after[..n];
    }
  }

  lemma PrefixNext(sessionFor: SessionFor, before: seq<Input>, after: seq<Input>, n: nat)
    requires n < |after| && Run(sessionFor, before + after[..n]).Some?
    ensures Run(sessionFor, before + after[..n + 1]) == Step(sessionFor, Run(sessionFor, before + after[..n]).value, after[n])
  {
    assert before + after[..n + 1] == (before + after[..n]) + [after[n]];
    RunSnoc(sessionFor, before + after[..n], after[n]);
  }

  lemma AtNext(sessionFor: SessionFor, before: seq<Input>, after: seq<Input>, n: nat)
    requires Run(sessionFor, before + after).Some? && n < |after|
    ensures Step(sessionFor, At(sessionFor, before, after, n), after[n]) == Some(At(sessionFor, before, after, n + 1))
  {
    PrefixRuns(sessionFor, before, after, n);
    PrefixRuns(sessionFor, before, after, n + 1);
    PrefixNext(sessionFor, before, after, n);
  }

  ghost predicate StaysOver(sessionFor: SessionFor, before: seq<Input>, after: seq<Input>, session: Hash)
    requires Run(sessionFor, before + after).Some?
  {
    forall n | 0 <= n <= |after| :: Over(At(sessionFor, before, after, n), session)
  }

  ghost predicate NeverRevives(sessionFor: SessionFor, before: seq<Input>, after: seq<Input>, session: Hash)
    requires Run(sessionFor, before + after).Some?
  {
    forall n | 0 <= n < |after| :: !Revives(At(sessionFor, before, after, n), after[n], session)
  }

  /** At each step: over afterwards, if over before, exactly when it is not revived. */
  lemma OverNext(sessionFor: SessionFor, before: seq<Input>, after: seq<Input>, session: Hash, n: nat)
    requires Injective(sessionFor) && Run(sessionFor, before + after).Some? && n < |after|
    requires Over(At(sessionFor, before, after, n), session)
    ensures Over(At(sessionFor, before, after, n + 1), session)
       <==> !Revives(At(sessionFor, before, after, n), after[n], session)
  {
    PrefixRuns(sessionFor, before, after, n);
    RunKeepsInv(sessionFor, before + after[..n]);
    AtNext(sessionFor, before, after, n);
    StepRevivesExactly(sessionFor, At(sessionFor, before, after, n), after[n], session);
  }

  lemma {:induction false} OverUntil(sessionFor: SessionFor, before: seq<Input>, after: seq<Input>, session: Hash, n: nat)
    requires Injective(sessionFor) && Run(sessionFor, before + after).Some? && n <= |after|
    requires Over(At(sessionFor, before, after, 0), session) && NeverRevives(sessionFor, before, after, session)
    ensures Over(At(sessionFor, before, after, n), session)
  {
    if n > 0 {
      OverUntil(sessionFor, before, after, session, n - 1);
      OverNext(sessionFor, before, after, session, n - 1);
    }
  }

  /** An ended session is over throughout a run if and only if no step revives it. */
  lemma EndedStaysEnded(sessionFor: SessionFor, before: seq<Input>, after: seq<Input>, session: Hash)
    requires Injective(sessionFor) && Run(sessionFor, before + after).Some?
    requires Over(At(sessionFor, before, after, 0), session)
    ensures StaysOver(sessionFor, before, after, session) <==> NeverRevives(sessionFor, before, after, session)
  {
    if NeverRevives(sessionFor, before, after, session) {
      forall n | 0 <= n <= |after| ensures Over(At(sessionFor, before, after, n), session) {
        OverUntil(sessionFor, before, after, session, n);
      }
    }
    if StaysOver(sessionFor, before, after, session) {
      forall n | 0 <= n < |after| ensures !Revives(At(sessionFor, before, after, n), after[n], session) {
        assert Over(At(sessionFor, before, after, n), session) && Over(At(sessionFor, before, after, n + 1), session);
        OverNext(sessionFor, before, after, session, n);
      }
    }
  }

  /** Transactions in clock order revive nothing. */
  lemma TimelyStepsReviveNone(w: World, input: Input, session: Hash)
    requires Over(w, session) && input.now >= w.clock
    ensures !Revives(w, input, session)
  {
  }

  const LATER := SESSION_LIFETIME_MS as int

  /** A session is admitted at time 0 and has expired when another owner is revoked; then
      a lookup commits that had read the clock just before the expiry. */
  function LateLookup(session: Hash): seq<Input> {
    [CreateAt(0, 0, 1, 0), RedeemAt(0, "", 0), RevokeAt(1, LATER), AuthenticateAt(session, LATER - 1)]
  }

  /** Out of clock order an expired session can be live again. */
  lemma ExpiredCanRevive(sessionFor: SessionFor)
    ensures var session := sessionFor(0, "");
      var inputs := LateLookup(session);
      && Run(sessionFor, inputs).Some? && Run(sessionFor, inputs[..3]).Some?
      && Over(Run(sessionFor, inputs[..3]).value, session) && !Over(Run(sessionFor, inputs).value, session)
  {
    var session := sessionFor(0, "");
    var inputs := LateLookup(session);
    assert inputs[..0] == [] && inputs[..1] == inputs[..0] + [inputs[0]] && inputs[..2] == inputs[..1] + [inputs[1]];
    assert inputs[..3] == inputs[..2] + [inputs[2]] && inputs == inputs[..3] + [inputs[3]];
    RunSnoc(sessionFor, inputs[..0], inputs[0]);
    RunSnoc(sessionFor, inputs[..1], inputs[1]);
    assert Run(sessionFor, inputs[..2]).value.rows.sessions == map[session := Session(0, LATER)];
    RunSnoc(sessionFor, inputs[..2], inputs[2]);
    assert Run(sessionFor, inputs[..3]).value.rows.sessions == map[session := Session(0, LATER)];
    RunSnoc(sessionFor, inputs[..3], inputs[3]);
  }

  // Lasting sessions --------------------------------------------------------

  lemma StepNeverShortens(sessionFor: SessionFor, w: World, input: Input, session: Hash)
    requires Injective(sessionFor) && Inv(sessionFor, w) && Step(sessionFor, w, input).Some?
    requires session in w.rows.sessions && session in Step(sessionFor, w, input).value.rows.sessions
    ensures w.rows.sessions[session].expires <= Step(sessionFor, w, input).value.rows.sessions[session].expires
    ensures w.rows.sessions[session].principal == Step(sessionFor, w, input).value.rows.sessions[session].principal
  {
    if input.RedeemAt? {
      RedeemKeeps(sessionFor, w, input.token, input.nonce, input.now);
    }
  }

  /** An admitted session whose row is gone does not get a row again. */
  lemma GoneStaysGone(sessionFor: SessionFor, w: World, input: Input, session: Hash)
    requires Injective(sessionFor) && Inv(sessionFor, w) && Step(sessionFor, w, input).Some?
    requires session in w.admitted && session in Step(sessionFor, w, input).value.rows.sessions
    ensures session in w.rows.sessions && session in Step(sessionFor, w, input).value.admitted
  {
    if input.RedeemAt? {
      RedeemKeeps(sessionFor, w, input.token, input.nonce, input.now);
    }
  }

  lemma {:induction false} AdmittedStays(sessionFor: SessionFor, before: seq<Input>, after: seq<Input>, session: Hash)
    requires Run(sessionFor, before).Some? && Run(sessionFor, before + after).Some?
    requires session in Run(sessionFor, before).value.admitted
    ensures session in Run(sessionFor, before + after).value.admitted
    decreases |after|
  {
    if after == [] {
      assert before + after == before;
    } else {
      assert (before + after)[..|before + after| - 1] == before + after[..|after| - 1];
      AdmittedStays(sessionFor, before, after[..|after| - 1], session);
    }
  }

  /** However often it is renewed, retried or looked up, a session that lasts is never
      shortened and never changes its principal. */
  lemma {:induction false} SessionsNeverShorten(sessionFor: SessionFor, before: seq<Input>, after: seq<Input>, session: Hash)
    requires Injective(sessionFor) && Run(sessionFor, before).Some? && Run(sessionFor, before + after).Some?
    requires session in Run(sessionFor, before).value.rows.sessions
    requires session in Run(sessionFor, before + after).value.rows.sessions
    ensures var earlier := Run(sessionFor, before).value.rows.sessions[session];
      var later := Run(sessionFor, before + after).value.rows.sessions[session];
      earlier.expires <= later.expires && earlier.principal == later.principal
    decreases |after|
  {
    if after == [] {
      assert before + after == before;
    } else {
      var most, last := after[..|after| - 1], after[|after| - 1];
      assert (before + after)[..|before + after| - 1] == before + most;
      var w := Run(sessionFor, before + most).value;
      RunKeepsInv(sessionFor, before);
      RunKeepsInv(sessionFor, before + most);
      AdmittedStays(sessionFor, before, most, session);
      GoneStaysGone(sessionFor, w, last, session);
      SessionsNeverShorten(sessionFor, before, most, session);
      StepNeverShortens(sessionFor, w, last, session);
    }
  }

  // Whose sessions they are -------------------------------------------------

  /** Whom a code was last created for. */
  function Owner(inputs: seq<Input>, token: Token): Option<Principal> {
    if inputs == [] then None
    else
      var last := inputs[|inputs| - 1];
      if last.CreateAt? && last.token == token then Some(last.principal) else Owner(inputs[..|inputs| - 1], token)
  }

  /** Codes and sessions belong to whom the code was created for. */
  ghost predicate Owned(sessionFor: SessionFor, inputs: seq<Input>, w: World) {
    && (forall token | token in w.rows.pairings :: Owner(inputs, token) == Some(w.rows.pairings[token].principal))
    && (forall token, nonce | sessionFor(token, nonce) in w.rows.sessions ::
          Owner(inputs, token) == Some(w.rows.sessions[sessionFor(token, nonce)].principal))
  }

  lemma NoSessionWithoutCode(sessionFor: SessionFor, w: World, token: Token, nonce: string)
    requires Injective(sessionFor) && Inv(sessionFor, w) && token !in w.issued
    ensures sessionFor(token, nonce) !in w.rows.sessions
  {
    assert sessionFor(token, nonce) in w.rows.sessions ==> FromIssued(sessionFor, w, sessionFor(token, nonce));
  }

  lemma CreateKeepsOwned(sessionFor: SessionFor, inputs: seq<Input>, w: World, input: Input)
    requires Injective(sessionFor) && Inv(sessionFor, w) && Owned(sessionFor, inputs, w)
    requires input.CreateAt? && Step(sessionFor, w, input).Some?
    ensures Owned(sessionFor, inputs + [input], Step(sessionFor, w, input).value)
  {
    var w', all := Step(sessionFor, w, input).value, inputs + [input];
    assert all[..|inputs|] == inputs;
    forall token, nonce | sessionFor(token, nonce) in w'.rows.sessions
      ensures Owner(all, token) == Some(w'.rows.sessions[sessionFor(token, nonce)].principal)
    {
      if token == input.token {
        NoSessionWithoutCode(sessionFor, w, token, nonce);
      }
    }
  }

  lemma StepKeepsOwned(sessionFor: SessionFor, inputs: seq<Input>, w: World, input: Input)
    requires Injective(sessionFor) && Inv(sessionFor, w) && Owned(sessionFor, inputs, w)
    requires Step(sessionFor, w, input).Some?
    ensures Owned(sessionFor, inputs + [input], Step(sessionFor, w, input).value)
  {
    if input.CreateAt? {
      CreateKeepsOwned(sessionFor, inputs, w, input);
    } else {
      assert (inputs + [input])[..|inputs|] == inputs;
    }
  }

  lemma {:induction false} RunKeepsOwned(sessionFor: SessionFor, inputs: seq<Input>)
    requires Injective(sessionFor) && Run(sessionFor, inputs).Some?
    ensures Owned(sessionFor, inputs, Run(sessionFor, inputs).value)
  {
    if inputs != [] {
      var before, last := inputs[..|inputs| - 1], inputs[|inputs| - 1];
      RunKeepsOwned(sessionFor, before);
      RunKeepsInv(sessionFor, before);
      StepKeepsOwned(sessionFor, before, Run(sessionFor, before).value, last);
      assert before + [last] == inputs;
    }
  }

  /** In every run, a session is authenticated exactly when it is live, as the principal
      its code was created for. */
  lemma AuthenticatesItsOwner(sessionFor: SessionFor, inputs: seq<Input>, token: Token, nonce: string, now: int)
    requires Injective(sessionFor) && Run(sessionFor, inputs).Some?
    ensures var w, session := Run(sessionFor, inputs).value, sessionFor(token, nonce);
      var found := Authenticate(w.rows, session, now).1;
      && (found.Some? <==> session in w.rows.sessions && now < w.rows.sessions[session].expires)
      && (found.Some? ==> Owner(inputs, token) == Some(found.value.principal))
      && (found.Some? ==> found.value.expires - now >= SESSION_LIFETIME_MS / 2)
  {
    RunKeepsOwned(sessionFor, inputs);
  }

  // Logging out and revoking ------------------------------------------------

  lemma {:induction false} RunGoesOn(sessionFor: SessionFor, before: seq<Input>, after: seq<Input>)
    requires Run(sessionFor, before + after).Some?
    ensures Run(sessionFor, before).Some?
    decreases |after|
  {
    if after == [] {
      assert before + after == before;
    } else {
      assert (before + after)[..|before + after| - 1] == before + after[..|after| - 1];
      RunGoesOn(sessionFor, before, after[..|after| - 1]);
    }
  }

  /** A session that was logged out is never authenticated again, whatever follows, and
      nobody else's row changes. */
  lemma LogoutEnds(sessionFor: SessionFor, before: seq<Input>, session: Hash, at: int, after: seq<Input>, now: int)
    requires Injective(sessionFor) && Run(sessionFor, before).Some? && session in Run(sessionFor, before).value.admitted
    requires Run(sessionFor, before + [LogoutAt(session, at)] + after).Some?
    ensures Authenticate(Run(sessionFor, before + [LogoutAt(session, at)] + after).value.rows, session, now).1.None?
    ensures var rows := Run(sessionFor, before).value.rows;
      var left := Run(sessionFor, before + [LogoutAt(session, at)]);
      && left.Some? && left.value.rows.pairings == rows.pairings
      && (forall other | other != session :: other in left.value.rows.sessions <==> other in rows.sessions)
      && (forall other | other in left.value.rows.sessions :: left.value.rows.sessions[other] == rows.sessions[other])
  {
    var ended := before + [LogoutAt(session, at)];
    RunGoesOn(sessionFor, ended, after);
    RunSnoc(sessionFor, before, LogoutAt(session, at));
    RemovedStaysRemoved(sessionFor, ended, after, session);
  }

  /** The code is spent and none of its sessions has a row. */
  ghost predicate Dead(sessionFor: SessionFor, w: World, token: Token) {
    && token in w.issued && token !in w.rows.pairings
    && (forall nonce :: sessionFor(token, nonce) !in w.rows.sessions)
  }

  lemma StepKeepsDead(sessionFor: SessionFor, w: World, input: Input, token: Token)
    requires Injective(sessionFor) && Dead(sessionFor, w, token) && Step(sessionFor, w, input).Some?
    ensures Dead(sessionFor, Step(sessionFor, w, input).value, token)
  {
  }

  lemma {:induction false} DeadStaysDead(sessionFor: SessionFor, before: seq<Input>, after: seq<Input>, token: Token)
    requires Injective(sessionFor) && Run(sessionFor, before).Some? && Run(sessionFor, before + after).Some?
    requires Dead(sessionFor, Run(sessionFor, before).value, token)
    ensures Dead(sessionFor, Run(sessionFor, before + after).value, token)
    decreases |after|
  {
    if after == [] {
      assert before + after == before;
    } else {
      var most, last := after[..|after| - 1], after[|after| - 1];
      assert before + after == (before + most) + [last] && (before + after)[..|before + after| - 1] == before + most;
      DeadStaysDead(sessionFor, before, most, token);
      StepKeepsDead(sessionFor, Run(sessionFor, before + most).value, last, token);
    }
  }

  /** Revoking a principal ends every code created for it before, claimed or not, and
      every session of such a code, for good: nothing that follows authenticates one. */
  lemma RevokeEnds(
    sessionFor: SessionFor, before: seq<Input>, principal: Principal, at: int, after: seq<Input>, token: Token, nonce: string, now: int)
    requires Injective(sessionFor) && Run(sessionFor, before).Some? && token in Run(sessionFor, before).value.issued
    requires Owner(before, token) == Some(principal)
    requires Run(sessionFor, before + [RevokeAt(principal, at)] + after).Some?
    ensures var w := Run(sessionFor, before + [RevokeAt(principal, at)] + after).value;
      token !in w.rows.pairings && Authenticate(w.rows, sessionFor(token, nonce), now).1.None?
  {
    var ended := before + [RevokeAt(principal, at)];
    RunGoesOn(sessionFor, ended, after);
    RunSnoc(sessionFor, before, RevokeAt(principal, at));
    RunKeepsOwned(sessionFor, before);
    assert Dead(sessionFor, Run(sessionFor, ended).value, token);
    DeadStaysDead(sessionFor, ended, after, token);
  }

  /** And it spares everyone else's. */
  lemma RevokeSparesOthers(
    sessionFor: SessionFor, before: seq<Input>, principal: Principal, at: int, token: Token, nonce: string)
    requires Injective(sessionFor) && Run(sessionFor, before).Some? && Owner(before, token) != Some(principal)
    ensures var rows, revoked := Run(sessionFor, before).value.rows, Run(sessionFor, before + [RevokeAt(principal, at)]);
      var session := sessionFor(token, nonce);
      && revoked.Some?
      && (token in rows.pairings ==>
            token in revoked.value.rows.pairings && revoked.value.rows.pairings[token] == rows.pairings[token])
      && (session in rows.sessions ==>
            session in revoked.value.rows.sessions && revoked.value.rows.sessions[session] == rows.sessions[session])
  {
    RunSnoc(sessionFor, before, RevokeAt(principal, at));
    RunKeepsOwned(sessionFor, before);
  }
}
