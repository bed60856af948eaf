/** Token provenance: where an admitted token comes from, in every run of the service. */
module AuthRuns {
  import opened Common
  import opened AuthSpec

  /** `issued` and `nonces` are history: the claims signed and the nonces drawn so far. */
  datatype State = State(challenges: Store, issued: set<Claims>, nonces: set<string>)

  /** `now` is the monotone clock of the challenge store, `wall` the system time of the
      tokens. Nothing is assumed about either: they may stand still or jump. */
  datatype Step =
    | AskChallenge(bytes: seq<bv8>, role: int, nonce: string, now: nat)
    | AskTokens(req: TokensRequest, now: nat, wall: nat)
    | AskRefresh(token: string, wall: nat)
    | CallService(header: Option<string>, required: Option<int>, wall: nat)
    | PruneStore(now: nat)

  /** Nonces are fresh. */
  predicate Enabled(s: State, step: Step) {
    step.AskChallenge? ==> step.nonce !in s.nonces
  }

  function AskChallengeStep(P: Params, s: State, bytes: seq<bv8>, role: int, nonce: string, now: nat): State {
    if !Reaches(P, bytes) then s
    else s.(challenges := Create(s.challenges, P.Pubkey(bytes).value, role, nonce, now), nonces := s.nonces + {nonce})
  }

  function AskTokensStep(P: Params, s: State, req: TokensRequest, now: nat, wall: nat): State {
    var g := Login(P, s.challenges, req, now);
    State(if Reaches(P, req.pubkey) then Drop(s.challenges, P.Pubkey(req.pubkey).value) else s.challenges,
          s.issued + (if g.Ok? then PairOf(g.value, wall) else {}), s.nonces)
  }

  function PairOf(g: Grant, wall: nat): set<Claims> {
    {IssueClaims(g.pubkey, g.role, false, wall), IssueClaims(g.pubkey, g.role, true, wall)}
  }

  function AskRefreshStep(P: Params, s: State, token: string, wall: nat): State {
    var c := Refresh(P, s.issued, token, wall);
    s.(issued := s.issued + if c.Ok? then {IssueClaims(c.value.sub, c.value.role, false, wall)} else {})
  }

  function Next(P: Params, s: State, step: Step): State {
    match step
    case AskChallenge(bytes, role, nonce, now) => AskChallengeStep(P, s, bytes, role, nonce, now)
    case AskTokens(req, now, wall) => AskTokensStep(P, s, req, now, wall)
    case AskRefresh(token, wall) => AskRefreshStep(P, s, token, wall)
    case CallService(_, _, _) => s
    case PruneStore(now) => s.(challenges := Prune(s.challenges, now))
  }

  datatype Trace = Trace(states: seq<State>, steps: seq<Step>) {
    ghost predicate IsRun(P: Params) {
      && |states| == |steps| + 1
      && states[0] == State(map[], {}, {})
      && forall i :: 0 <= i < |steps| ==> Enabled(states[i], steps[i]) && states[i + 1] == Next(P, states[i], steps[i])
    }

    /** Step `a` stores a challenge for `pubkey`. */
    ghost predicate Opens(P: Params, a: nat, pubkey: string, role: int, nonce: string)
      requires a < |steps|
    {
      && steps[a].AskChallenge? && Reaches(P, steps[a].bytes) && P.Pubkey(steps[a].bytes) == Ok(pubkey)
      && steps[a].role == role && steps[a].nonce == nonce
    }

    /** Step `k` takes whatever challenge is stored for `pubkey`. */
    ghost predicate Takes(P: Params, k: nat, pubkey: string)
      requires k < |steps|
    {
      steps[k].AskTokens? && Reaches(P, steps[k].req.pubkey) && P.Pubkey(steps[k].req.pubkey) == Ok(pubkey)
    }

    /** Step `b` logs in and issues a pair of tokens. */
    ghost predicate LogsIn(P: Params, b: nat, g: Grant)
      requires b < |steps| < |states|
    {
      steps[b].AskTokens? && Login(P, states[b].challenges, steps[b].req, steps[b].now) == Ok(g)
    }

    /** Step `d` issues a new access token for the refresh token with claims `c`. */
    ghost predicate Refreshes(P: Params, d: nat, c: Claims)
      requires d < |steps| < |states|
    {
      steps[d].AskRefresh? && Refresh(P, states[d].issued, steps[d].token, steps[d].wall) == Ok(c)
    }

    /** Step `i` is a service call that the interceptor lets through with claims `c`. */
    ghost predicate Admits(P: Params, i: nat, c: Claims)
      requires i < |steps| < |states|
    {
      steps[i].CallService? && Admit(P, states[i].issued, steps[i].header, steps[i].required, steps[i].wall) == Ok(c)
    }
  }

  // ----- challenges -----

  /** A stored challenge was created for its key, is used by nobody since, and expires
      thirty seconds after its creation. */
  lemma {:induction false} ChallengeOrigin(P: Params, t: Trace, i: nat, pubkey: string) returns (a: nat)
    requires t.IsRun(P) && i < |t.states| && pubkey in t.states[i].challenges
    ensures a < i && a < |t.steps|
    ensures var ch := t.states[i].challenges[pubkey];
      t.Opens(P, a, pubkey, ch.role, ch.nonce) && ch.expiresAt == t.steps[a].now + CHALLENGE_TTL
    ensures forall k :: a < k < i ==> !t.Takes(P, k, pubkey)
  {
    assert i > 0;
    var j := i - 1;
    assert t.states[j + 1] == Next(P, t.states[j], t.steps[j]);
    var ch := t.states[i].challenges[pubkey];
    if t.Opens(P, j, pubkey, ch.role, ch.nonce) && ch.expiresAt == t.steps[j].now + CHALLENGE_TTL {
      a := j;
    } else {
      assert !t.Takes(P, j, pubkey);
      assert pubkey in t.states[j].challenges && t.states[j].challenges[pubkey] == ch;
      a := ChallengeOrigin(P, t, j, pubkey);
    }
  }

  lemma {:induction false} NoncesStay(P: Params, t: Trace, a: nat, i: nat)
    requires t.IsRun(P) && a <= i < |t.states|
    ensures t.states[a].nonces <= t.states[i].nonces
    decreases i
  {
    if a < i {
      NoncesStay(P, t, a, i - 1);
      assert t.states[i - 1 + 1] == Next(P, t.states[i - 1], t.steps[i - 1]);
    }
  }

  lemma NonceIsUnique(P: Params, t: Trace, a: nat, b: nat, p: string, q: string, r: int, s: int, nonce: string)
    requires t.IsRun(P) && a < |t.steps| && b < |t.steps|
    requires t.Opens(P, a, p, r, nonce) && t.Opens(P, b, q, s, nonce)
    ensures a == b
  {
    if a < b {
      NoncesStay(P, t, a + 1, b);
    } else if b < a {
      NoncesStay(P, t, b + 1, a);
    }
  }

  /** A login: the key's own challenge, opened before, unexpired, signed over its nonce,
      and taken for the first time. */
  lemma LoginOrigin(P: Params, t: Trace, b: nat, g: Grant) returns (a: nat)
    requires t.IsRun(P) && b < |t.steps| && t.LogsIn(P, b, g)
    ensures a < b && t.Opens(P, a, g.pubkey, g.role, g.nonce)
    ensures t.steps[b].now < t.steps[a].now + 30
    ensures P.allowed.Some? ==> g.pubkey in P.allowed.value
    ensures |t.steps[b].req.pubkey| == 32 && P.base58(t.steps[b].req.pubkey) == g.pubkey
    ensures P.validKey(t.steps[b].req.pubkey) && |t.steps[b].req.signature| == 64
    ensures P.verify(t.steps[b].req.pubkey, g.pubkey + "-" + g.nonce, t.steps[b].req.signature)
    ensures forall k :: a < k < b ==> !t.Takes(P, k, g.pubkey)
  {
    a := ChallengeOrigin(P, t, b, g.pubkey);
  }

  /** Each nonce yields at most one pair of tokens. */
  lemma OnePairPerNonce(P: Params, t: Trace, b: nat, b': nat, g: Grant, g': Grant)
    requires t.IsRun(P) && b < |t.steps| && b' < |t.steps|
    requires t.LogsIn(P, b, g) && t.LogsIn(P, b', g') && g.nonce == g'.nonce
    ensures b == b'
  {
    var a := LoginOrigin(P, t, b, g);
    var a' := LoginOrigin(P, t, b', g');
    NonceIsUnique(P, t, a, a', g.pubkey, g'.pubkey, g.role, g'.role, g.nonce);
    assert g.pubkey == g'.pubkey;
    assert t.Takes(P, b, g.pubkey) && t.Takes(P, b', g.pubkey);
  }

  // ----- tokens -----

  /** Every signed refresh token comes from a login for the same key and role. */
  lemma {:induction false} RefreshOrigin(P: Params, t: Trace, i: nat, c: Claims) returns (b: nat, g: Grant)
    requires t.IsRun(P) && i < |t.states| && c in t.states[i].issued && c.refresh
    ensures b < i && b < |t.steps| && t.LogsIn(P, b, g)
    ensures c == IssueClaims(g.pubkey, g.role, true, t.steps[b].wall)
  {
    assert i > 0;
    var j := i - 1;
    assert t.states[j + 1] == Next(P, t.states[j], t.steps[j]);
    if c in t.states[j].issued {
      b, g := RefreshOrigin(P, t, j, c);
    } else {
      b, g := j, Login(P, t.states[j].challenges, t.steps[j].req, t.steps[j].now).value;
    }
  }

  /** Every signed access token comes from a login, directly or through one refresh. */
  lemma {:induction false} AccessOrigin(
    P: Params, t: Trace, i: nat, c: Claims)
    returns (b: nat, g: Grant, d: Option<nat>)
    requires t.IsRun(P) && i < |t.states| && c in t.states[i].issued && !c.refresh
    ensures b < i && b < |t.steps| && t.LogsIn(P, b, g)
    ensures d.None? ==> c == IssueClaims(g.pubkey, g.role, false, t.steps[b].wall)
    ensures d.Some? ==>
      && b < d.value < i && d.value < |t.steps|
      && t.Refreshes(P, d.value, IssueClaims(g.pubkey, g.role, true, t.steps[b].wall))
      && c == IssueClaims(g.pubkey, g.role, false, t.steps[d.value].wall)
  {
    assert i > 0;
    var j := i - 1;
    assert t.states[j + 1] == Next(P, t.states[j], t.steps[j]);
    if c in t.states[j].issued {
      b, g, d := AccessOrigin(P, t, j, c);
    } else if t.steps[j].AskTokens? {
      b, g, d := j, Login(P, t.states[j].challenges, t.steps[j].req, t.steps[j].now).value, None;
    } else {
      var r := Refresh(P, t.states[j].issued, t.steps[j].token, t.steps[j].wall).value;
      b, g := RefreshOrigin(P, t, j, r);
      d := Some(j);
    }
  }

  /** Token provenance: whatever the interceptor of a service lets through is an access
      token of the required role that traces, through zero or one refresh, to one login
      for the same key and role, and that login to one challenge for them, taken once. */
  lemma TokenProvenance(P: Params, t: Trace, i: nat, c: Claims) returns (a: nat, b: nat, d: Option<nat>, nonce: string)
    requires t.IsRun(P) && i < |t.steps| && t.Admits(P, i, c)
    ensures !c.refresh && (t.steps[i].required.Some? ==> c.role == t.steps[i].required.value)
    ensures (P.allowed.Some? ==> c.sub in P.allowed.value) && t.steps[i].wall <= c.exp + P.leeway
    ensures a < b < i && t.Opens(P, a, c.sub, c.role, nonce) && t.LogsIn(P, b, Grant(c.sub, c.role, nonce))
    ensures t.steps[b].now < t.steps[a].now + 30
    ensures P.verify(t.steps[b].req.pubkey, c.sub + "-" + nonce, t.steps[b].req.signature)
    ensures d.None? ==> c == IssueClaims(c.sub, c.role, false, t.steps[b].wall)
    ensures d.Some? ==>
      && b < d.value < i
      && t.Refreshes(P, d.value, IssueClaims(c.sub, c.role, true, t.steps[b].wall))
      && c == IssueClaims(c.sub, c.role, false, t.steps[d.value].wall)
  {
    var g;
    b, g, d := AccessOrigin(P, t, i, c);
    nonce := g.nonce;
    a := LoginOrigin(P, t, b, g);
  }

  /** Refreshing never issues a refresh token, so a session ends: no call is admitted
      later than a day and half an hour after its login, up to leeway. */
  lemma SessionEnds(P: Params, t: Trace, i: nat, c: Claims) returns (b: nat, nonce: string)
    requires t.IsRun(P) && i < |t.steps| && t.Admits(P, i, c)
    ensures b < i && t.LogsIn(P, b, Grant(c.sub, c.role, nonce))
    ensures t.steps[i].wall <= t.steps[b].wall + 86400 + 1800 + 2 * P.leeway
  {
    var a, d;
    a, b, d, nonce := TokenProvenance(P, t, i, c);
  }

  // ----- the other way round: a login works -----

  /** What the interceptor lets through, as one condition on the token. */
  lemma AdmittedExactly(P: Params, issued: set<Claims>, c: Claims, token: string, required: Option<int>, wall: nat)
    requires P.parse(token) == Some(c)
    ensures Admit(P, issued, Some(BEARER + token), required, wall) == Ok(c)
       <==> c in issued && !c.refresh && wall <= c.exp + P.leeway && (required.None? || required == Some(c.role))
  {
    assert (BEARER + token)[|BEARER|..] == token;
  }

  lemma {:induction false} IssuedStays(P: Params, t: Trace, a: nat, i: nat)
    requires t.IsRun(P) && a <= i < |t.states|
    ensures t.states[a].issued <= t.states[i].issued
    decreases i
  {
    if a < i {
      IssuedStays(P, t, a, i - 1);
      assert t.states[i - 1 + 1] == Next(P, t.states[i - 1], t.steps[i - 1]);
    }
  }

  /** At every later point of every run, the access token of a login opens the services of
      its role, and those that ask for no role, exactly until it expires. */
  lemma LoginOpensService(
    P: Params, t: Trace, b: nat, g: Grant, i: nat, token: string, required: Option<int>, wall: nat)
    requires t.IsRun(P) && b < |t.steps| && b < i < |t.states| && t.LogsIn(P, b, g)
    requires P.parse(token) == Some(IssueClaims(g.pubkey, g.role, false, t.steps[b].wall))
    ensures Admit(P, t.states[i].issued, Some("Bearer " + token), required, wall).Ok?
       <==> wall <= t.steps[b].wall + 1800 + P.leeway && (required.None? || required == Some(g.role))
  {
    var c := IssueClaims(g.pubkey, g.role, false, t.steps[b].wall);
    assert t.states[b + 1] == Next(P, t.states[b], t.steps[b]);
    IssuedStays(P, t, b + 1, i);
    AdmittedExactly(P, t.states[i].issued, c, token, required, wall);
    assert (BEARER + token)[|BEARER|..] == token;
  }

  // ----- an honest client gets in -----

  /** Between its creation and step `b`, nobody replaces or takes the challenge of `pubkey`,
      and no prune sees it expired. */
  ghost predicate Undisturbed(P: Params, t: Trace, a: nat, b: nat, pubkey: string)
    requires b <= |t.steps|
  {
    forall k :: a < k < b ==>
      && !t.Takes(P, k, pubkey)
      && (t.steps[k].AskChallenge? && Reaches(P, t.steps[k].bytes) ==> P.Pubkey(t.steps[k].bytes) != Ok(pubkey))
      && (t.steps[k].PruneStore? && a < |t.steps| && t.steps[a].AskChallenge? ==> t.steps[k].now < t.steps[a].now + 30)
  }

  lemma {:induction false} ChallengeWaits(P: Params, t: Trace, a: nat, i: nat, pubkey: string)
    requires t.IsRun(P) && a < i <= |t.steps| && t.steps[a].AskChallenge?
    requires t.Opens(P, a, pubkey, t.steps[a].role, t.steps[a].nonce) && Undisturbed(P, t, a, i, pubkey)
    ensures pubkey in t.states[i].challenges
    ensures t.states[i].challenges[pubkey] == Challenge(t.steps[a].nonce, t.steps[a].role, t.steps[a].now + 30)
    decreases i
  {
    var j := i - 1;
    assert t.states[j + 1] == Next(P, t.states[j], t.steps[j]);
    if j > a {
      ChallengeWaits(P, t, a, j, pubkey);
    }
  }

  /** A key that is on the list, or any key when there is none, gets a challenge; a login
      that signs it in time, undisturbed, succeeds. */
  lemma HonestLoginSucceeds(P: Params, t: Trace, a: nat, b: nat)
    requires t.IsRun(P) && a < b < |t.steps| && t.steps[a].AskChallenge? && t.steps[b].AskTokens?
    requires |t.steps[a].bytes| == 32 && t.steps[b].req.pubkey == t.steps[a].bytes
    requires P.allowed.Some? ==> P.base58(t.steps[a].bytes) in P.allowed.value
    requires Undisturbed(P, t, a, b, P.base58(t.steps[a].bytes)) && t.steps[b].now < t.steps[a].now + 30
    requires t.steps[b].req.challenge == P.base58(t.steps[a].bytes) + "-" + t.steps[a].nonce
    requires P.validKey(t.steps[a].bytes) && |t.steps[b].req.signature| == 64
    requires P.verify(t.steps[a].bytes, t.steps[b].req.challenge, t.steps[b].req.signature)
    ensures t.LogsIn(P, b, Grant(P.base58(t.steps[a].bytes), t.steps[a].role, t.steps[a].nonce))
  {
    ChallengeWaits(P, t, a, b, P.base58(t.steps[a].bytes));
  }

  /** At every later point of every run, the refresh token of a login can be exchanged for an
      access token of the same key and role, exactly until it expires. */
  lemma LoginRefreshes(P: Params, t: Trace, b: nat, g: Grant, i: nat, token: string, wall: nat)
    requires t.IsRun(P) && b < |t.steps| && b < i < |t.states| && t.LogsIn(P, b, g)
    requires P.parse(token) == Some(IssueClaims(g.pubkey, g.role, true, t.steps[b].wall))
    ensures Refresh(P, t.states[i].issued, token, wall).Ok? <==> wall <= t.steps[b].wall + 86400 + P.leeway
    ensures Refresh(P, t.states[i].issued, token, wall).Ok? ==>
      Claims(g.pubkey, g.role, false, wall + 1800) in AskRefreshStep(P, t.states[i], token, wall).issued
  {
    assert t.states[b + 1] == Next(P, t.states[b], t.steps[b]);
    IssuedStays(P, t, b + 1, i);
  }
}
