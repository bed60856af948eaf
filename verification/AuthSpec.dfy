/** The authentication handshake: challenge store, tokens and the interceptor's checks.

    Base58, Ed25519 and JWT coding are parameters. Signing is ideal: a token verifies
    exactly when the engine issued its claims. */
module AuthSpec {
  import opened Common

  datatype Code = InvalidArgument | PermissionDenied | Unauthenticated

  datatype Result<+T> = Ok(value: T) | Err(code: Code)

  datatype Claims = Claims(sub: string, role: int, refresh: bool, exp: nat)

  // All durations are in seconds.
  const ACCESS_TTL: nat := 1800
  const REFRESH_TTL: nat := 86400
  const CHALLENGE_TTL: nat := 30

  /** What the handshake does not look into. `leeway` is the slack that token expiry is
      checked with. */
  datatype Params = Params(
    allowed: Option<set<string>>,
    base58: seq<bv8> -> string,
    validKey: seq<bv8> -> bool,
    verify: (seq<bv8>, string, seq<bv8>) -> bool,
    parse: string -> Option<Claims>,
    leeway: nat)
  {
    predicate Allows(pubkey: string) { allowed.None? || pubkey in allowed.value }

    function Pubkey(bytes: seq<bv8>): Result<string> {
      if |bytes| != 32 then Err(InvalidArgument) else Ok(base58(bytes))
    }
  }

  // ----- the challenge store -----

  datatype Challenge = Challenge(nonce: string, role: int, expiresAt: nat)

  type Store = map<string, Challenge>

  function Create(m: Store, pubkey: string, role: int, nonce: string, now: nat): Store {
    m[pubkey := Challenge(nonce, role, now + CHALLENGE_TTL)]
  }

  function Drop(m: Store, pubkey: string): Store {
    m - {pubkey}
  }

  /** What `take_challenge` returns; it removes the entry either way. */
  function Taken(m: Store, pubkey: string, now: nat): Option<(string, int)> {
    if pubkey in m && m[pubkey].expiresAt > now then Some((m[pubkey].nonce, m[pubkey].role)) else None
  }

  function Prune(m: Store, now: nat): Store {
    map p | p in m && m[p].expiresAt > now :: m[p]
  }

  // ----- the store against the full log -----

  datatype Event =
    | Created(pubkey: string, role: int, nonce: string, at: nat)
    | Removed(pubkey: string)
    | Pruned(at: nat)

  function Apply(m: Store, e: Event): Store {
    match e
    case Created(p, role, nonce, at) => Create(m, p, role, nonce, at)
    case Removed(p) => Drop(m, p)
    case Pruned(at) => Prune(m, at)
  }

  function Replay(events: seq<Event>): Store {
    if events == [] then map[] else Apply(Replay(events[..|events| - 1]), events[|events| - 1])
  }

  /** The challenge that is open for `p` when only creation and removal count. */
  function Open(events: seq<Event>, p: string): Option<Challenge> {
    if events == [] then None
    else
      var init, e := events[..|events| - 1], events[|events| - 1];
      if e.Created? && e.pubkey == p then Some(Challenge(e.nonce, e.role, e.at + CHALLENGE_TTL))
      else if e.Removed? && e.pubkey == p then None
      else Open(init, p)
  }

  /** Takes read the clock under the lock and prunes before it, so on a monotone clock no
      earlier prune has seen a later time than a take. */
  ghost predicate PrunesBefore(events: seq<Event>, now: nat) {
    forall i :: 0 <= i < |events| && events[i].Pruned? ==> events[i].at <= now
  }

  lemma {:induction false} StoreMatchesLog(events: seq<Event>, p: string, now: nat)
    requires PrunesBefore(events, now)
    ensures var m := Replay(events);
      && (p in m ==> Open(events, p) == Some(m[p]))
      && (p !in m && Open(events, p).Some? ==> Open(events, p).value.expiresAt <= now)
  {
    if events != [] {
      var init, e := events[..|events| - 1], events[|events| - 1];
      StoreMatchesLog(init, p, now);
      assert e.Pruned? ==> e.at <= now;
    }
  }

  /** Whenever prunes happened before, `take_challenge` answers what the full log says. */
  lemma TakeIsExact(events: seq<Event>, p: string, now: nat)
    requires PrunesBefore(events, now)
    ensures Taken(Replay(events), p, now)
         == var o := Open(events, p);
            if o.Some? && o.value.expiresAt > now then Some((o.value.nonce, o.value.role)) else None
  {
    StoreMatchesLog(events, p, now);
  }

  function StoreTest(): Event -> bool { (e: Event) => !e.Pruned? }

  lemma OpenSnoc(events: seq<Event>, e: Event, p: string)
    ensures Open(events + [e], p)
         == if e.Created? && e.pubkey == p then Some(Challenge(e.nonce, e.role, e.at + CHALLENGE_TTL))
            else if e.Removed? && e.pubkey == p then None
            else Open(events, p)
  {
    assert (events + [e])[..|events|] == events;
  }

  lemma {:induction false} OpenIgnoresPrunes(events: seq<Event>, p: string)
    ensures Open(Filter(events, StoreTest()), p) == Open(events, p)
  {
    if events != [] {
      var init, e := events[..|events| - 1], events[|events| - 1];
      OpenIgnoresPrunes(init, p);
      InitLast(events);
      FilterSnoc(init, e, StoreTest());
      OpenSnoc(init, e, p);
      OpenSnoc(Filter(init, StoreTest()), e, p);
    }
  }

  /** Erasing every prune from a log changes no later take. */
  lemma PrunesAreInvisible(events: seq<Event>, p: string, now: nat)
    requires PrunesBefore(events, now)
    ensures Taken(Replay(events), p, now) == Taken(Replay(Filter(events, StoreTest())), p, now)
  {
    var kept := Filter(events, StoreTest());
    forall i | 0 <= i < |kept| ensures !kept[i].Pruned? {
      FilterMember(events, StoreTest(), kept[i]);
    }
    OpenIgnoresPrunes(events, p);
    TakeIsExact(events, p, now);
    TakeIsExact(kept, p, now);
  }

  // ----- the handlers -----

  datatype TokensRequest = TokensRequest(pubkey: seq<bv8>, challenge: string, signature: seq<bv8>)

  /** A successful login: who, for which role, by which nonce. */
  datatype Grant = Grant(pubkey: string, role: int, nonce: string)

  /** The string that the client signs. */
  function Signed(pubkey: string, nonce: string): string { pubkey + "-" + nonce }

  function IssueClaims(pubkey: string, role: int, refresh: bool, wall: nat): Claims {
    Claims(pubkey, role, refresh, wall + if refresh then REFRESH_TTL else ACCESS_TTL)
  }

  /** The request gets as far as taking a challenge. */
  predicate Reaches(P: Params, bytes: seq<bv8>) {
    P.Pubkey(bytes).Ok? && P.Allows(P.Pubkey(bytes).value)
  }

  /** `generate_auth_tokens` up to the issuing of the tokens. */
  function Login(P: Params, m: Store, req: TokensRequest, now: nat): Result<Grant> {
    var pubkey := P.Pubkey(req.pubkey);
    if pubkey.Err? then Err(pubkey.code)
    else if !P.Allows(pubkey.value) then Err(PermissionDenied)
    else
      var taken := Taken(m, pubkey.value, now);
      if taken.None? then Err(PermissionDenied)
      else if Signed(pubkey.value, taken.value.0) != req.challenge then Err(InvalidArgument)
      else if !P.validKey(req.pubkey) then Err(InvalidArgument)
      else if |req.signature| != 64 then Err(InvalidArgument)
      else if !P.verify(req.pubkey, req.challenge, req.signature) then Err(PermissionDenied)
      else Ok(Grant(pubkey.value, taken.value.1, taken.value.0))
  }

  /** The attempt gets as far as the signature, and the signature does not verify. */
  predicate SignatureRejected(P: Params, m: Store, req: TokensRequest, now: nat) {
    var pubkey := P.Pubkey(req.pubkey);
    && Reaches(P, req.pubkey)
    && Taken(m, pubkey.value, now).Some? && Signed(pubkey.value, Taken(m, pubkey.value, now).value.0) == req.challenge
    && P.validKey(req.pubkey) && |req.signature| == 64
    && !P.verify(req.pubkey, req.challenge, req.signature)
  }

  /** When a login succeeds, and with which code it fails. */
  lemma LoginExactly(P: Params, m: Store, req: TokensRequest, now: nat)
    ensures var pubkey := P.base58(req.pubkey);
      var known := |req.pubkey| == 32 && (P.allowed.None? || pubkey in P.allowed.value);
      var pending := known && pubkey in m && m[pubkey].expiresAt > now;
      var matches := pending && req.challenge == pubkey + "-" + m[pubkey].nonce;
      var shaped := matches && P.validKey(req.pubkey) && |req.signature| == 64;
      && (Login(P, m, req, now).Ok? <==> shaped && P.verify(req.pubkey, req.challenge, req.signature))
      && (Login(P, m, req, now).Ok? ==>
            Login(P, m, req, now).value == Grant(pubkey, m[pubkey].role, m[pubkey].nonce))
      && (Login(P, m, req, now) == Err(InvalidArgument) <==> |req.pubkey| != 32 || (pending && !shaped))
      && (Login(P, m, req, now) == Err(PermissionDenied)
          <==> |req.pubkey| == 32 && (!pending || (shaped && !P.verify(req.pubkey, req.challenge, req.signature))))
  {
  }

  /** Signature and expiry of a token, given the claims issued so far. */
  function Validate(P: Params, issued: set<Claims>, token: string, wall: nat): Result<Claims> {
    var c := P.parse(token);
    if c.Some? && c.value in issued && wall <= c.value.exp + P.leeway then Ok(c.value) else Err(Unauthenticated)
  }

  function Refresh(P: Params, issued: set<Claims>, token: string, wall: nat): Result<Claims> {
    var c := Validate(P, issued, token, wall);
    if c.Err? then Err(c.code)
    else if !c.value.refresh then Err(PermissionDenied)
    else Ok(c.value)
  }

  const BEARER: string := "Bearer "

  function StripBearer(header: string): Option<string> {
    if BEARER <= header then Some(header[|BEARER|..]) else None
  }

  /** The interceptor in front of a service; `header` is `None` when it is missing or not
      readable as text. */
  function Admit(
    P: Params, issued: set<Claims>, header: Option<string>, required: Option<int>, wall: nat): Result<Claims> {
    if header.None? || StripBearer(header.value).None? then Err(Unauthenticated)
    else
      var c := Validate(P, issued, StripBearer(header.value).value, wall);
      if c.Err? then Err(c.code)
      else if c.value.refresh then Err(Unauthenticated)
      else if required.Some? && c.value.role != required.value then Err(PermissionDenied)
      else Ok(c.value)
  }

  /** With which code a call is refused. */
  lemma RefusalCodes(P: Params, issued: set<Claims>, header: Option<string>, required: Option<int>, wall: nat)
    ensures var r := Admit(P, issued, header, required, wall);
      var bearer := header.Some? && |header.value| >= 7 && header.value[..7] == "Bearer ";
      var c := if bearer then P.parse(header.value[7..]) else None;
      var access := c.Some? && c.value in issued && wall <= c.value.exp + P.leeway && !c.value.refresh;
      && (r == Err(Unauthenticated) <==> !access)
      && (r == Err(PermissionDenied) <==> access && required.Some? && required.value != c.value.role)
      && (r.Ok? <==> access && (required.None? || required.value == c.value.role))
  {
    if header.Some? && |header.value| >= 7 {
      assert BEARER <= header.value <==> header.value[..7] == BEARER;
    }
  }

  /** With which code a refresh is refused, and what it passes on. */
  lemma RefreshCodes(P: Params, issued: set<Claims>, token: string, wall: nat)
    ensures var r, c := Refresh(P, issued, token, wall), P.parse(token);
      var signed := c.Some? && c.value in issued && wall <= c.value.exp + P.leeway;
      && (r == Err(Unauthenticated) <==> !signed)
      && (r == Err(PermissionDenied) <==> signed && !c.value.refresh)
      && (signed && c.value.refresh ==> r == Ok(c.value))
  {
  }
}
