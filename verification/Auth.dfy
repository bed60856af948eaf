/** The authentication service as an object with a challenge store. */
module Auth {
  import opened Common
  import opened AuthSpec

  class AuthState {
    var challenges: Store
    const P: Params

    constructor (P: Params)
      ensures challenges == map[] && this.P == P
    {
      this.P, challenges := P, map[];
    }

    method CreateChallenge(pubkey: string, role: int, nonce: string, now: nat)
      modifies this
      ensures challenges == Create(old(challenges), pubkey, role, nonce, now)
    {
      challenges := challenges[pubkey := Challenge(nonce, role, now + CHALLENGE_TTL)];
    }

    method TakeChallenge(pubkey: string, now: nat) returns (r: Option<(string, int)>)
      modifies this
      ensures r == Taken(old(challenges), pubkey, now) && challenges == Drop(old(challenges), pubkey)
    {
      if pubkey !in challenges {
        assert challenges - {pubkey} == challenges;
        return None;
      }
      var entry := challenges[pubkey];
      challenges := challenges - {pubkey};
      r := if entry.expiresAt > now then Some((entry.nonce, entry.role)) else None;
    }

    method PruneChallenges(now: nat)
      modifies this
      ensures challenges == Prune(old(challenges), now)
    {
      challenges := map p | p in challenges && challenges[p].expiresAt > now :: challenges[p];
    }
  }

  class AuthService {
    const state: AuthState
    var challengesIssued: nat
    var failures: nat
    var successes: nat

    constructor (state: AuthState)
      ensures this.state == state && challengesIssued == 0 && failures == 0 && successes == 0
    {
      this.state := state;
      challengesIssued, failures, successes := 0, 0, 0;
    }

    method GenerateAuthChallenge(pubkey: seq<bv8>, role: int, nonce: string, now: nat) returns (r: Result<string>)
      modifies this, state
      ensures r.Ok? <==>
        |pubkey| == 32 && (state.P.allowed.None? || state.P.base58(pubkey) in state.P.allowed.value)
      ensures Reaches(state.P, pubkey) ==>
        && r == Ok(nonce) && challengesIssued == old(challengesIssued) + 1
        && state.challenges == Create(old(state.challenges), state.P.Pubkey(pubkey).value, role, nonce, now)
      ensures !Reaches(state.P, pubkey) ==>
        && r == Err(if |pubkey| != 32 then InvalidArgument else PermissionDenied)
        && state.challenges == old(state.challenges) && challengesIssued == old(challengesIssued)
      ensures failures == old(failures) && successes == old(successes)
    {
      var key := state.P.Pubkey(pubkey);
      if key.Err? {
        return Err(key.code);
      }
      if !state.P.Allows(key.value) {
        return Err(PermissionDenied);
      }
      state.CreateChallenge(key.value, role, nonce, now);
      challengesIssued := challengesIssued + 1;
      r := Ok(nonce);
    }

    /** Issues an access and a refresh token, or says why not. A challenge is used up by
        the attempt, whether or not the attempt succeeds. */
    method GenerateAuthTokens(req: TokensRequest, now: nat, wall: nat) returns (r: Result<(Claims, Claims)>)
      modifies this, state
      ensures var g := Login(state.P, old(state.challenges), req, now);
        && (g.Ok? ==> r == Ok((IssueClaims(g.value.pubkey, g.value.role, false, wall),
                               IssueClaims(g.value.pubkey, g.value.role, true, wall))))
        && (g.Err? ==> r == Err(g.code))
        && successes == old(successes) + (if g.Ok? then 1 else 0)
        && challengesIssued == old(challengesIssued)
      ensures failures
           == old(failures) + if SignatureRejected(state.P, old(state.challenges), req, now) then 1 else 0
      ensures state.challenges
           == if Reaches(state.P, req.pubkey) then Drop(old(state.challenges), state.P.Pubkey(req.pubkey).value)
              else old(state.challenges)
    {
      var key := state.P.Pubkey(req.pubkey);
      if key.Err? {
        return Err(key.code);
      }
      if !state.P.Allows(key.value) {
        return Err(PermissionDenied);
      }
      var taken := state.TakeChallenge(key.value, now);
      if taken.None? {
        return Err(PermissionDenied);
      }
      var (stored, role) := taken.value;
      if Signed(key.value, stored) != req.challenge || !state.P.validKey(req.pubkey) || |req.signature| != 64 {
        return Err(InvalidArgument);
      }
      if !state.P.verify(req.pubkey, req.challenge, req.signature) {
        failures := failures + 1;
        return Err(PermissionDenied);
      }
      successes := successes + 1;
      r := Ok((IssueClaims(key.value, role, false, wall), IssueClaims(key.value, role, true, wall)));
    }
  }
}
