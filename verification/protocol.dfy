/**
 * The challenge-response state machine on values: one record per identity,
 * and the three server operations as functions from the old mapping to the
 * new mapping and the reply. The classes in module Server are proved to
 * follow these functions.
 */
module Protocol {
  import opened Wrappers
  import opened ProofDerivation
  import opened TimeWindow

  /** The state of one identity: secret, latest challenge, its window, lock flag. */
  datatype UserRecord = UserRecord(key1: int, key2: Option<int>, stime: Option<int>, locked: bool)

  /** The server's mapping from username to record. */
  type Users = map<string, UserRecord>

  /** A freshly registered identity: no challenge yet and not locked. */
  function NewUser(key1: int): UserRecord {
    UserRecord(key1, None, None, false)
  }

  /** get_challenge_key: a new challenge and its window; secret and lock are kept. */
  function Challenge(u: UserRecord, key2: int, seed: int): (v: UserRecord)
    ensures v.key2 == Some(key2) && v.stime == Some(seed)
    ensures v.key1 == u.key1 && v.locked == u.locked
  {
    u.(key2 := Some(key2), stime := Some(seed))
  }

  /** The guard of verify: locked, and the clock still reads the challenge's window. */
  predicate Blocked(u: UserRecord, guardSeed: int) {
    u.locked && u.stime == Some(guardSeed)
  }

  /** The proof tokenize(key1, key2, seed) derives for a record; with no challenge
      issued, str(None) is not a digit string. */
  function Expected(ops: FloatOps, u: UserRecord, seed: int): Result<real, TokenError> {
    match u.key2
    case None => Failure(NotADigit)
    case Some(k2) => TokenOf(ops, u.key1, k2, seed)
  }

  /** verify(token): the reply and the new record. `guardSeed` is the clock read by
      the guard, `proofSeed` the clock read for the proof. */
  function Verify(ops: FloatOps, u: UserRecord, token: real, guardSeed: int, proofSeed: int)
    : (res: (Result<bool, TokenError>, UserRecord))
    ensures res.1.locked
    ensures res.1.key1 == u.key1 && res.1.key2 == u.key2 && res.1.stime == u.stime
    ensures Blocked(u, guardSeed) ==> res == (Success(false), u)
    ensures res.0 == Success(true) <==> !Blocked(u, guardSeed) && Expected(ops, u, proofSeed) == Success(token)
    ensures res.0.Failure? <==> !Blocked(u, guardSeed) && Expected(ops, u, proofSeed).Failure?
    ensures !Blocked(u, guardSeed) && Expected(ops, u, proofSeed).Failure? ==>
      res.0 == Failure(Expected(ops, u, proofSeed).error)
  {
    if Blocked(u, guardSeed) then (Success(false), u)
    else
      var v := u.(locked := true);
      match Expected(ops, u, proofSeed)
      case Failure(e) => (Failure(e), v)
      case Success(proof) => (Success(proof == token), v)
  }

  /** Every record holds keys from the key range, and a challenge always
      comes with its window. */
  ghost predicate WellFormed(users: Users) {
    forall n :: n in users ==>
      InKeyRange(users[n].key1) &&
      (users[n].key2.Some? ==> InKeyRange(users[n].key2.value)) &&
      (users[n].key2.Some? <==> users[n].stime.Some?)
  }

  /** register_user: the stored secret of a known name, or a new record. */
  function Register(users: Users, name: string, freshKey: int): (r: (Users, int))
    ensures r.0.Keys == users.Keys + {name}
    ensures forall n :: n in users ==> r.0[n] == users[n]
    ensures r.1 == r.0[name].key1
    ensures name !in users ==> r.0[name] == NewUser(freshKey)
    ensures WellFormed(users) && InKeyRange(freshKey) ==> WellFormed(r.0)
  {
    if name in users then (users, users[name].key1)
    else (users[name := NewUser(freshKey)], freshKey)
  }

  /** issue_challenge: None for an unknown name, otherwise the new challenge. */
  function IssueChallenge(users: Users, name: string, freshKey: int, seed: int): (r: (Users, Option<int>))
    ensures r.0.Keys == users.Keys
    ensures forall n :: n in users && n != name ==> r.0[n] == users[n]
    ensures r.1.Some? <==> name in users
    ensures name in users ==> r.1 == Some(freshKey) && r.0[name] == Challenge(users[name], freshKey, seed)
    ensures WellFormed(users) && InKeyRange(freshKey) ==> WellFormed(r.0)
  {
    if name !in users then (users, None)
    else (users[name := Challenge(users[name], freshKey, seed)], Some(freshKey))
  }

  /** verify_token: False for an unknown name, otherwise the record's verify. */
  function VerifyToken(ops: FloatOps, users: Users, name: string, token: real, guardSeed: int, proofSeed: int)
    : (r: (Users, Result<bool, TokenError>))
    ensures name !in users ==> r == (users, Success(false))
    ensures r.0.Keys == users.Keys
    ensures forall n :: n in users && n != name ==> r.0[n] == users[n]
    ensures name in users ==> (r.1, r.0[name]) == Verify(ops, users[name], token, guardSeed, proofSeed)
    ensures WellFormed(users) ==> WellFormed(r.0)
  {
    if name !in users then (users, Success(false))
    else
      var (res, u) := Verify(ops, users[name], token, guardSeed, proofSeed);
      (users[name := u], res)
  }

  /** One call into the server, with the random key and the clock readings it uses. */
  datatype Request =
    | RegisterReq(name: string, freshKey: int)
    | ChallengeReq(name: string, freshKey: int, now: Clock)
    | VerifyReq(name: string, token: real, guardNow: Clock, proofNow: Clock)

  /** The mapping after one request. */
  function Step(ops: FloatOps, users: Users, req: Request): Users {
    match req
    case RegisterReq(name, k) => Register(users, name, k).0
    case ChallengeReq(name, k, now) => IssueChallenge(users, name, k, TimeSeed(now, 0)).0
    case VerifyReq(name, t, g, p) => VerifyToken(ops, users, name, t, TimeSeed(g, 0), TimeSeed(p, 0)).0
  }

  /** The mapping after a sequence of requests. */
  function Run(ops: FloatOps, users: Users, reqs: seq<Request>): Users
    decreases |reqs|
  {
    if reqs == [] then users else Run(ops, Step(ops, users, reqs[0]), reqs[1..])
  }

  /** Keys drawn by every request lie in the key range. */
  predicate KeysInRange(reqs: seq<Request>) {
    forall i :: 0 <= i < |reqs| ==> !reqs[i].VerifyReq? ==> InKeyRange(reqs[i].freshKey)
  }

  /** Over any run, no identity is forgotten, no secret rotates and no lock is cleared. */
  lemma {:induction false} RunKeepsSecretsAndLocks(ops: FloatOps, users: Users, reqs: seq<Request>)
    ensures forall n :: n in users ==>
      n in Run(ops, users, reqs) &&
      Run(ops, users, reqs)[n].key1 == users[n].key1 &&
      (users[n].locked ==> Run(ops, users, reqs)[n].locked)
    decreases |reqs|
  {
    if reqs != [] {
      var next := Step(ops, users, reqs[0]);
      assert forall n :: n in users ==> n in next && next[n].key1 == users[n].key1 && (users[n].locked ==> next[n].locked);
      RunKeepsSecretsAndLocks(ops, next, reqs[1..]);
    }
  }

  /** Any run whose keys come from the key range keeps the mapping well formed. */
  lemma {:induction false} RunWellFormed(ops: FloatOps, users: Users, reqs: seq<Request>)
    requires WellFormed(users) && KeysInRange(reqs)
    ensures WellFormed(Run(ops, users, reqs))
    decreases |reqs|
  {
    if reqs != [] {
      assert !reqs[0].VerifyReq? ==> InKeyRange(reqs[0].freshKey);
      assert KeysInRange(reqs[1..]) by {
        forall i | 0 <= i < |reqs[1..]| && !reqs[1..][i].VerifyReq?
          ensures InKeyRange(reqs[1..][i].freshKey)
        {
          assert reqs[1..][i] == reqs[i + 1];
        }
      }
      RunWellFormed(ops, Step(ops, users, reqs[0]), reqs[1..]);
    }
  }

  /** Registering twice returns the same secret and leaves the mapping as the first call left it. */
  lemma RegisterIdempotent(users: Users, name: string, k1: int, k2: int)
    ensures Register(Register(users, name, k1).0, name, k2) == Register(users, name, k1)
  {
  }

  /** After a first attempt, a second verify whose guard still reads the challenge's
      window is refused and changes nothing, whatever token either carries. */
  lemma SecondAttemptRefused(ops: FloatOps, users: Users, name: string, s: int,
                             t1: real, g1: int, p1: int, t2: real, p2: int)
    requires name in users && users[name].stime == Some(s)
    ensures var after := VerifyToken(ops, users, name, t1, g1, p1).0;
      VerifyToken(ops, after, name, t2, s, p2) == (after, Success(false))
  {
    var after := VerifyToken(ops, users, name, t1, g1, p1).0;
    assert Blocked(after[name], s);
    assert after[name := after[name]] == after;
  }

  /** A new challenge does not reopen verification: once locked, a verify in the
      new challenge's own window is refused for every token, the correct one included. */
  lemma LockOutlivesChallenge(ops: FloatOps, users: Users, name: string, k: int, s: int, token: real, p: int)
    requires name in users && users[name].locked
    ensures var after := IssueChallenge(users, name, k, s).0;
      VerifyToken(ops, after, name, token, s, p) == (after, Success(false))
  {
    var after := IssueChallenge(users, name, k, s).0;
    assert Blocked(after[name], s);
    assert after[name := after[name]] == after;
  }

  /** A verify before any challenge raises inside tokenize, yet it still consumes the
      lock: the first challenge's whole window is then closed to verification. */
  lemma EarlyVerifyClosesFirstWindow(ops: FloatOps, users: Users, name: string, key1: int, key2: int,
                                     t1: real, g1: int, p1: int, s: int, t2: real, p2: int)
    requires name !in users
    ensures var m1 := Register(users, name, key1).0;
      var (m2, r1) := VerifyToken(ops, m1, name, t1, g1, p1);
      var m3 := IssueChallenge(m2, name, key2, s).0;
      r1 == Failure(NotADigit) && m2[name].locked &&
      VerifyToken(ops, m3, name, t2, s, p2).1 == Success(false)
  {
  }

  /** Once the clock has left the challenge's window the guard never fires: every
      attempt is processed and compared against the proof for the current window. */
  lemma StaleWindowAlwaysProcessed(ops: FloatOps, users: Users, name: string, token: real, g: int, p: int)
    requires name in users && users[name].stime != Some(g)
    ensures VerifyToken(ops, users, name, token, g, p).1 ==
      match Expected(ops, users[name], p)
      case Failure(e) => Failure(e)
      case Success(proof) => Success(proof == token)
  {
  }

  /** In a well-formed mapping, a challenged identity's verify never raises for
      a non-negative clock window; an unchallenged, unblocked one always does. */
  lemma VerifyRaisesExactlyWithoutChallenge(ops: FloatOps, users: Users, name: string, token: real, g: int, p: int)
    requires WellFormed(users) && name in users && p >= 0
    requires !Blocked(users[name], g)
    ensures VerifyToken(ops, users, name, token, g, p).1.Failure? <==> users[name].key2.None?
  {
    if users[name].key2.Some? {
      KeysAlwaysTokenize(ops, users[name].key1, users[name].key2.value, p);
    }
  }

  /** The intended flow for a new identity: register, take a challenge, submit the
      proof for that window within the same hour: accepted; the same proof again in
      that hour: refused. */
  lemma FirstLoginThenReplay(ops: FloatOps, users: Users, name: string, s: int, c: int, now: Clock)
    requires name !in users && InKeyRange(s) && InKeyRange(c) && now.Valid()
    ensures var (m1, key1) := Register(users, name, s);
      var (m2, key2) := IssueChallenge(m1, name, c, TimeSeed(now, 0));
      var w := TimeSeed(now, 0);
      key1 == s && key2 == Some(c) &&
      TokenOf(ops, s, c, w).Success? &&
      var proof := TokenOf(ops, s, c, w).value;
      var (m3, r1) := VerifyToken(ops, m2, name, proof, w, w);
      r1 == Success(true) &&
      VerifyToken(ops, m3, name, proof, w, w).1 == Success(false)
  {
    KeysAlwaysTokenize(ops, s, c, TimeSeed(now, 0));
  }
}
