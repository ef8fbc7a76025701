/**
 * The server objects: `ZKUser` records whose fields are updated in place, and
 * `ZKServer`, whose `users` dictionary is updated in place. Each method is
 * proved to move the abstract state exactly as the functions of module
 * Protocol say. The random key and the clock readings are parameters.
 */
module Server {
  import opened Wrappers
  import opened ProofDerivation
  import opened TimeWindow
  import opened Protocol

  class ZKUser {
    const name: string
    const key1: int
    var key2: Option<int>
    var stime: Option<int>
    var locked: bool

    /** The record this object holds. */
    function Record(): UserRecord
      reads this
    {
      UserRecord(key1, key2, stime, locked)
    }

    constructor (name: string, key1: int)
      ensures this.name == name
      ensures Record() == NewUser(key1)
    {
      this.name := name;
      this.key1 := key1;
      key2 := None;
      stime := None;
      locked := false;
    }

    /** Draws a new challenge (`freshKey`, from random.randint) bound to the window of `now`. */
    method GetChallengeKey(freshKey: int, now: Clock) returns (k: int)
      requires InKeyRange(freshKey)
      modifies this
      ensures k == freshKey
      ensures Record() == Challenge(old(Record()), freshKey, TimeSeed(now, 0))
    {
      key2 := Some(freshKey);
      stime := Some(TimeSeed(now, 0));
      k := freshKey;
    }

    /** Checks a submitted token; `guardNow` is the clock the guard reads (only
        when locked), `proofNow` the clock read for the proof. */
    method Verify(ops: FloatOps, token: real, guardNow: Clock, proofNow: Clock)
      returns (r: Result<bool, TokenError>)
      modifies this
      ensures (r, Record()) == Protocol.Verify(ops, old(Record()), token, TimeSeed(guardNow, 0), TimeSeed(proofNow, 0))
    {
      if locked && stime == Some(TimeSeed(guardNow, 0)) {
        return Success(false);
      }
      locked := true;
      if key2.None? {
        // str(None) is "None", whose first character is not a digit
        return Failure(NotADigit);
      }
      var proof := Tokenize(ops, key1, key2.value, TimeSeed(proofNow, 0));
      match proof
      case Failure(e) => r := Failure(e);
      case Success(p) => r := Success(p == token);
    }
  }

  class ZKServer {
    /** The floating-point behaviour of the platform the server runs on. */
    const ops: FloatOps
    var users: map<string, ZKUser>

    /** Each record is filed under its own name, so distinct names hold distinct
        objects; and every record is well formed. */
    ghost predicate Valid()
      reads this, users.Values
    {
      (forall n :: n in users ==> users[n].name == n) &&
      WellFormed(State())
    }

    /** The mapping from name to record that the objects hold. */
    ghost function State(): Users
      reads this, users.Values
    {
      map n | n in users :: users[n].Record()
    }

    constructor (ops: FloatOps)
      ensures Valid()
      ensures this.ops == ops && State() == map[]
    {
      this.ops := ops;
      users := map[];
    }

    /** register_user; `freshKey` is what random.randint would draw for a new name. */
    method RegisterUser(name: string, freshKey: int) returns (key1: int)
      requires Valid() && InKeyRange(freshKey)
      modifies this
      ensures Valid()
      ensures (State(), key1) == Register(old(State()), name, freshKey)
    {
      if name in users {
        return users[name].key1;
      }
      var u := new ZKUser(name, freshKey);
      users := users[name := u];
      key1 := freshKey;
      assert State() == old(State())[name := NewUser(freshKey)];
    }

    /** issue_challenge; `freshKey` is what random.randint would draw, `now` the clock. */
    method IssueChallenge(name: string, freshKey: int, now: Clock) returns (k: Option<int>)
      requires Valid() && InKeyRange(freshKey)
      modifies users.Values
      ensures Valid() && users == old(users)
      ensures (State(), k) == Protocol.IssueChallenge(old(State()), name, freshKey, TimeSeed(now, 0))
    {
      if name !in users {
        return None;
      }
      var u := users[name];
      var key2 := u.GetChallengeKey(freshKey, now);
      k := Some(key2);
      assert forall n :: n in users && n != name ==> users[n] != u;
      assert State() == old(State())[name := Challenge(old(State())[name], freshKey, TimeSeed(now, 0))];
    }

    /** verify_token; `guardNow` and `proofNow` are the two clock readings of verify. */
    method VerifyToken(name: string, token: real, guardNow: Clock, proofNow: Clock)
      returns (r: Result<bool, TokenError>)
      requires Valid()
      modifies users.Values
      ensures Valid() && users == old(users)
      ensures (State(), r) == Protocol.VerifyToken(ops, old(State()), name, token, TimeSeed(guardNow, 0), TimeSeed(proofNow, 0))
    {
      if name !in users {
        return Success(false);
      }
      var u := users[name];
      r := u.Verify(ops, token, guardNow, proofNow);
      assert forall n :: n in users && n != name ==> users[n] != u;
      assert State() == old(State())[name := u.Record()];
    }
  }
}
