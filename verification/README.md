# zkpServer challenge-response core, modelled in Dafny

This project models the in-memory authentication core of `app/main.py`:

- `time_seed`: the hourly window `day * 100 + hour + offset`.
- `tokenize`: the proof derivation. It splits both keys into decimal digit lists, refuses lists of different lengths, sums one floating-point term per digit position, and rounds the sum to `KEY_LENGTH` significant digits.
- `ZKUser`: the per-identity record with fields `key1`, `key2`, `stime` and `locked`.
- `ZKServer`: the `users` dictionary and the operations `register_user`, `issue_challenge` and `verify_token`.

Modules:

- `TimeWindow` (`time_window.dfy`): the clock reading `Clock(day, hour)` and `TimeSeed`. A wall-clock read becomes a `Clock` parameter.
- `DecimalDigits` (`digits.dfy`): `Digits(n)`, which is `[int(d) for d in str(n)]` for `n >= 0`, plus its length law.
- `ProofDerivation` (`tokenize.dfy`): the exact integer part of `tokenize`.
  - The integer part is the digit split, the length check, the term `a * seed ** b`, the `tval == 0` branch, the left-to-right loop and the zero case of `round_sig`.
  - The platform's floating-point primitives are a `FloatOps` value of function values: `10 ** (log10 t % 1)`, `sin`, `tan`, whether a term raises `OverflowError`, float addition, and `round_sig` for non-zero values.
  - The specification function `TokenOf` is what the loop method `Tokenize` is proved to compute.
- `Protocol` (`protocol.dfy`): the state machine on values.
  - `UserRecord` holds the record fields and `Users` the mapping.
  - `Register`, `IssueChallenge` and `VerifyToken` map an old mapping to the new mapping and the reply.
  - `Run` folds a sequence of requests. The lemmas state the protocol's properties.
- `Server` (`server.dfy`): the classes `ZKUser` and `ZKServer`, with fields updated in place. Each method is proved to change the abstract state exactly as the matching `Protocol` function does.

Errors that Python raises are `Failure` values of `TokenError`:

- `NotADigit`: `int('-')` for a negative key, or `int('N')` for `str(None)` when `verify` runs before any challenge.
- `LengthMismatch`: the explicit check at `app/main.py:40-41`.
- `MathDomain`: `math.log` of a negative term when the seed is negative and a digit exponent is odd. The `except OverflowError` does not catch this error.

Behaviour the proofs make explicit:

- `locked` is set before `tokenize` runs, so an attempt that raises still consumes the lock.
- The lock is never cleared, and a new challenge does not clear it. A verify whose guard reads the same window as the latest challenge is therefore refused for any identity that has attempted verification before, whatever token it submits (`LockOutlivesChallenge`).
- When the clock has left the challenge's window, every attempt is processed again (`StaleWindowAlwaysProcessed`).
- `verify` reads the clock twice: at line 70, only when the record is locked, and at line 73. The model keeps the two readings as separate parameters.
- `issue_challenge` returns `None` for an unknown name rather than raising.
- A new challenge does not reset `locked`.
- `tokenize` can raise `ValueError` for reasons other than a length mismatch (see the list above).
- Only `OverflowError` is absorbed per position.
- With integer keys and seed, no step of the `try` block can actually raise `OverflowError`: `**` on ints is exact, `math.log` accepts any int, and the mantissa lies in [1, 10). The model keeps the absorbing branch behind `FloatOps.overflows`, which is a harmless over-approximation.

## Model

| member | source | states |
|---|---|---|
| TimeWindow.TimeSeed | app/main.py:26-28 | for a calendar reading (day 1..31, hour 0..23) the seed lies in 100+offset .. 3123+offset |
| TimeWindow.SameWindow | app/main.py:26-28 | with equal offsets two calendar readings give equal seeds iff they have the same day of month and the same hour |
| DecimalDigits.Digits | app/main.py:38-39 | the digit list is non-empty, every entry is below 10, its first digit is 0 only for n = 0 (no leading zero), and it denotes n again (round trip through `Value`) |
| DecimalDigits.DigitsLength | app/main.py:38-40 | n has exactly len digits iff n < 10^len and (len = 1 or n >= 10^(len-1)) |
| DecimalDigits.SameLength | app/main.py:38-41 | two keys from [10^(len-1), 10^len - 1] both have digit lists of length len, so the length check passes |
| ProofDerivation.RoundSig | app/main.py:30-35 | zero rounds to exactly zero; any other value goes to the platform's significant-digit rounding |
| ProofDerivation.Tokenize | app/main.py:37-54 | the loop over digit positions returns exactly `TokenOf`: `NotADigit` for a negative key, `LengthMismatch` for digit lists of different lengths, `MathDomain` at the first negative term, otherwise the rounded left-to-right sum of the per-position terms |
| ProofDerivation.AccumulateOutcome | app/main.py:42-53 | the loop only ever raises a math-domain error, and it completes iff every position's integer term `a * seed ** b` is non-negative |
| ProofDerivation.AccumulateFailureSticks | app/main.py:43-53 | once a position raises, the loop's outcome is that error whatever the later positions hold |
| ProofDerivation.LengthMismatchExactly | app/main.py:38-41 | tokenize raises the length error iff both keys are non-negative and their digit lists differ in length |
| ProofDerivation.NotADigitExactly | app/main.py:38-39 | tokenize fails on a non-digit character iff a key is negative |
| ProofDerivation.KeysAlwaysTokenize | app/main.py:37-54 | two keys from the key range with a non-negative seed always yield a token (no error of any kind) |
| ProofDerivation.LengthExamples | app/main.py:38-41 | 12 against 123 raises the length error; 12 against 34 yields a token for every non-negative seed |
| Protocol.Challenge | app/main.py:64-67 | a challenge stores the new key2 and the current window, and keeps key1 and locked, so a prior lock survives it |
| Protocol.Verify | app/main.py:69-75 | the record is locked afterwards and otherwise unchanged; a blocked record (locked, guard clock in the challenge's window) gets False and stays unchanged; the reply is True iff not blocked and the token equals the proof for the proof-time window (not the stored window); it raises iff not blocked and the proof raises, and then it raises exactly the proof's error |
| Protocol.Register | app/main.py:81-86 | the name is afterwards registered, no existing record changes, the reply is the stored key1 of that name, and a new name gets key1 = the drawn key, no challenge, no window, unlocked; well-formedness is kept |
| Protocol.IssueChallenge | app/main.py:88-91 | the names are unchanged, no other record changes, the reply is None iff the name is unknown, and otherwise it is the drawn key with the record challenged; well-formedness is kept |
| Protocol.VerifyToken | app/main.py:93-97 | an unknown name gets False and the mapping is unchanged; otherwise only that record changes, as `Verify` says; well-formedness is kept |
| Protocol.RunKeepsSecretsAndLocks | app/main.py:56-97 | over any sequence of requests, no name disappears, no key1 changes and no lock is cleared |
| Protocol.RunWellFormed | app/main.py:56-97 | any sequence of requests whose drawn keys come from the key range keeps every key in range and key2 paired with stime |
| Protocol.RegisterIdempotent | app/main.py:81-83 | registering a name twice returns the same key1 and leaves the mapping as the first call left it |
| Protocol.SecondAttemptRefused | app/main.py:69-73 | after any first verify, a second verify whose guard reads the challenge's window returns False and changes nothing, whatever token it carries |
| Protocol.LockOutlivesChallenge | app/main.py:64-71 | for a locked record, a new challenge followed by a verify in that challenge's window returns False for every token |
| Protocol.EarlyVerifyClosesFirstWindow | app/main.py:69-73 | a verify before any challenge raises inside tokenize yet leaves the record locked, and a verify in the first challenge's window then returns False |
| Protocol.StaleWindowAlwaysProcessed | app/main.py:69-75 | when the guard clock is not in the stored window, the reply is the comparison of the token with the proof for the proof-time window |
| Protocol.VerifyRaisesExactlyWithoutChallenge | app/main.py:69-75 | for a well-formed, unblocked record and a non-negative window, verify raises iff no challenge was issued |
| Protocol.FirstLoginThenReplay | app/main.py:81-97 | a new identity that registers, takes a challenge and submits the proof for that window within the hour is accepted; the same proof again in that hour is refused |
| Server.ZKUser.constructor | app/main.py:57-62 | a new record has the given name and key1, no key2, no stime, and is unlocked |
| Server.ZKUser.GetChallengeKey | app/main.py:64-67 | returns the drawn key; the record becomes `Challenge` of its old value at the current window |
| Server.ZKUser.Verify | app/main.py:69-75 | the reply and the new record are exactly `Protocol.Verify` of the old record at the two clock readings, using the `Tokenize` loop |
| Server.ZKServer.constructor | app/main.py:78-79 | the server starts with no users |
| Server.ZKServer.RegisterUser | app/main.py:81-86 | the new state and reply are `Protocol.Register` of the old state; the object invariant is kept |
| Server.ZKServer.IssueChallenge | app/main.py:88-91 | the dictionary is unchanged, and the new state and reply are `Protocol.IssueChallenge` of the old state (only the named user object changes) |
| Server.ZKServer.VerifyToken | app/main.py:93-97 | the dictionary is unchanged, and the new state and reply are `Protocol.VerifyToken` of the old state (only the named user object changes) |

## Left out

- The FastAPI application, CORS set-up, templates, the route handlers and their `HTTPException` replies (app/main.py:1-22, 99-156). This is transport glue. It includes the `seed` that `/challenge` reports from a third clock reading.
- The `print` of the real token at app/main.py:74 (console output).
- The floating-point body of `tokenize` and `round_sig` for non-zero values. `math.log`, `% 1`, `**` on floats, `sin`, `tan`, float addition, `log10`/`round`, and which terms raise `OverflowError` are not modelled bit for bit. They are the fields of `FloatOps`, so the model relies only on the derivation being a function of its arguments.
- ProofDerivation.RoundSig: does not state that a non-zero result has `KEY_LENGTH` significant digits, because that is a property of floating-point `round`.
- `round_sig`'s default `sig=3`, which no caller uses.
- `random.randint` and `datetime.now`. The drawn key is a method parameter, limited by `requires` to the randint range. Clock readings are `Clock` parameters.
- Keys of types other than `int`. Python would accept any object whose `str` is a digit string; the model's keys are integers, and an absent challenge is `None`.
- Concurrency. The source has no locking across requests, and the model is sequential.
