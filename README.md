# Duino-Coin style mining client (`num.py`) in Dafny

This project models the logic of the single-process mining client in `num.py`, leaving out its I/O.
The client asks a pool locator for a node, sends job requests over a line protocol, and searches for the nonce whose SHA-1 digest matches the job's target.
It then submits the nonce, reads the pool's verdict and counts accepted and rejected shares.

Modules and files:

- `wrappers.dfy` (`Wrappers`): `Option` and `Result`, used for Python's `None` and for raised exceptions.
- `decimal.dfy` (`Decimal`): `str(n)` for the nonce and `int(s)` for the difficulty field, with their round trip.
- `text.dfy` (`Text`): `rstrip("\n")`, `split(",")` and `",".join(...)`, with the split/join round trips.
- `solver.dfy` (`Solver`): `calculate_hash`, an imperative bounded linear search with early exit (`CalculateHash`).
  It is proved against the reference function `FirstNonce`.
  SHA-1 is a parameter `sha1: string -> string`, the hex digest of a whole message.
  A `hashlib.sha1` object is modelled as the message it has absorbed so far.
  That is the one assumption made about SHA-1: hashing the seed once, copying the object and updating the copy gives the digest of the concatenation (`CopyUpdateDigest`).
- `protocol.dfy` (`Protocol`): the job request, job-line parsing, the result line, the verdict, and the `use_lower_diff` rule.
- `tally.dfy` (`Tally`): the class `ShareTally`, with the mutable counters `accepted` and `rejected`.
  It keeps a ghost history of verdicts that each counter counts.
- `locator.dfy` (`Locator`): `fetch_pool`, an imperative retry loop of at most `MaxRetries` (5) attempts, then the fallback node `server.duinocoin.com:2813`.
- `miner.dfy` (`Miner`): one pass of the inner mining loop of `main`.
  It covers the request, parsing, the search, the submission and the tally update.
  The pool's lines come in as input strings.

Behaviour of the code that the model follows:

- The code strips all trailing newlines from a received line, not just one (`rstrip("\n")`).
- An exhausted search sends nothing and changes no counter. It is not counted as a rejection.
- A job line with fewer than three fields raises an `IndexError`. In the model that is `Failed(MissingFields(n))`.
- A seed that is not ASCII raises a `UnicodeEncodeError` in `calculate_hash` before any candidate is tried. In the model that is `Failed(NonAsciiSeed(seed))`.
- A difficulty that `int()` cannot read raises a `ValueError`. In the model that is `Failed(BadDifficulty(raw))`.

## Model

| member | source | states |
|---|---|---|
| Decimal.NatToDecimal | num.py:86 | `str(n)` is a non-empty digit string with no leading zero, and it starts with '0' only for zero |
| Decimal.DigitsValueOfDecimal | num.py:86 | reading the decimal text of n as digits gives back n |
| Decimal.ParseIntOfDecimal | num.py:84 | `int(str(n)) == n` and `int("-" + str(n)) == -n` |
| Decimal.DecimalInjective | num.py:86 | distinct candidates have distinct decimal texts (a stand-alone fact about `str(n)`; no other proof uses it) |
| Decimal.ParseInt | num.py:84 | `int(difficulty)`; characterised by ParseIntOfDigits (every non-empty digit run, optionally signed, reads as its value), ParseIntRejectsEmpty and ParseIntRejects (the ValueError cases: empty, bare sign, a non-digit after the sign) |
| Decimal.ParseIntOfDigits | num.py:84 | `int()` of a non-empty run of ASCII digits, leading zeros allowed, is its value, with `+` keeping it and `-` negating it |
| Decimal.ParseIntRejectsEmpty | num.py:84 | `int("")`, `int("+")` and `int("-")` are the ValueError (None), as for the job line `seed,digest,\n` |
| Decimal.ParseIntRejects | num.py:84 | `int()` of a string with a non-digit after the optional sign is the ValueError (None) |
| Text.Split | num.py:118 | `split(",")` gives at least one field, no field holds the separator, there is one more field than separators, and joining the fields gives the string back |
| Text.SplitAfterField | num.py:118 | a separator-free field followed by the separator comes off as the first field |
| Text.SplitOfField | num.py:118 | a separator-free string splits into itself alone |
| Text.SplitOfJoin | num.py:118 | splitting a join of separator-free fields gives exactly those fields |
| Text.RStripNewlines | num.py:118 | `rstrip("\n")` is a prefix of the line, drops only newlines, and leaves no trailing newline |
| Text.RStripOfTerminatedLine | num.py:118 | stripping a line with one terminating newline gives its content |
| Solver.HexDigest | num.py:87 | `temp_hash.hexdigest()`; characterised by CopyUpdateDigest: the digest of the seed's object copied and updated with a candidate is sha1 of seed + candidate |
| Solver.NewSha1 | num.py:83 | `hashlib.sha1(seed)`: an object that has absorbed the seed; characterised by CopyUpdateDigest |
| Solver.Copy | num.py:85 | `base_hash.copy()`: an object in the same state; characterised by CopyUpdateDigest |
| Solver.Update | num.py:86 | `temp_hash.update(str(result))`: appends the candidate's text to the absorbed message; characterised by CopyUpdateDigest |
| Solver.CopyUpdateDigest | num.py:83-87 | digesting a copy of the seed's hash object after an update with a suffix equals hashing seed + suffix |
| Solver.FirstNonceFromSpec | num.py:84-90 | the search over from..last returns an in-range solving candidate with no smaller solving candidate, and returns None exactly when none solves |
| Solver.FirstNonce | num.py:84-90 | the value `calculate_hash` returns; characterised by FirstNonceSpec (below) and computed by CalculateHash |
| Solver.FirstNonceSpec | num.py:84-90 | the result is in 0..100*difficulty, solves the job and is the smallest such; None exactly when no candidate in range solves it (difficulty 0 tries only 0, a negative difficulty tries nothing) |
| Solver.FirstNonceAtMost | num.py:84-89 | an in-range solving candidate k guarantees a result no larger than k |
| Solver.CalculateHash | num.py:81-90 | the ascending loop with early return yields FirstNonce: the first, minimal solving nonce in range, or None exactly when none exists |
| Solver.SolvePlanted | num.py:84-89 | a target planted at an in-range candidate k is found at exactly k, provided no earlier candidate's message has the same digest |
| Protocol.UseLowerDiff | num.py:45 | `use_lower_diff`: true for every choice except "n"; characterised by RequestedLevel |
| Protocol.DifficultyLevel | num.py:114 | "LOW" for the lower difficulty, "MEDIUM" otherwise; characterised by RequestedLevel and JobRequestFields |
| Protocol.JobRequest | num.py:115 | the job request line; characterised by JobRequestFields and RequestedLevel |
| Protocol.JobRequestFields | num.py:114-115 | the job request splits into exactly `JOB`, the username, the level and the key, if the username and key hold no comma |
| Protocol.RequestedLevel | num.py:114-115 | the request's level field is "LOW" exactly when the difficulty choice was not "n" (the choice rule of num.py:45 carried into the request) |
| Protocol.JoinStartsWithJob | num.py:118-120 | a joined line of three or more fields starts with its first three fields, followed by nothing or a comma |
| Protocol.ParseJob | num.py:118-120 | a job exactly when the stripped line has at least two commas, else the IndexError with the field count; the job holds the first three comma-free fields of the stripped line and ignores the rest |
| Protocol.ParseJobOfLine | num.py:118-120 | a pool-written line `seed,digest,difficulty\n` parses to exactly that job |
| Protocol.ParseJobTwoFields | num.py:120 | a line with only two fields is the IndexError, not a job |
| Protocol.ResultLine | num.py:128 | the result line; characterised by ResultLineFields |
| Protocol.ResultLineFields | num.py:128 | the result line splits into the decimal nonce, the hashrate and `cppDuco_v1`, and its first field reads back as the nonce |
| Protocol.Classify | num.py:130-131 | the verdict test; characterised by ClassifyAccepted and ClassifyRejected |
| Protocol.ClassifyAccepted | num.py:130-131 | a verdict is accepted exactly when the received text is "GOOD" followed only by newlines |
| Protocol.ClassifyRejected | num.py:130-136 | "BAD", the empty line and "GOOD " are rejections |
| Tally.CountsCoverHistory | num.py:141 | accepted + rejected equals the number of verdicts recorded |
| Tally.CountOfSnoc | num.py:131-136 | one more verdict adds one to its own count and nothing to the other |
| Tally.CountOfMonotone | num.py:131-136 | counts never decrease as verdicts are added |
| Tally.ShareTally.constructor | num.py:29-30 | both counters start at zero with an empty history |
| Tally.ShareTally.Record | num.py:131-136 | exactly one counter rises by one, the other is unchanged, and the verdict is appended to the history |
| Tally.ShareTally.RecordVerdict | num.py:130-136 | the verdict line is classified, then recorded as in Record |
| Tally.ShareTally.Ratio | num.py:141 | the displayed pair is (accepted count, number of verdicts), read from one state, and the first never exceeds the second |
| Tally.GoodThenBad | num.py:130-141 | a "GOOD" then a "BAD" verdict give the ratio 1/2 |
| Locator.FetchPool | num.py:50-67 | at most 5 attempts; the node of the first successful attempt; the default node only when all 5 attempts failed |
| Text.IsAscii | num.py:83 | the condition under which `encode('ascii')` succeeds; characterised by RoundFailed (a non-ASCII seed is the UnicodeEncodeError) and RoundSubmitted |
| Miner.Round | num.py:118-131 | one round as a value; characterised by RoundSubmitted, RoundExhausted and RoundFailed, and computed by MiningRound |
| Miner.RoundOfJob | num.py:83-131 | a round after its job line parsed: the ASCII check of the seed, then the difficulty, the search and the verdict; characterised by the same three lemmas |
| Miner.RoundSubmitted | num.py:118-131 | a submitted round has an ASCII seed and carries the minimal in-range solving nonce of a well-formed job, its result line and the classified verdict |
| Miner.RoundExhausted | num.py:124-126 | a well-formed job sends nothing exactly when no candidate in range solves it |
| Miner.RoundFailed | num.py:83-84 | a round fails exactly when the job line has fewer than three fields, the seed is not ASCII, or the difficulty is not an integer, and the failure names the first of these |
| Miner.MiningRound | num.py:113-141 | sends the job request and ends as the round specification says; only a submitted share changes the tally, by exactly one verdict in the matching counter |

## Left out

- Sockets: creating, connecting, `recv(100)` of the server version, `send`, `recv(1024)` and byte decoding are I/O. Received lines are string inputs. Partial or multi-line reads are not modelled.
- The HTTP request, `urlopen` and JSON decoding in `fetch_pool` are network and library calls. Each attempt's outcome is an input `attempt(k)`. A missing `ip`/`port` key raises inside the `try`, so it counts as a failed attempt (`None`).
- SHA-1's internals are a foreign library. The digest is the parameter `sha1`.
- Wall-clock time, `time.sleep` and the float hashrate `result / (end - start)` are left out, and so is its division by zero. The hashrate's text is an input string with no comma.
- Miner.MiningRound: assumes the timestamp returned with a nonce is truthy. A timestamp of exactly 0.0 would skip the submission in the source.
- Logging and `rich` console output are presentation only.
- The outer `while True` loop, `continue` after a failed connect, and the restart via `os.execl` are process supervision with no terminating behaviour. Any exception restarts the process, which resets both counters to zero. The model treats one failed round as the end (`Failed`).
- The unbounded inner `while True` loop over rounds is modelled one round at a time (`MiningRound`). A multi-round driver is not part of this model.
- The hardcoded credentials and difficulty choice in `get_user_input` are configuration data. The rule `use_lower_diff` is modelled as `UseLowerDiff` over any choice.
- Decimal.ParseIntRejects: `int()` is modelled as an optional sign followed by ASCII digits. Python also accepts surrounding whitespace, underscores between digits and non-ASCII digits, which the model treats as errors.
- Solver.CalculateHash: takes the seed as characters and does not itself raise the `UnicodeEncodeError` of `encode('ascii')` at num.py:83 for a non-ASCII seed; that exception path is modelled one level up, in Miner.RoundOfJob and Miner.MiningRound (`Failed(NonAsciiSeed(seed))`).
- Strings are sequences of characters. The UTF-8 decoding of received bytes and encoding of sent lines is not modelled.
