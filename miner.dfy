/**
 * The mining loop of `main` once a connection stands: request a job, parse
 * it, search for the nonce, submit it, read the verdict and count it.
 * What the pool sends is given as input text; what the client sends is
 * returned.
 */
module Miner {
  import opened Wrappers
  import opened Decimal
  import opened Protocol
  import opened Solver
  import opened Text
  import opened Tally

  /** What the pool sends during one round, and the hashrate text the client computes for it. */
  datatype RoundInput = RoundInput(jobLine: string, hashrate: string, feedback: string)

  /** How one round ends. */
  datatype RoundOutcome =
    | Failed(failure: Failure)                                      // an exception: the process restarts
    | Exhausted                                                     // no nonce in range: nothing is sent
    | Submitted(nonce: nat, resultLine: string, outcome: ShareOutcome)

  /** One round as a value: parse the job, encode the seed, read the difficulty, search, and classify the verdict. */
  function Round(sha1: string -> string, input: RoundInput): RoundOutcome {
    match ParseJob(input.jobLine)
    case Err(e) => Failed(e)
    case Ok(job) => RoundOfJob(sha1, job, input)
  }

  /**
   * The rest of a round once its job line has parsed: `calculate_hash`
   * encodes the seed as ASCII before it reads the difficulty.
   */
  function RoundOfJob(sha1: string -> string, job: Job, input: RoundInput): RoundOutcome {
    if !IsAscii(job.seed) then Failed(NonAsciiSeed(job.seed))
    else match ParseInt(job.difficultyRaw)
    case None => Failed(BadDifficulty(job.difficultyRaw))
    case Some(difficulty) =>
      match FirstNonce(sha1, job.seed, job.targetDigest, difficulty)
      case None => Exhausted
      case Some(nonce) => Submitted(nonce, ResultLine(nonce, input.hashrate), Classify(input.feedback))
  }

  /**
   * A submitted round carries the smallest solving nonce in range for the
   * job it received, the result line for that nonce, and the verdict read
   * from the feedback line.
   */
  lemma RoundSubmitted(sha1: string -> string, input: RoundInput)
    requires Round(sha1, input).Submitted?
    ensures ParseJob(input.jobLine).Ok?
    ensures var job := ParseJob(input.jobLine).value;
      var r := Round(sha1, input);
      IsAscii(job.seed)
      && ParseInt(job.difficultyRaw).Some?
      && r.nonce <= 100 * ParseInt(job.difficultyRaw).value
      && IsNonce(sha1, job.seed, job.targetDigest, r.nonce)
      && (forall i: nat :: i < r.nonce ==> !IsNonce(sha1, job.seed, job.targetDigest, i))
      && r.resultLine == ResultLine(r.nonce, input.hashrate)
      && r.outcome == Classify(input.feedback)
  {
    var job := ParseJob(input.jobLine).value;
    FirstNonceSpec(sha1, job.seed, job.targetDigest, ParseInt(job.difficultyRaw).value);
  }

  /** A well-formed job ends a round without a submission exactly when no candidate in range solves it. */
  lemma RoundExhausted(sha1: string -> string, input: RoundInput, job: Job, difficulty: int)
    requires ParseJob(input.jobLine) == Ok(job)
    requires IsAscii(job.seed)
    requires ParseInt(job.difficultyRaw) == Some(difficulty)
    ensures Round(sha1, input).Exhausted?
        <==> forall i: nat :: i <= 100 * difficulty ==> !IsNonce(sha1, job.seed, job.targetDigest, i)
  {
    FirstNonceSpec(sha1, job.seed, job.targetDigest, difficulty);
  }

  /**
   * A round fails exactly when its job line has fewer than three fields,
   * its seed is not ASCII, or its difficulty is not an integer, and the
   * failure names the first of these that applies.
   */
  lemma RoundFailed(sha1: string -> string, input: RoundInput)
    ensures ParseJob(input.jobLine).Err? ==> Round(sha1, input) == Failed(ParseJob(input.jobLine).error)
    ensures ParseJob(input.jobLine).Ok? ==>
      var job := ParseJob(input.jobLine).value;
      (!IsAscii(job.seed) ==> Round(sha1, input) == Failed(NonAsciiSeed(job.seed)))
      && (IsAscii(job.seed) && ParseInt(job.difficultyRaw).None?
          ==> Round(sha1, input) == Failed(BadDifficulty(job.difficultyRaw)))
      && (IsAscii(job.seed) && ParseInt(job.difficultyRaw).Some? ==> !Round(sha1, input).Failed?)
  {
    if ParseJob(input.jobLine).Ok? {
      var job := ParseJob(input.jobLine).value;
      if IsAscii(job.seed) && ParseInt(job.difficultyRaw).Some? {
        FirstNonceSpec(sha1, job.seed, job.targetDigest, ParseInt(job.difficultyRaw).value);
      }
    }
  }

  /**
   * One pass of the inner `while True` loop of `main`: the job request it
   * sends, how the round ends, and the tally after it. Only a submitted
   * share changes the tally, and by exactly one verdict.
   */
  method MiningRound(sha1: string -> string, tally: ShareTally,
                     username: string, useLowerDiff: bool, miningKey: string, input: RoundInput)
    returns (request: string, round: RoundOutcome)
    requires tally.Valid()
    modifies tally
    ensures tally.Valid()
    ensures request == JobRequest(username, useLowerDiff, miningKey)
    ensures round == Round(sha1, input)
    ensures tally.history == old(tally.history) + (if round.Submitted? then [round.outcome] else [])
    ensures round.Submitted? && round.outcome == Accepted
            ==> tally.accepted == old(tally.accepted) + 1 && tally.rejected == old(tally.rejected)
    ensures round.Submitted? && round.outcome == Rejected
            ==> tally.rejected == old(tally.rejected) + 1 && tally.accepted == old(tally.accepted)
    ensures !round.Submitted? ==> tally.accepted == old(tally.accepted) && tally.rejected == old(tally.rejected)
  {
    request := JobRequest(username, useLowerDiff, miningKey);
    var parsed := ParseJob(input.jobLine);
    if parsed.Err? {
      return request, Failed(parsed.error);
    }
    var job := parsed.value;
    if !IsAscii(job.seed) {
      return request, Failed(NonAsciiSeed(job.seed));
    }
    var difficulty := ParseInt(job.difficultyRaw);
    if difficulty.None? {
      return request, Failed(BadDifficulty(job.difficultyRaw));
    }
    var result := CalculateHash(sha1, job.seed, job.targetDigest, difficulty.value);
    if result.None? {
      return request, Exhausted;
    }
    var line := ResultLine(result.value, input.hashrate);
    var outcome := tally.RecordVerdict(input.feedback);
    round := Submitted(result.value, line, outcome);
  }
}
