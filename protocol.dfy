/**
 * The text of the pool's line protocol as the client writes and reads it:
 * the job request, the job line, the result line and the verdict line.
 */
module Protocol {
  import opened Wrappers
  import opened Decimal
  import opened Text

  /** The client identification that ends every result line. */
  const ClientTag: string := "cppDuco_v1"

  /** A job as received: field 0 is the seed, field 1 the target digest, field 2 the difficulty text. */
  datatype Job = Job(seed: string, targetDigest: string, difficultyRaw: string)

  /** The exceptions a mining round can raise before it submits anything. */
  datatype Failure =
    | MissingFields(received: nat)   // `job[1]` or `job[2]` raised IndexError
    | NonAsciiSeed(seed: string)     // `str(job[0]).encode('ascii')` raised UnicodeEncodeError
    | BadDifficulty(raw: string)     // `int(difficulty)` raised ValueError

  /** The pool's verdict on a submitted share. */
  datatype ShareOutcome = Accepted | Rejected

  /** `use_lower_diff` from the difficulty choice: anything but "n" picks the lower difficulty. */
  function UseLowerDiff(diffChoice: string): bool {
    diffChoice != "n"
  }

  /** The difficulty level named in a job request. */
  function DifficultyLevel(useLowerDiff: bool): string {
    if useLowerDiff then "LOW" else "MEDIUM"
  }

  /** The job request `JOB,<username>,<LOW|MEDIUM>,<mining key>` (no newline is sent). */
  function JobRequest(username: string, useLowerDiff: bool, miningKey: string): string {
    "JOB," + username + "," + DifficultyLevel(useLowerDiff) + "," + miningKey
  }

  /**
   * The job request has four comma-separated fields: the command, the user,
   * the level and the key, provided the user name and the key hold no comma.
   */
  lemma JobRequestFields(username: string, useLowerDiff: bool, miningKey: string)
    requires ',' !in username && ',' !in miningKey
    ensures Split(JobRequest(username, useLowerDiff, miningKey), ',')
         == ["JOB", username, DifficultyLevel(useLowerDiff), miningKey]
  {
    var fields := ["JOB", username, DifficultyLevel(useLowerDiff), miningKey];
    assert Join(fields[3..], ',') == miningKey;
    assert Join(fields[2..], ',') == DifficultyLevel(useLowerDiff) + "," + miningKey;
    assert Join(fields[1..], ',') == username + "," + DifficultyLevel(useLowerDiff) + "," + miningKey;
    assert Join(fields, ',') == JobRequest(username, useLowerDiff, miningKey);
    SplitOfJoin(fields, ',');
  }

  /**
   * Read back from the request line, the level field is "LOW" exactly when
   * the difficulty choice was anything but "n".
   */
  lemma RequestedLevel(username: string, diffChoice: string, miningKey: string)
    requires ',' !in username && ',' !in miningKey
    ensures |Split(JobRequest(username, UseLowerDiff(diffChoice), miningKey), ',')| == 4
    ensures Split(JobRequest(username, UseLowerDiff(diffChoice), miningKey), ',')[2] == "LOW"
        <==> diffChoice != "n"
  {
    JobRequestFields(username, UseLowerDiff(diffChoice), miningKey);
  }

  /** s starts with the job's three fields separated by commas, followed by nothing or by a comma. */
  predicate StartsWithJob(s: string, job: Job) {
    var head := job.seed + "," + job.targetDigest + "," + job.difficultyRaw;
    |head| <= |s| && s[..|head|] == head && (|head| == |s| || s[|head|] == ',')
  }

  /** A join of three or more fields starts with the first three. */
  lemma JoinStartsWithJob(fields: seq<string>)
    requires |fields| >= 3
    ensures StartsWithJob(Join(fields, ','), Job(fields[0], fields[1], fields[2]))
  {
    var tail2 := Join(fields[2..], ',');
    assert Join(fields[1..], ',') == fields[1] + "," + tail2;
    if |fields| == 3 {
      assert tail2 == fields[2];
    } else {
      assert tail2 == fields[2] + "," + Join(fields[3..], ',');
    }
    assert Join(fields, ',') == fields[0] + "," + fields[1] + "," + tail2;
  }

  /**
   * `job = line.rstrip("\n").split(",")` followed by `job[1], job[2]`:
   * a job when the stripped line has at least two commas, otherwise the
   * IndexError, carrying how many fields there were. The job's fields are
   * the first three comma-free pieces of the stripped line; extra fields are
   * ignored.
   */
  function ParseJob(line: string): (r: Result<Job, Failure>)
    ensures r.Ok? <==> Occurrences(RStripNewlines(line), ',') >= 2
    ensures r.Err? ==> r.error == MissingFields(Occurrences(RStripNewlines(line), ',') + 1)
    ensures r.Ok? ==> StartsWithJob(RStripNewlines(line), r.value)
    ensures r.Ok? ==> ',' !in r.value.seed && ',' !in r.value.targetDigest && ',' !in r.value.difficultyRaw
  {
    var fields := Split(RStripNewlines(line), ',');
    if |fields| < 3 then Err(MissingFields(|fields|))
    else
      JoinStartsWithJob(fields);
      Ok(Job(fields[0], fields[1], fields[2]))
  }

  /**
   * A job line as a pool writes it, three comma-free fields and a newline,
   * parses to exactly those fields.
   */
  lemma ParseJobOfLine(job: Job)
    requires ',' !in job.seed && ',' !in job.targetDigest && ',' !in job.difficultyRaw
    requires |job.difficultyRaw| == 0 || job.difficultyRaw[|job.difficultyRaw| - 1] != '\n'
    ensures ParseJob(job.seed + "," + job.targetDigest + "," + job.difficultyRaw + "\n") == Ok(job)
  {
    var content := job.seed + "," + job.targetDigest + "," + job.difficultyRaw;
    var fields := [job.seed, job.targetDigest, job.difficultyRaw];
    RStripOfTerminatedLine(content);
    assert Join(fields[1..], ',') == job.targetDigest + "," + job.difficultyRaw;
    assert Join(fields, ',') == content;
    SplitOfJoin(fields, ',');
  }

  /** A line with only one comma is the IndexError, not a job. */
  lemma ParseJobTwoFields(a: string, b: string)
    requires ',' !in a && ',' !in b
    requires |b| == 0 || b[|b| - 1] != '\n'
    ensures ParseJob(a + "," + b + "\n") == Err(MissingFields(2))
  {
    RStripOfTerminatedLine(a + "," + b);
    assert [a] + [b] == [a, b];
    assert Join([a, b], ',') == a + "," + b;
    SplitOfJoin([a, b], ',');
  }

  /** The result line `<nonce>,<hashrate>,cppDuco_v1` (no newline is sent). */
  function ResultLine(nonce: nat, hashrate: string): string {
    NatToDecimal(nonce) + "," + hashrate + "," + ClientTag
  }

  /**
   * The pool can take a result line apart again: three fields, the first of
   * which reads back as the nonce, provided the hashrate text holds no comma
   * (Python's text of a float never does).
   */
  lemma ResultLineFields(nonce: nat, hashrate: string)
    requires ',' !in hashrate
    ensures Split(ResultLine(nonce, hashrate), ',') == [NatToDecimal(nonce), hashrate, ClientTag]
    ensures ParseInt(Split(ResultLine(nonce, hashrate), ',')[0]) == Some(nonce as int)
  {
    var fields := [NatToDecimal(nonce), hashrate, ClientTag];
    var digits := NatToDecimal(nonce);
    forall k | 0 <= k < |digits|
      ensures digits[k] != ','
    {
      assert IsDigit(digits[k]);
    }
    assert Join(fields[1..], ',') == hashrate + "," + ClientTag;
    assert Join(fields, ',') == ResultLine(nonce, hashrate);
    SplitOfJoin(fields, ',');
    ParseIntOfDecimal(nonce);
  }

  /** The verdict: exactly "GOOD" once trailing newlines are stripped is an accepted share, anything else is rejected. */
  function Classify(feedback: string): ShareOutcome {
    if RStripNewlines(feedback) == "GOOD" then Accepted else Rejected
  }

  /** A verdict is accepted exactly when it is "GOOD" followed by nothing but newlines. */
  lemma ClassifyAccepted(feedback: string)
    ensures Classify(feedback) == Accepted
        <==> (|feedback| >= 4 && feedback[..4] == "GOOD"
              && forall i :: 4 <= i < |feedback| ==> feedback[i] == '\n')
  {
    var r := RStripNewlines(feedback);
    if |feedback| >= 4 && feedback[..4] == "GOOD" && forall i :: 4 <= i < |feedback| ==> feedback[i] == '\n' {
      assert feedback[3] == 'D';
      assert |r| >= 4;
      assert r[|r| - 1] == feedback[|r| - 1];
      assert |r| == 4;
      assert r == feedback[..4];
    }
  }

  /** "BAD", the empty line and a "GOOD" with anything else after it are rejections. */
  lemma ClassifyRejected()
    ensures Classify("BAD") == Rejected
    ensures Classify("") == Rejected
    ensures Classify("GOOD ") == Rejected
  {
    ClassifyAccepted("BAD");
    ClassifyAccepted("GOOD ");
  }
}
