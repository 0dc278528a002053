/** The process-wide share counters `accepted_shares` and `rejected_shares`. */
module Tally {
  import opened Protocol

  /** How many verdicts in history equal o. */
  function CountOf(history: seq<ShareOutcome>, o: ShareOutcome): nat {
    if |history| == 0 then 0
    else CountOf(history[..|history| - 1], o) + (if history[|history| - 1] == o then 1 else 0)
  }

  /** Every verdict is counted exactly once: the two counts add up to the number of verdicts. */
  lemma {:induction false} CountsCoverHistory(history: seq<ShareOutcome>)
    ensures CountOf(history, Accepted) + CountOf(history, Rejected) == |history|
  {
    if |history| > 0 {
      CountsCoverHistory(history[..|history| - 1]);
    }
  }

  /** Recording one more verdict adds one to its own count and nothing to the other. */
  lemma CountOfSnoc(history: seq<ShareOutcome>, v: ShareOutcome, o: ShareOutcome)
    ensures CountOf(history + [v], o) == CountOf(history, o) + (if v == o then 1 else 0)
  {
    assert (history + [v])[..|history|] == history;
  }

  /** Counts never decrease as verdicts are added. */
  lemma {:induction false} CountOfMonotone(history: seq<ShareOutcome>, more: seq<ShareOutcome>, o: ShareOutcome)
    ensures CountOf(history + more, o) >= CountOf(history, o)
  {
    if |more| > 0 {
      var init := more[..|more| - 1];
      CountOfMonotone(history, init, o);
      assert history + more == (history + init) + [more[|more| - 1]];
      CountOfSnoc(history + init, more[|more| - 1], o);
    } else {
      assert history + more == history;
    }
  }

  /**
   * The two counters, with the verdicts recorded so far as a ghost history;
   * Valid says each counter is the number of its verdicts in that history.
   */
  class ShareTally {
    var accepted: nat
    var rejected: nat
    ghost var history: seq<ShareOutcome>

    ghost predicate Valid()
      reads this
    {
      accepted == CountOf(history, Accepted) && rejected == CountOf(history, Rejected)
    }

    /** Both counters start at zero when the process starts. */
    constructor ()
      ensures Valid() && history == []
      ensures accepted == 0 && rejected == 0
    {
      accepted, rejected := 0, 0;
      history := [];
    }

    /** One share's verdict: exactly one of the two counters goes up by one. */
    method Record(outcome: ShareOutcome)
      requires Valid()
      modifies this
      ensures Valid() && history == old(history) + [outcome]
      ensures outcome == Accepted ==> accepted == old(accepted) + 1 && rejected == old(rejected)
      ensures outcome == Rejected ==> rejected == old(rejected) + 1 && accepted == old(accepted)
    {
      CountOfSnoc(history, outcome, Accepted);
      CountOfSnoc(history, outcome, Rejected);
      if outcome == Accepted {
        accepted := accepted + 1;
      } else {
        rejected := rejected + 1;
      }
      history := history + [outcome];
    }

    /** Classify the pool's verdict line and record it. */
    method RecordVerdict(feedback: string) returns (outcome: ShareOutcome)
      requires Valid()
      modifies this
      ensures outcome == Classify(feedback)
      ensures Valid() && history == old(history) + [outcome]
      ensures outcome == Accepted ==> accepted == old(accepted) + 1 && rejected == old(rejected)
      ensures outcome == Rejected ==> rejected == old(rejected) + 1 && accepted == old(accepted)
    {
      outcome := Classify(feedback);
      Record(outcome);
    }

    /** The displayed ratio `accepted/(accepted + rejected)`, read from one state of both counters. */
    function Ratio(): (shown: (nat, nat))
      requires Valid()
      reads this
      ensures shown.0 == CountOf(history, Accepted)
      ensures shown.1 == |history|
      ensures shown.0 <= shown.1
    {
      CountsCoverHistory(history);
      (accepted, accepted + rejected)
    }
  }

  /** A "GOOD" verdict and then a "BAD" one leave the tally at one of each and a ratio of 1/2. */
  method GoodThenBad() returns (shown: (nat, nat))
    ensures shown == (1, 2)
  {
    var tally := new ShareTally();
    var first := tally.RecordVerdict("GOOD\n");
    ClassifyAccepted("GOOD\n");
    var second := tally.RecordVerdict("BAD\n");
    ClassifyAccepted("BAD\n");
    shown := tally.Ratio();
  }
}
