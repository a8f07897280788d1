/** The rules engine that chooses a new transfer's first status, with scores in
    64-bit arithmetic. */
module Fraud {
  import opened Rail
  import opened Int64

  /** What the rules add on top of the receiver's own risk signal. */
  function Surcharge(amountCents: int, riskSignal: int, selfTransfer: bool): nat {
    (if amountCents >= 1_000_000 then 40 else 0)
    + (if amountCents >= 500_000 then 15 else 0)
    + (if riskSignal >= 80 then 35 else 0)
    + (if selfTransfer then 25 else 0)
  }

  const SELF_RULE: string := "self_transfer_hash_match"

  function FiredRules(amountCents: int, riskSignal: int, selfTransfer: bool): seq<string> {
    (if amountCents >= 1_000_000 then ["amount_high"] else [])
    + (if amountCents >= 500_000 then ["amount_review"] else [])
    + (if riskSignal >= 80 then ["dict_high_risk"] else [])
    + (if selfTransfer then [SELF_RULE] else [])
  }

  function Verdict(score: int): Status {
    if score >= 90 then Blocked else if score >= 65 then Review else Accepted
  }

  function VerdictReason(status: Status): string {
    match status
    case Blocked => "blocked by fraud policy"
    case Review => "manual review required"
    case _ => "risk within payment-rail policy"
  }

  function Decide(amountCents: int, account: string, dict: DictEntry): FraudDecision {
    var self := account == dict.accountHash;
    var score := Wrap(dict.riskSignal + Surcharge(amountCents, dict.riskSignal, self));
    FraudDecision(score, Verdict(score), FiredRules(amountCents, dict.riskSignal, self), VerdictReason(Verdict(score)))
  }

  /** The engine accumulates a score and a rule list; one wrap of the whole sum
      gives the same score as a wrap after every addition.  Short of an overflow
      the score is the sum, and the verdict is read off it at 90 and 65. */
  method Score(amountCents: int, account: string, dict: DictEntry) returns (decision: FraudDecision)
    ensures decision == Decide(amountCents, account, dict)
    ensures var sum := dict.riskSignal
                       + (if amountCents >= 1_000_000 then 40 else 0) + (if amountCents >= 500_000 then 15 else 0)
                       + (if dict.riskSignal >= 80 then 35 else 0) + (if account == dict.accountHash then 25 else 0);
            -INT64_MAX - 1 <= sum <= INT64_MAX ==>
              && decision.score == sum
              && (sum >= 90 <==> decision.status == Blocked && decision.reason == "blocked by fraud policy")
              && (65 <= sum < 90 <==> decision.status == Review && decision.reason == "manual review required")
              && (sum < 65 <==> decision.status == Accepted && decision.reason == "risk within payment-rail policy")
    ensures decision.rules ==
              (if amountCents >= 1_000_000 then ["amount_high"] else []) + (if amountCents >= 500_000 then ["amount_review"] else [])
              + (if dict.riskSignal >= 80 then ["dict_high_risk"] else [])
              + (if account == dict.accountHash then ["self_transfer_hash_match"] else [])
  {
    DecisionIs(amountCents, account, dict);
    var score, rules := Accumulate(amountCents, dict.riskSignal, account == dict.accountHash);
    decision := FraudDecision(score, Accepted, rules, "risk within payment-rail policy");
    if score >= 90 {
      decision := decision.(status := Blocked, reason := "blocked by fraud policy");
    } else if score >= 65 {
      decision := decision.(status := Review, reason := "manual review required");
    }
  }

  method Accumulate(amountCents: int, riskSignal: int, selfTransfer: bool) returns (score: int, rules: seq<string>)
    ensures score == Wrap(riskSignal + Surcharge(amountCents, riskSignal, selfTransfer))
    ensures rules == FiredRules(amountCents, riskSignal, selfTransfer)
  {
    ghost var sum := riskSignal;
    score, rules := Wrap(riskSignal), [];
    score, rules, sum := Fire(amountCents >= 1_000_000, 40, "amount_high", score, rules, sum);
    score, rules, sum := Fire(amountCents >= 500_000, 15, "amount_review", score, rules, sum);
    score, rules, sum := Fire(riskSignal >= 80, 35, "dict_high_risk", score, rules, sum);
    score, rules, sum := Fire(selfTransfer, 25, SELF_RULE, score, rules, sum);
  }

  method Fire(applies: bool, points: nat, rule: string, score: int, rules: seq<string>, ghost sum: int)
    returns (score': int, rules': seq<string>, ghost sum': int)
    requires score == Wrap(sum)
    ensures sum' == sum + (if applies then points else 0) && score' == Wrap(sum')
    ensures rules' == rules + (if applies then [rule] else [])
  {
    score', rules', sum' := score, rules, sum;
    if applies {
      WrapAbsorbs(sum, points);
      score', rules', sum' := Wrap(score + points), rules + [rule], sum + points;
    }
  }

  /** A receiver whose risk signal is 80 or more is blocked exactly when the
      score does not overflow; an overflowing score is negative and accepted. */
  lemma HighRiskBlockedIffNoOverflow(amountCents: int, account: string, dict: DictEntry)
    requires 80 <= dict.riskSignal <= INT64_MAX
    ensures Decide(amountCents, account, dict).status.Blocked? <==>
            dict.riskSignal + Surcharge(amountCents, dict.riskSignal, account == dict.accountHash) <= INT64_MAX
    ensures !Decide(amountCents, account, dict).status.Blocked? ==>
            Decide(amountCents, account, dict).status.Accepted?
  {
    var sum := dict.riskSignal + Surcharge(amountCents, dict.riskSignal, account == dict.accountHash);
    if sum > INT64_MAX {
      assert Wrap(sum) == sum - INT64_SPAN;
    }
  }

  /** The rules that fired tell whether the transfer was to the payer's own account. */
  lemma SelfRuleFires(amountCents: int, riskSignal: int, selfTransfer: bool)
    ensures SELF_RULE in FiredRules(amountCents, riskSignal, selfTransfer) <==> selfTransfer
  {
    var others := FiredRules(amountCents, riskSignal, false);
    assert |SELF_RULE| == 24 && |"amount_high"| == 11 && |"amount_review"| == 13 && |"dict_high_risk"| == 14;
    assert FiredRules(amountCents, riskSignal, true) == others + [SELF_RULE];
  }

  /** The largest risk signal there is overflows, and is accepted. */
  lemma LargestRiskIsAccepted(amountCents: int, account: string, dict: DictEntry)
    requires dict.riskSignal == INT64_MAX
    ensures Decide(amountCents, account, dict).status == Accepted
  {
    HighRiskBlockedIffNoOverflow(amountCents, account, dict);
  }

  /** What the engine decides, with its points, thresholds and texts written out. */
  lemma DecisionIs(amountCents: int, account: string, dict: DictEntry)
    ensures var decision := Decide(amountCents, account, dict);
            var sum := dict.riskSignal
                       + (if amountCents >= 1_000_000 then 40 else 0) + (if amountCents >= 500_000 then 15 else 0)
                       + (if dict.riskSignal >= 80 then 35 else 0) + (if account == dict.accountHash then 25 else 0);
            -INT64_MAX - 1 <= sum <= INT64_MAX ==>
              && decision.score == sum
              && (sum >= 90 <==> decision.status == Blocked && decision.reason == "blocked by fraud policy")
              && (65 <= sum < 90 <==> decision.status == Review && decision.reason == "manual review required")
              && (sum < 65 <==> decision.status == Accepted && decision.reason == "risk within payment-rail policy")
    ensures Decide(amountCents, account, dict).rules ==
              (if amountCents >= 1_000_000 then ["amount_high"] else []) + (if amountCents >= 500_000 then ["amount_review"] else [])
              + (if dict.riskSignal >= 80 then ["dict_high_risk"] else [])
              + (if account == dict.accountHash then ["self_transfer_hash_match"] else [])
  {
  }
}
