/**
 * The 70 % pass mark, in the three forms the quiz screens write it, over
 * exact rationals.
 */
module Scoring {

  /** `Math.ceil`. */
  function Ceil(x: real): (c: int)
    ensures c as real >= x
    ensures (c - 1) as real < x
  {
    if x.Floor as real == x then x.Floor else x.Floor + 1
  }

  /**
   * `correct / total >= 0.7`. With no questions the quotient is `NaN` and the
   * comparison is false.
   */
  predicate PassedRatio(correct: nat, total: nat) {
    total > 0 && (correct as real) / (total as real) >= 0.7
  }

  /** The results screen: `(correct / total) * 100 >= 70`, again false for `NaN`. */
  predicate PassedPercent(correct: nat, total: nat) {
    total > 0 && ((correct as real) / (total as real)) * 100.0 >= 70.0
  }

  /** `correct >= Math.ceil(total * 0.7)`. */
  predicate PassedCeil(correct: nat, total: nat) {
    correct >= Ceil(total as real * 0.7)
  }

  /** The ratio rule is "ten times the correct answers reach seven times the questions". */
  lemma RatioRuleInIntegers(correct: nat, total: nat)
    ensures PassedRatio(correct, total) <==> total > 0 && 10 * correct >= 7 * total
  {
    if total > 0 {
      var c, t := correct as real, total as real;
      assert c / t >= 0.7 <==> c >= 0.7 * t by {
        assert (c / t) * t == c;
        if c / t >= 0.7 {
          assert (c / t) * t >= 0.7 * t;
        }
        if c >= 0.7 * t {
          assert c / t >= (0.7 * t) / t;
        }
      }
    }
  }

  /** The results screen's percentage test gives the submission's verdict. */
  lemma PercentRuleIsRatioRule(correct: nat, total: nat)
    ensures PassedPercent(correct, total) <==> PassedRatio(correct, total)
  {
  }

  /** The ceiling rule is the same integer inequality, for every number of questions. */
  lemma CeilRuleInIntegers(correct: nat, total: nat)
    ensures PassedCeil(correct, total) <==> 10 * correct >= 7 * total
  {
    var x := total as real * 0.7;
    var k := Ceil(x);
    if correct >= k {
      assert correct as real >= x;
    } else {
      assert correct <= k - 1;
      assert (correct as real) <= (k - 1) as real < x;
    }
  }

  /** On a quiz with at least one question the two pass rules agree. */
  lemma RulesAgree(correct: nat, total: nat)
    requires total > 0
    ensures PassedCeil(correct, total) <==> PassedRatio(correct, total)
  {
    RatioRuleInIntegers(correct, total);
    CeilRuleInIntegers(correct, total);
  }

  /** On a quiz without questions they differ: the ceiling rule passes, the ratio rule fails. */
  lemma RulesDifferWithoutQuestions()
    ensures PassedCeil(0, 0) && !PassedRatio(0, 0)
  {
  }

  /** Concrete pass marks: 2 of 2, 1 of 1 and 7 of 10 pass; 1 of 2 and 6 of 10 fail. */
  lemma PassMarkExamples()
    ensures PassedCeil(2, 2) && !PassedCeil(1, 2)
    ensures PassedCeil(1, 1) && !PassedCeil(0, 1)
    ensures PassedCeil(7, 10) && !PassedCeil(6, 10)
    ensures PassedRatio(7, 10) && !PassedRatio(6, 10)
  {
    CeilRuleInIntegers(2, 2);
    CeilRuleInIntegers(1, 2);
    CeilRuleInIntegers(1, 1);
    CeilRuleInIntegers(0, 1);
    CeilRuleInIntegers(7, 10);
    CeilRuleInIntegers(6, 10);
    RatioRuleInIntegers(7, 10);
    RatioRuleInIntegers(6, 10);
  }
}
