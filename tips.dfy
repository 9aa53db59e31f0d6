/**
 * The haircare tip generator of app.py (generate_tips).
 *
 * Seven independent rules are checked in a fixed order; each one that fires
 * contributes its own advice string, and when none fires the result is the
 * single fallback message.  The specification is stated declaratively: the
 * rules that fire, filtered out of the declaration order, mapped to their
 * texts.  GenerateTips is the step-by-step list building of the source and is
 * proved equal to that specification.
 */
module Tips {

  /** One rule of the generator, named after what it checks. */
  datatype Rule = Stress | Sleep | Water | HairFall | Dandruff | Dryness | OilyScalp

  const RelaxTip := "Try relaxation techniques like yoga or meditation to reduce stress."
  const SleepTip := "Aim for at least 7-8 hours of sleep to support hair health."
  const WaterTip := "Drink more water to keep your scalp hydrated."
  const ProteinTip := "Include more protein in your diet to reduce hair fall."
  const DandruffTip := "Use anti-dandruff shampoo with natural ingredients."
  const OilingTip := "Apply oil regularly and use hydrating hair masks."
  const MildShampooTip := "Avoid over-washing; use mild, sulfate-free shampoos."
  const Fallback := "Your hair health seems good! Maintain your current routine."

  /** The rules in the order in which the generator checks them. */
  const Rules: seq<Rule> := [Stress, Sleep, Water, HairFall, Dandruff, Dryness, OilyScalp]

  /** Position of a rule in the declaration order. */
  function Rank(r: Rule): nat {
    match r
    case Stress => 0
    case Sleep => 1
    case Water => 2
    case HairFall => 3
    case Dandruff => 4
    case Dryness => 5
    case OilyScalp => 6
  }

  /** The advice string a rule contributes. */
  function Tip(r: Rule): string {
    match r
    case Stress => RelaxTip
    case Sleep => SleepTip
    case Water => WaterTip
    case HairFall => ProteinTip
    case Dandruff => DandruffTip
    case Dryness => OilingTip
    case OilyScalp => MildShampooTip
  }

  /** The condition of each rule: an exact string match, a strict threshold or list membership. */
  predicate Fires(r: Rule, stress: string, sleep: real, water: real, issues: seq<string>) {
    match r
    case Stress => stress == "High"
    case Sleep => sleep < 6.0
    case Water => water < 2.0
    case HairFall => "Hair Fall" in issues
    case Dandruff => "Dandruff" in issues
    case Dryness => "Dryness" in issues
    case OilyScalp => "Oily Scalp" in issues
  }

  predicate NoRuleFires(stress: string, sleep: real, water: real, issues: seq<string>) {
    forall r: Rule :: !Fires(r, stress, sleep, water, issues)
  }

  /** The rules of `rules` that fire, in the order in which they appear there. */
  function FiredRules(rules: seq<Rule>, stress: string, sleep: real, water: real, issues: seq<string>): seq<Rule>
  {
    if rules == [] then []
    else
      var last := rules[|rules| - 1];
      FiredRules(rules[..|rules| - 1], stress, sleep, water, issues)
      + (if Fires(last, stress, sleep, water, issues) then [last] else [])
  }

  /** The advice strings of a sequence of rules, in the same order. */
  function TipsOf(rules: seq<Rule>): seq<string> {
    if rules == [] then [] else TipsOf(rules[..|rules| - 1]) + [Tip(rules[|rules| - 1])]
  }

  /** What generate_tips returns: the tips of the rules that fire, or the fallback alone. */
  function ExpectedTips(stress: string, sleep: real, water: real, issues: seq<string>): seq<string> {
    var fired := FiredRules(Rules, stress, sleep, water, issues);
    if fired == [] then [Fallback] else TipsOf(fired)
  }

  /** Rank strictly increases along the sequence (so it is also duplicate-free). */
  predicate StrictlyRanked(rules: seq<Rule>) {
    forall i, j :: 0 <= i < j < |rules| ==> Rank(rules[i]) < Rank(rules[j])
  }

  /** The tips one rule contributes: its own advice when it fires, nothing otherwise. */
  function Contribution(r: Rule, stress: string, sleep: real, water: real, issues: seq<string>): seq<string> {
    if Fires(r, stress, sleep, water, issues) then [Tip(r)] else []
  }

  /** Checking one more rule appends that rule's contribution. */
  lemma TipsOfFiredSnoc(rules: seq<Rule>, r: Rule, stress: string, sleep: real, water: real, issues: seq<string>)
    ensures TipsOf(FiredRules(rules + [r], stress, sleep, water, issues))
         == TipsOf(FiredRules(rules, stress, sleep, water, issues)) + Contribution(r, stress, sleep, water, issues)
  {
    assert (rules + [r])[..|rules + [r]| - 1] == rules;
    var fired := FiredRules(rules, stress, sleep, water, issues);
    if Fires(r, stress, sleep, water, issues) {
      assert (fired + [r])[..|fired + [r]| - 1] == fired;
    } else {
      assert fired + [] == fired;
    }
  }

  /** The tips of the fired rules, written out rule by rule in declaration order. */
  lemma FiredTipsUnrolled(stress: string, sleep: real, water: real, issues: seq<string>)
    ensures TipsOf(FiredRules(Rules, stress, sleep, water, issues))
         == Contribution(Stress, stress, sleep, water, issues) + Contribution(Sleep, stress, sleep, water, issues)
          + Contribution(Water, stress, sleep, water, issues) + Contribution(HairFall, stress, sleep, water, issues)
          + Contribution(Dandruff, stress, sleep, water, issues) + Contribution(Dryness, stress, sleep, water, issues)
          + Contribution(OilyScalp, stress, sleep, water, issues)
  {
    var c1 := Contribution(Stress, stress, sleep, water, issues);
    var c2 := Contribution(Sleep, stress, sleep, water, issues);
    var c3 := Contribution(Water, stress, sleep, water, issues);
    var c4 := Contribution(HairFall, stress, sleep, water, issues);
    var c5 := Contribution(Dandruff, stress, sleep, water, issues);
    var c6 := Contribution(Dryness, stress, sleep, water, issues);
    var c7 := Contribution(OilyScalp, stress, sleep, water, issues);
    assert FiredRules([], stress, sleep, water, issues) == [];
    TipsOfFiredSnoc([], Stress, stress, sleep, water, issues);
    assert [] + [Stress] == [Stress];
    assert TipsOf(FiredRules([Stress], stress, sleep, water, issues)) == c1;
    TipsOfFiredSnoc([Stress], Sleep, stress, sleep, water, issues);
    assert [Stress] + [Sleep] == [Stress, Sleep];
    assert TipsOf(FiredRules([Stress, Sleep], stress, sleep, water, issues)) == c1 + c2;
    TipsOfFiredSnoc([Stress, Sleep], Water, stress, sleep, water, issues);
    assert [Stress, Sleep] + [Water] == [Stress, Sleep, Water];
    TipsOfFiredSnoc([Stress, Sleep, Water], HairFall, stress, sleep, water, issues);
    assert [Stress, Sleep, Water] + [HairFall] == [Stress, Sleep, Water, HairFall];
    TipsOfFiredSnoc([Stress, Sleep, Water, HairFall], Dandruff, stress, sleep, water, issues);
    assert [Stress, Sleep, Water, HairFall] + [Dandruff] == [Stress, Sleep, Water, HairFall, Dandruff];
    TipsOfFiredSnoc([Stress, Sleep, Water, HairFall, Dandruff], Dryness, stress, sleep, water, issues);
    assert [Stress, Sleep, Water, HairFall, Dandruff] + [Dryness] == [Stress, Sleep, Water, HairFall, Dandruff, Dryness];
    TipsOfFiredSnoc([Stress, Sleep, Water, HairFall, Dandruff, Dryness], OilyScalp, stress, sleep, water, issues);
    assert [Stress, Sleep, Water, HairFall, Dandruff, Dryness] + [OilyScalp] == Rules;
  }

  /** The generator as the source runs it: conditional appends to a local list. */
  method GenerateTips(stress: string, sleep: real, water: real, issues: seq<string>) returns (tips: seq<string>)
    ensures tips == ExpectedTips(stress, sleep, water, issues)
  {
    ghost var c1 := Contribution(Stress, stress, sleep, water, issues);
    ghost var c2 := Contribution(Sleep, stress, sleep, water, issues);
    ghost var c3 := Contribution(Water, stress, sleep, water, issues);
    ghost var c4 := Contribution(HairFall, stress, sleep, water, issues);
    ghost var c5 := Contribution(Dandruff, stress, sleep, water, issues);
    ghost var c6 := Contribution(Dryness, stress, sleep, water, issues);
    ghost var c7 := Contribution(OilyScalp, stress, sleep, water, issues);
    tips := [];
    if stress == "High" {
      tips := tips + [RelaxTip];
    }
    assert tips == c1;
    if sleep < 6.0 {
      tips := tips + [SleepTip];
    }
    assert tips == c1 + c2;
    if water < 2.0 {
      tips := tips + [WaterTip];
    }
    assert tips == c1 + c2 + c3;
    if "Hair Fall" in issues {
      tips := tips + [ProteinTip];
    }
    assert tips == c1 + c2 + c3 + c4;
    if "Dandruff" in issues {
      tips := tips + [DandruffTip];
    }
    assert tips == c1 + c2 + c3 + c4 + c5;
    if "Dryness" in issues {
      tips := tips + [OilingTip];
    }
    assert tips == c1 + c2 + c3 + c4 + c5 + c6;
    if "Oily Scalp" in issues {
      tips := tips + [MildShampooTip];
    }
    assert tips == c1 + c2 + c3 + c4 + c5 + c6 + c7;
    FiredTipsUnrolled(stress, sleep, water, issues);
    if tips == [] {
      tips := tips + [Fallback];
    }
  }

  // Facts about the specification functions

  /** Every rule is checked, at the position given by its rank. */
  lemma RulesListed(r: Rule)
    ensures 0 <= Rank(r) < |Rules| && Rules[Rank(r)] == r
    ensures r in Rules
  {
  }

  lemma RulesRanked()
    ensures StrictlyRanked(Rules)
  {
  }

  /** Distinct rules give distinct advice, and no rule gives the fallback message. */
  lemma TipTextsDistinct(r1: Rule, r2: Rule)
    ensures Tip(r1) == Tip(r2) ==> r1 == r2
    ensures Tip(r1) != Fallback
  {
  }

  /** A rule is among the fired rules exactly when it is checked and its condition holds. */
  lemma {:induction false} FiredRulesMembers(rules: seq<Rule>, r: Rule, stress: string, sleep: real, water: real, issues: seq<string>)
    ensures r in FiredRules(rules, stress, sleep, water, issues) <==> r in rules && Fires(r, stress, sleep, water, issues)
  {
    if rules != [] {
      var init := rules[..|rules| - 1];
      FiredRulesMembers(init, r, stress, sleep, water, issues);
      assert rules == init + [rules[|rules| - 1]];
    }
  }

  /** Filtering keeps the order of the checked rules. */
  lemma {:induction false} FiredRulesRanked(rules: seq<Rule>, stress: string, sleep: real, water: real, issues: seq<string>)
    requires StrictlyRanked(rules)
    ensures StrictlyRanked(FiredRules(rules, stress, sleep, water, issues))
  {
    if rules != [] {
      var init, last := rules[..|rules| - 1], rules[|rules| - 1];
      var before := FiredRules(init, stress, sleep, water, issues);
      FiredRulesRanked(init, stress, sleep, water, issues);
      forall x | x in before
        ensures Rank(x) < Rank(last)
      {
        FiredRulesMembers(init, x, stress, sleep, water, issues);
      }
    }
  }

  /** TipsOf maps Tip over the rules position by position. */
  lemma {:induction false} TipsOfAt(rules: seq<Rule>)
    ensures |TipsOf(rules)| == |rules|
    ensures forall i :: 0 <= i < |rules| ==> TipsOf(rules)[i] == Tip(rules[i])
  {
    if rules != [] {
      var init, last := rules[..|rules| - 1], rules[|rules| - 1];
      TipsOfAt(init);
      var t := TipsOf(init) + [Tip(last)];
      assert TipsOf(rules) == t;
      forall i | 0 <= i < |rules|
        ensures t[i] == Tip(rules[i])
      {
        if i < |init| {
          assert t[i] == TipsOf(init)[i];
        }
      }
    }
  }

  /** In a strictly ranked sequence the k-th rule has rank at least k. */
  lemma {:induction false} RankAtLeastPosition(rules: seq<Rule>, k: nat)
    requires StrictlyRanked(rules) && k < |rules|
    ensures Rank(rules[k]) >= k
  {
    if k > 0 {
      RankAtLeastPosition(rules, k - 1);
    }
  }

  /** Seven ranks, so a strictly ranked sequence holds at most seven rules. */
  lemma StrictlyRankedAtMostSeven(rules: seq<Rule>)
    requires StrictlyRanked(rules)
    ensures |rules| <= 7
  {
    if |rules| > 7 {
      RankAtLeastPosition(rules, 7);
    }
  }

  /** The fallback message is the whole result exactly when no rule fires, and never appears otherwise. */
  lemma FallbackIffNoRuleFires(stress: string, sleep: real, water: real, issues: seq<string>)
    ensures ExpectedTips(stress, sleep, water, issues) == [Fallback] <==> NoRuleFires(stress, sleep, water, issues)
    ensures Fallback in ExpectedTips(stress, sleep, water, issues) <==> NoRuleFires(stress, sleep, water, issues)
  {
    var fired := FiredRules(Rules, stress, sleep, water, issues);
    TipsOfAt(fired);
    if fired == [] {
      forall r: Rule
        ensures !Fires(r, stress, sleep, water, issues)
      {
        RulesListed(r);
        FiredRulesMembers(Rules, r, stress, sleep, water, issues);
      }
    } else {
      FiredRulesMembers(Rules, fired[0], stress, sleep, water, issues);
      assert Fires(fired[0], stress, sleep, water, issues);
      forall i | 0 <= i < |fired|
        ensures TipsOf(fired)[i] != Fallback
      {
        TipTextsDistinct(fired[i], fired[i]);
      }
    }
  }

  /** Each tip is present exactly when its rule's condition holds. */
  lemma TipPresentIffRuleFires(r: Rule, stress: string, sleep: real, water: real, issues: seq<string>)
    ensures Tip(r) in ExpectedTips(stress, sleep, water, issues) <==> Fires(r, stress, sleep, water, issues)
  {
    var fired := FiredRules(Rules, stress, sleep, water, issues);
    RulesListed(r);
    FiredRulesMembers(Rules, r, stress, sleep, water, issues);
    TipsOfAt(fired);
    TipTextsDistinct(r, r);
    if Tip(r) in TipsOf(fired) {
      var i :| 0 <= i < |fired| && TipsOf(fired)[i] == Tip(r);
      TipTextsDistinct(fired[i], r);
    }
    if Fires(r, stress, sleep, water, issues) {
      var i :| 0 <= i < |fired| && fired[i] == r;
      assert TipsOf(fired)[i] == Tip(r);
    }
  }

  /** Tips appear in the declaration order of their rules. */
  lemma TipsInDeclarationOrder(stress: string, sleep: real, water: real, issues: seq<string>)
    ensures var tips := ExpectedTips(stress, sleep, water, issues);
      forall i, j, r1, r2 :: 0 <= i < j < |tips| && tips[i] == Tip(r1) && tips[j] == Tip(r2) ==> Rank(r1) < Rank(r2)
  {
    var fired := FiredRules(Rules, stress, sleep, water, issues);
    var tips := ExpectedTips(stress, sleep, water, issues);
    RulesRanked();
    FiredRulesRanked(Rules, stress, sleep, water, issues);
    TipsOfAt(fired);
    forall i, j, r1, r2 | 0 <= i < j < |tips| && tips[i] == Tip(r1) && tips[j] == Tip(r2)
      ensures Rank(r1) < Rank(r2)
    {
      TipTextsDistinct(fired[i], r1);
      TipTextsDistinct(fired[j], r2);
    }
  }

  /** Between one and seven tips, never the same one twice, whatever `issues` repeats. */
  lemma TipsBoundedAndDistinct(stress: string, sleep: real, water: real, issues: seq<string>)
    ensures var tips := ExpectedTips(stress, sleep, water, issues);
      1 <= |tips| <= 7 && forall i, j :: 0 <= i < j < |tips| ==> tips[i] != tips[j]
  {
    var fired := FiredRules(Rules, stress, sleep, water, issues);
    RulesRanked();
    FiredRulesRanked(Rules, stress, sleep, water, issues);
    TipsOfAt(fired);
    StrictlyRankedAtMostSeven(fired);
    forall i, j | 0 <= i < j < |TipsOf(fired)|
      ensures TipsOf(fired)[i] != TipsOf(fired)[j]
    {
      TipTextsDistinct(fired[i], fired[j]);
    }
  }

  /** The four named issues are compared for membership alone. */
  predicate SameNamedIssues(issues1: seq<string>, issues2: seq<string>) {
    && ("Hair Fall" in issues1 <==> "Hair Fall" in issues2)
    && ("Dandruff" in issues1 <==> "Dandruff" in issues2)
    && ("Dryness" in issues1 <==> "Dryness" in issues2)
    && ("Oily Scalp" in issues1 <==> "Oily Scalp" in issues2)
  }

  lemma {:induction false} FiredRulesNamedIssuesOnly(rules: seq<Rule>, stress: string, sleep: real, water: real, issues1: seq<string>, issues2: seq<string>)
    requires SameNamedIssues(issues1, issues2)
    ensures FiredRules(rules, stress, sleep, water, issues1) == FiredRules(rules, stress, sleep, water, issues2)
  {
    if rules != [] {
      FiredRulesNamedIssuesOnly(rules[..|rules| - 1], stress, sleep, water, issues1, issues2);
    }
  }

  /**
   * Issue names other than the four named ones, their order and their
   * repetitions never change the tips.
   */
  lemma OnlyNamedIssuesMatter(stress: string, sleep: real, water: real, issues1: seq<string>, issues2: seq<string>)
    requires SameNamedIssues(issues1, issues2)
    ensures ExpectedTips(stress, sleep, water, issues1) == ExpectedTips(stress, sleep, water, issues2)
  {
    FiredRulesNamedIssuesOnly(Rules, stress, sleep, water, issues1, issues2);
  }

  /** The worked example: high stress, short sleep, low water, two named issues. */
  lemma HighStressScenario()
    ensures ExpectedTips("High", 5.0, 1.5, ["Hair Fall", "Dandruff"])
         == [RelaxTip, SleepTip, WaterTip, ProteinTip, DandruffTip]
  {
    FiredTipsUnrolled("High", 5.0, 1.5, ["Hair Fall", "Dandruff"]);
  }

  /**
   * The thresholds are strict and the stress match is exact: six hours of
   * sleep, two litres of water and a lower-case "high" give no tip, while
   * anything below the thresholds does.
   */
  lemma StrictThresholds()
    ensures ExpectedTips("high", 6.0, 2.0, []) == [Fallback]
    ensures ExpectedTips("Low", 5.5, 2.0, ["Itchy Scalp"]) == [SleepTip]
    ensures ExpectedTips("Moderate", 6.0, 1.5, []) == [WaterTip]
  {
    FiredTipsUnrolled("high", 6.0, 2.0, []);
    FiredTipsUnrolled("Low", 5.5, 2.0, ["Itchy Scalp"]);
    FiredTipsUnrolled("Moderate", 6.0, 1.5, []);
  }
}
