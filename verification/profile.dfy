/**
 * The profile page, src/pages/Profile.tsx: the risk label and badge colour of a score, and the
 * holdings breakdown (the first five holdings and a count of the rest). The page's totals and
 * per-holding percentages are the ones in module Totals.
 */
module Profile {
  import opened Wrappers
  import opened PortfolioContext
  import opened RiskQuiz

  /** The four texts `getRiskLevelText` returns. */
  datatype RiskLabel = Conservative | Moderate | Balanced | Aggressive

  /** The four badge styles `getRiskLevelColor` returns: green, yellow, orange and red. */
  datatype RiskColor = GreenBadge | YellowBadge | OrangeBadge | RedBadge

  /** `getRiskLevelText`: inclusive upper bounds 30, 50 and 70. */
  function RiskLevelText(score: int): RiskLabel {
    if score <= 30 then Conservative
    else if score <= 50 then Moderate
    else if score <= 70 then Balanced
    else Aggressive
  }

  /** `getRiskLevelColor`: a second if-chain over the same scores. */
  function RiskLevelColor(score: int): RiskColor {
    if score <= 30 then GreenBadge
    else if score <= 50 then YellowBadge
    else if score <= 70 then OrangeBadge
    else RedBadge
  }

  /** The badge that goes with each label. */
  function LabelColor(level: RiskLabel): RiskColor {
    match level
    case Conservative => GreenBadge
    case Moderate => YellowBadge
    case Balanced => OrangeBadge
    case Aggressive => RedBadge
  }

  /** The position of a label from the most cautious (0) to the boldest (3). */
  function Rank(level: RiskLabel): nat {
    match level
    case Conservative => 0
    case Moderate => 1
    case Balanced => 2
    case Aggressive => 3
  }

  /** The badge colour is always the one of the label shown beside it. */
  lemma LabelAndColorAgree(score: int)
    ensures RiskLevelColor(score) == LabelColor(RiskLevelText(score))
  {
  }

  /** Two scores share a label exactly when they share a badge colour. */
  lemma SameLabelSameColor(a: int, b: int)
    ensures RiskLevelText(a) == RiskLevelText(b) <==> RiskLevelColor(a) == RiskLevelColor(b)
  {
    LabelAndColorAgree(a);
    LabelAndColorAgree(b);
  }

  /** A higher score never gets a more cautious label. */
  lemma LabelMonotone(a: int, b: int)
    requires a <= b
    ensures Rank(RiskLevelText(a)) <= Rank(RiskLevelText(b))
  {
  }

  /**
   * The label bands are the allocation bands of the questionnaire: two scores share a label
   * exactly when they get the same equity / debt / government split.
   */
  lemma LabelsFollowAllocation(a: int, b: int)
    ensures RiskLevelText(a) == RiskLevelText(b) <==> GetAllocation(a) == GetAllocation(b)
  {
  }

  // ---------------------------------------------------------------------------------------------
  // Holdings breakdown

  /** What the breakdown shows: the empty-ledger message, or up to five rows and an overflow count. */
  datatype Breakdown = NoInvestments | Rows(shown: seq<Holding>, more: Option<nat>)

  /**
   * The breakdown: with no holdings, the invitation to the recommendations page; otherwise
   * `holdings.slice(0, 5)` and, when there are more than five, "And n more holdings...".
   */
  function HoldingsBreakdown(hs: seq<Holding>): Breakdown {
    if |hs| == 0 then NoInvestments
    else Rows(Take(hs, 5), if |hs| > 5 then Some(|hs| - 5) else None)
  }

  /**
   * The breakdown accounts for every holding: the first ones in ledger order are shown, at most
   * five, and the overflow count is exactly how many are not, never zero.
   */
  lemma BreakdownAccountsForAll(hs: seq<Holding>)
    ensures HoldingsBreakdown(hs).NoInvestments? <==> hs == []
    ensures var b := HoldingsBreakdown(hs);
      b.Rows? ==>
        && |b.shown| == (if |hs| < 5 then |hs| else 5)
        && (b.more.Some? <==> |hs| > 5)
        && b.shown == hs[..|b.shown|]
        && (b.more.None? ==> |b.shown| == |hs|)
        && (b.more.Some? ==> b.more.value > 0 && |b.shown| + b.more.value == |hs|)
  {
  }
}
