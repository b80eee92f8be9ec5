/** Brand-level aggregates: the campaigns a brand owns, the sums of their
    counters, what is left of the brand budgets and whether they are spent. */
module BrandTotals {
  import opened Common
  import opened Brands
  import opened Campaigns

  /** The campaigns owned by brand b, in table order. */
  function CampaignsOf(b: Brand, cs: seq<Campaign>): (r: seq<Campaign>)
    ensures forall k :: 0 <= k < |r| ==> r[k] in cs && r[k].brand.id == b.id
    ensures forall k :: 0 <= k < |cs| && cs[k].brand.id == b.id ==> cs[k] in r
    ensures |r| <= |cs|
    ensures forall x :: x in cs ==> multiset(r)[x] == (if x.brand.id == b.id then multiset(cs)[x] else 0)
  {
    if cs == [] then []
    else
      var init, last := cs[..|cs| - 1], cs[|cs| - 1];
      assert cs == init + [last];
      var r := CampaignsOf(b, init);
      if last.brand.id == b.id then r + [last] else r
  }

  /** The sum of one counter over a list of campaigns, zero for no campaigns. */
  function Sum(cs: seq<Campaign>, p: Period): (r: Cents)
    reads set c | c in cs
    ensures (forall k :: 0 <= k < |cs| ==> Spent(cs[k].State(), p) >= 0) ==> r >= 0
  {
    if cs == [] then 0
    else Sum(cs[..|cs| - 1], p) + Spent(cs[|cs| - 1].State(), p)
  }

  /** With non-negative counters, the sum is at least any single term. */
  lemma {:induction false} SumAtLeastTerm(cs: seq<Campaign>, p: Period, c: Campaign)
    requires c in cs
    requires forall k :: 0 <= k < |cs| ==> Spent(cs[k].State(), p) >= 0
    ensures Sum(cs, p) >= Spent(c.State(), p)
  {
    var init, last := cs[..|cs| - 1], cs[|cs| - 1];
    assert cs == init + [last];
    if c != last {
      SumAtLeastTerm(init, p, c);
    }
  }

  /** Number of campaigns owned by b: zero exactly when it owns none listed. */
  function TotalCampaigns(b: Brand, cs: seq<Campaign>): (r: nat)
    ensures r <= |cs|
    ensures r == 0 <==> forall k :: 0 <= k < |cs| ==> cs[k].brand.id != b.id
  {
    var owned := CampaignsOf(b, cs);
    assert owned != [] ==> owned[0] in owned;
    |owned|
  }

  /** Adding one campaign to the table counts it for its own brand and for
      no other. */
  lemma TotalCampaignsSnoc(b: Brand, cs: seq<Campaign>, c: Campaign)
    ensures TotalCampaigns(b, cs + [c]) == TotalCampaigns(b, cs) + Tick(c.brand.id == b.id)
  {
    assert (cs + [c])[..|cs|] == cs;
  }

  /** The sum of the counter over b's campaigns; zero when b owns none, never
      negative while the counters are not. */
  function TotalSpend(b: Brand, cs: seq<Campaign>, p: Period): (r: Cents)
    reads set c | c in cs
    ensures (forall k :: 0 <= k < |cs| ==> cs[k].brand.id != b.id) ==> r == 0
    ensures (forall k :: 0 <= k < |cs| ==> Spent(cs[k].State(), p) >= 0) ==> r >= 0
  {
    var owned := CampaignsOf(b, cs);
    assert owned != [] ==> owned[0] in owned;
    Sum(owned, p)
  }

  function TotalDailySpend(b: Brand, cs: seq<Campaign>): Cents
    reads set c | c in cs
  {
    TotalSpend(b, cs, DailyPeriod)
  }

  function TotalMonthlySpend(b: Brand, cs: seq<Campaign>): Cents
    reads set c | c in cs
  {
    TotalSpend(b, cs, MonthlyPeriod)
  }

  /** The brand budget is spent once the total reaches it; reaching it
      exactly counts. */
  predicate IsOverBudget(b: Brand, cs: seq<Campaign>, p: Period)
    reads set c | c in cs
  {
    TotalSpend(b, cs, p) >= Budget(b, p)
  }

  /** Budget less total spend: exhausted exactly when the brand is over
      budget, negative once the total passes the budget. */
  function RemainingBudget(b: Brand, cs: seq<Campaign>, p: Period): (r: Cents)
    reads set c | c in cs
    ensures r <= 0 <==> IsOverBudget(b, cs, p)
    ensures r < 0 <==> TotalSpend(b, cs, p) > Budget(b, p)
    ensures r + TotalSpend(b, cs, p) == Budget(b, p)
  {
    Budget(b, p) - TotalSpend(b, cs, p)
  }

  /** Adding one campaign to the table adds its counter to its own brand's
      total and leaves every other brand's total unchanged. */
  lemma TotalSpendSnoc(b: Brand, cs: seq<Campaign>, c: Campaign, p: Period)
    ensures TotalSpend(b, cs + [c], p) ==
              TotalSpend(b, cs, p) + (if c.brand.id == b.id then Spent(c.State(), p) else 0)
  {
    assert (cs + [c])[..|cs|] == cs;
  }

  /** One campaign of b at or over the brand budget puts the whole brand
      over budget, as long as no counter is negative. */
  lemma OneCampaignOverMeansBrandOver(b: Brand, cs: seq<Campaign>, c: Campaign, p: Period)
    requires c in cs && c.brand.id == b.id
    requires forall k :: 0 <= k < |cs| ==> Spent(cs[k].State(), p) >= 0
    requires Spent(c.State(), p) >= Budget(b, p)
    ensures IsOverBudget(b, cs, p)
  {
    SumAtLeastTerm(CampaignsOf(b, cs), p, c);
  }
}
