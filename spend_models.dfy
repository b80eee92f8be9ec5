/** The spend ledger: one row per recorded spend, the save hook that charges
    a new spend to its campaign's counters, and the filter-and-sum queries
    over the ledger and over campaign counters. */
module SpendModels {
  import opened Common
  import opened Brands
  import opened Campaigns
  import opened BrandTotals

  datatype SpendType = Daily | Monthly

  datatype Spend = Spend(id: nat, campaign: CampaignId, amount: Cents, date: Date,
                         spendType: SpendType, description: Option<string>)

  /** Field validation of a spend, run by full validation and not by save:
      the amount must be at least 0.00. */
  function CleanSpend(s: Spend): (r: Outcome)
    ensures r == Pass <==> s.amount >= 0
    ensures r.Fail? ==> r.error == InvalidAmount
  {
    if s.amount < 0 then Fail(InvalidAmount) else Pass
  }

  /** No stored row carries the id of s yet. */
  predicate IsNewRecord(rows: seq<Spend>, s: Spend) {
    forall t :: t in rows ==> t.id != s.id
  }

  /** Writing a row: an unknown id is appended, a known id is overwritten
      in place. Either way s is stored and no other row changes. */
  function Stored(rows: seq<Spend>, s: Spend): (r: seq<Spend>)
    ensures s in r
    ensures IsNewRecord(rows, s) ==> r == rows + [s]
    ensures !IsNewRecord(rows, s) ==> |r| == |rows|
    ensures forall k :: 0 <= k < |rows| && rows[k].id != s.id ==> r[k] == rows[k]
    ensures forall t :: t in r ==> t == s || t in rows
  {
    if IsNewRecord(rows, s) then rows + [s]
    else
      var k :| 0 <= k < |rows| && rows[k].id == s.id;
      var r := seq(|rows|, i requires 0 <= i < |rows| => if rows[i].id == s.id then s else rows[i]);
      assert r[k] == s;
      r
  }

  /** The ledger and the owning campaign's row after a save. */
  datatype Saved = Saved(rows: seq<Spend>, campaign: CampaignState, outcome: Outcome)

  /** The save hook as intended: the row is written, and a spend that was not
      stored before is charged once to both counters of its campaign. A
      non-positive amount is stored but refused by the counter update. */
  function SaveSpend(rows: seq<Spend>, s: Spend, c: CampaignState): (r: Saved)
    ensures r.rows == Stored(rows, s)
    ensures IsNewRecord(rows, s) && s.amount > 0 ==>
              r.campaign == WithSpend(c, s.amount) && r.outcome == Pass
    ensures IsNewRecord(rows, s) && s.amount <= 0 ==>
              r.campaign == c && r.outcome == Fail(InvalidAmount)
    ensures !IsNewRecord(rows, s) ==> r.campaign == c && r.outcome == Pass
  {
    var isNew := IsNewRecord(rows, s);
    var rows' := Stored(rows, s);
    if !isNew then Saved(rows', c, Pass)
    else if s.amount <= 0 then Saved(rows', c, Fail(InvalidAmount))
    else Saved(rows', WithSpend(c, s.amount), Pass)
  }

  /** Saving the same spend a second time changes neither the ledger nor the
      counters: a spend is charged once. */
  lemma ResaveChargesNothing(rows: seq<Spend>, s: Spend, c: CampaignState)
    ensures var first := SaveSpend(rows, s, c);
            var second := SaveSpend(first.rows, s, first.campaign);
            second.campaign == first.campaign && second.outcome == Pass
  {
    var first := SaveSpend(rows, s, c);
    assert s in first.rows;
  }

  /** The save hook as written: "new" means "no primary key yet", which never
      holds, so no save ever reaches the counter update. */
  function SaveSpendAsWritten(rows: seq<Spend>, s: Spend, c: CampaignState): (r: Saved)
    ensures r.rows == Stored(rows, s)
    ensures r.campaign == c
  {
    // The id default (spending/models.py:30-34) has run when the object is
    // built, so "no primary key yet" is never true.
    var isNew := false;
    var rows' := Stored(rows, s);
    if !isNew then Saved(rows', c, Pass)
    else if s.amount <= 0 then Saved(rows', c, Fail(InvalidAmount))
    else Saved(rows', WithSpend(c, s.amount), Pass)
  }

  /** A first spend of 25.00 on an empty ledger: as written the counters stay
      at zero, as intended both become 25.00. */
  lemma AsWrittenMissesFirstSpend()
    ensures var s := Spend(1, 7, 2500, Date(2024, 5, 6), Daily, None);
            var c := CampaignState(Active, None, None, 0, 0);
            && SaveSpendAsWritten([], s, c).campaign.dailySpend == 0
            && SaveSpend([], s, c).campaign.dailySpend == 2500
            && SaveSpend([], s, c).campaign.monthlySpend == 2500
  {
    var s := Spend(1, 7, 2500, Date(2024, 5, 6), Daily, None);
    assert IsNewRecord([], s);
  }

  /** The spend ledger, into which spends are saved. */
  class SpendLedger {
    var rows: seq<Spend>

    constructor ()
      ensures rows == []
    {
      rows := [];
    }

    /** Saves s; a new spend is then charged to its campaign c. */
    method Save(s: Spend, c: Campaign) returns (r: Outcome)
      requires c.id == s.campaign
      modifies this, c
      ensures Saved(rows, c.State(), r) == SaveSpend(old(rows), s, old(c.State()))
      ensures IsNewRecord(old(rows), s) ==> rows == old(rows) + [s]
    {
      var isNew := IsNewRecord(rows, s);
      rows := Stored(rows, s);
      if isNew {
        r := c.AddSpend(s.amount);
      } else {
        r := Pass;
      }
    }
  }

  predicate IsDailyOf(s: Spend, c: CampaignId, d: Date) {
    s.campaign == c && s.date == d && s.spendType == Daily
  }

  predicate IsMonthlyOf(s: Spend, c: CampaignId, year: int, month: int) {
    s.campaign == c && s.date.year == year && s.date.month == month && s.spendType == Monthly
  }

  /** Total of the DAILY rows of campaign c dated d; zero when none match. */
  function DailySpendForCampaign(rows: seq<Spend>, c: CampaignId, d: Date): (r: Cents)
    ensures (forall t :: t in rows ==> !IsDailyOf(t, c, d)) ==> r == 0
    ensures (forall t :: t in rows ==> t.amount >= 0) ==> r >= 0
  {
    if rows == [] then 0
    else
      var init, last := rows[..|rows| - 1], rows[|rows| - 1];
      assert rows == init + [last];
      DailySpendForCampaign(init, c, d) + (if IsDailyOf(last, c, d) then last.amount else 0)
  }

  /** Total of the MONTHLY rows of campaign c dated in (year, month); zero
      when none match. */
  function MonthlySpendForCampaign(rows: seq<Spend>, c: CampaignId, year: int, month: int): (r: Cents)
    ensures (forall t :: t in rows ==> !IsMonthlyOf(t, c, year, month)) ==> r == 0
    ensures (forall t :: t in rows ==> t.amount >= 0) ==> r >= 0
  {
    if rows == [] then 0
    else
      var init, last := rows[..|rows| - 1], rows[|rows| - 1];
      assert rows == init + [last];
      MonthlySpendForCampaign(init, c, year, month) +
        (if IsMonthlyOf(last, c, year, month) then last.amount else 0)
  }

  /** The daily total over two ledger segments is the sum of their totals:
      each matching row counts exactly once, wherever it is stored. */
  lemma {:induction false} DailySpendSplit(a: seq<Spend>, b: seq<Spend>, c: CampaignId, d: Date)
    ensures DailySpendForCampaign(a + b, c, d) ==
              DailySpendForCampaign(a, c, d) + DailySpendForCampaign(b, c, d)
  {
    if b == [] {
      assert a + b == a;
    } else {
      var init, last := b[..|b| - 1], b[|b| - 1];
      assert a + b == (a + init) + [last];
      assert (a + b)[..|a + b| - 1] == a + init;
      DailySpendSplit(a, init, c, d);
    }
  }

  /** The same for the monthly total. */
  lemma {:induction false} MonthlySpendSplit(a: seq<Spend>, b: seq<Spend>, c: CampaignId,
                                             year: int, month: int)
    ensures MonthlySpendForCampaign(a + b, c, year, month) ==
              MonthlySpendForCampaign(a, c, year, month) + MonthlySpendForCampaign(b, c, year, month)
  {
    if b == [] {
      assert a + b == a;
    } else {
      var init, last := b[..|b| - 1], b[|b| - 1];
      assert a + b == (a + init) + [last];
      assert (a + b)[..|a + b| - 1] == a + init;
      MonthlySpendSplit(a, init, c, year, month);
    }
  }

  /** Appending a new spend of campaign c adds its amount to c's daily total
      for its date exactly when it is a DAILY row. */
  lemma DailySpendAfterSave(rows: seq<Spend>, s: Spend)
    requires IsNewRecord(rows, s)
    ensures DailySpendForCampaign(Stored(rows, s), s.campaign, s.date) ==
              DailySpendForCampaign(rows, s.campaign, s.date) + (if s.spendType == Daily then s.amount else 0)
  {
    assert (rows + [s])[..|rows|] == rows;
  }

  /** Appending a new spend adds its amount to its campaign's monthly total
      for (year, month) exactly when it is a MONTHLY row of that month. */
  lemma MonthlySpendAfterSave(rows: seq<Spend>, s: Spend, year: int, month: int)
    requires IsNewRecord(rows, s)
    ensures MonthlySpendForCampaign(Stored(rows, s), s.campaign, year, month) ==
              MonthlySpendForCampaign(rows, s.campaign, year, month) +
                (if IsMonthlyOf(s, s.campaign, year, month) then s.amount else 0)
  {
    assert (rows + [s])[..|rows|] == rows;
  }

  /** The sum of one counter over the campaigns with the given brand id. */
  function SpendForBrand(brandId: nat, cs: seq<Campaign>, p: Period): (r: Cents)
    reads set c | c in cs
    ensures (forall k :: 0 <= k < |cs| ==> cs[k].brand.id != brandId) ==> r == 0
  {
    if cs == [] then 0
    else
      var init, last := cs[..|cs| - 1], cs[|cs| - 1];
      SpendForBrand(brandId, init, p) +
        (if last.brand.id == brandId then Spent(last.State(), p) else 0)
  }

  /** The ledger's per-brand queries agree with the brand's own totals. */
  lemma {:induction false} SpendForBrandIsBrandTotal(b: Brand, cs: seq<Campaign>, p: Period)
    ensures SpendForBrand(b.id, cs, p) == TotalSpend(b, cs, p)
  {
    if cs != [] {
      var init, last := cs[..|cs| - 1], cs[|cs| - 1];
      SpendForBrandIsBrandTotal(b, init, p);
      assert cs == init + [last];
      TotalSpendSnoc(b, init, last, p);
    }
  }

  function DailySpendForBrand(brandId: nat, cs: seq<Campaign>): Cents
    reads set c | c in cs
  {
    SpendForBrand(brandId, cs, DailyPeriod)
  }

  function MonthlySpendForBrand(brandId: nat, cs: seq<Campaign>): Cents
    reads set c | c in cs
  {
    SpendForBrand(brandId, cs, MonthlyPeriod)
  }
}
