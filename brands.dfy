/** The advertiser record: a brand and the two budgets that cap each of its
    campaigns. The engine only reads brands. */
module Brands {
  import opened Common

  datatype Brand = Brand(id: nat, dailyBudget: Cents, monthlyBudget: Cents)

  /** Field validation of a brand: both budgets must be at least 0.00. */
  function CleanBrand(b: Brand): (r: Outcome)
    ensures r == Pass <==> b.dailyBudget >= 0 && b.monthlyBudget >= 0
    ensures r.Fail? ==> r.error == InvalidBudget
  {
    if b.dailyBudget < 0 || b.monthlyBudget < 0 then Fail(InvalidBudget) else Pass
  }
}
