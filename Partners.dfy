/** The partner (company) record as the directory's consumers read it: the
    grid, the card, the statistics, the detail page and the comparison page.
    The fields are those of the API's company payload that these consumers use. */
module Partners {
  import opened Wrappers

  /** One uploaded media item of a partner; `tag` is `LOGO` or `MEDIA`. */
  datatype Media = Media(id: string, mediaUrl: Option<string>, tag: string, mediaType: string, companyId: string)

  datatype Partner = Partner(
    id: string,
    name: string,
    description: string,
    website: string,
    profileImage: string,
    isBadged: bool,
    /** `None` when the payload's `minimum_spend` is not a number. */
    minimumSpend: Option<real>,
    countries: seq<string>,
    facebookPlatforms: seq<string>,
    focusAreas: seq<string>,
    industries: seq<string>,
    serviceModels: seq<string>,
    solutionTypes: seq<string>,
    /** `None` when the payload carries no media array. */
    media: Option<seq<Media>>)

  /** The pricing line of the detail and comparison pages. The currency
      formatting of the amount is not modelled; the label carries the amount. */
  datatype PricingLabel = FreePlanAvailable | MinimumSpendMonthly(amount: real) | ContactForPricing

  /** A number of 0 or -1 means a free plan, any other number a minimum monthly
      spend, and anything that is not a number means "contact for pricing". */
  function PricingLabelOf(minimumSpend: Option<real>): (l: PricingLabel)
    ensures l.MinimumSpendMonthly? ==> minimumSpend == Some(l.amount) && l.amount != 0.0 && l.amount != -1.0
    ensures l == ContactForPricing <==> minimumSpend.None?
  {
    match minimumSpend
    case None => ContactForPricing
    case Some(x) => if x == 0.0 || x == -1.0 then FreePlanAvailable else MinimumSpendMonthly(x)
  }

  /** Each label is chosen exactly by its case of the input, and a spend label
      shows the stored amount. */
  lemma PricingLabelCases(minimumSpend: Option<real>)
    ensures PricingLabelOf(minimumSpend) == ContactForPricing <==> minimumSpend.None?
    ensures PricingLabelOf(minimumSpend) == FreePlanAvailable
        <==> minimumSpend == Some(0.0) || minimumSpend == Some(-1.0)
    ensures PricingLabelOf(minimumSpend).MinimumSpendMonthly?
        <==> minimumSpend.Some? && minimumSpend.value != 0.0 && minimumSpend.value != -1.0
    ensures PricingLabelOf(minimumSpend).MinimumSpendMonthly? ==> PricingLabelOf(minimumSpend).amount == minimumSpend.value
  {
  }
}
