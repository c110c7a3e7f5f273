/**
 * Campaign categories. A campaign name is matched exactly, with no trimming
 * or case folding, against two name lists; the Website list is consulted
 * first, and a name in neither list falls into `Other`.
 */
module Campaigns {

  datatype Category = Website | InstagramFacebook | Other

  /** The two name lists that define the reported categories. */
  datatype CampaignLists = CampaignLists(website: seq<string>, instagramFacebook: seq<string>)

  /** The lists the report is run with. */
  const HaircheckLists := CampaignLists(
    [ "NL / Lead / CBO / Kyiv Odesa / 26.07.2024",
      "SITE / Cold / ABO / Lead / 29.05.2024",
      "SITE / NLAS / Warm / ABO / 12.02.2024" ],
    [ "INST / Engagement / COLD - 22.05.2024",
      "INST / Engagement Messages / WARM - 20.05.2024",
      "NL / Fb Lead Form / Ugly hair / Lookalike (UA, 1%) - LTV ALL/ 26/08/2024 Campaign",
      "NL / TRAFF / Inst / 24.07.2024",
      "NL / Tailored leads campaign / Lookalike (UA, 1%) - LTV ALL/ 15/07/2024 Campaign" ])

  /**
   * The category of a campaign name. Every name gets exactly one category;
   * a name on both lists is `Website`, because that list is consulted first.
   */
  function Classify(lists: CampaignLists, name: string): (c: Category)
    ensures c == Website <==> name in lists.website
    ensures c == InstagramFacebook <==> name !in lists.website && name in lists.instagramFacebook
    ensures c == Other <==> name !in lists.website && name !in lists.instagramFacebook
  {
    if name in lists.website then Website
    else if name in lists.instagramFacebook then InstagramFacebook
    else Other
  }

  /** No name is on both of the configured lists, so the priority of the
      Website list never decides a classification of the running report. */
  lemma HaircheckListsDisjoint(name: string)
    ensures !(name in HaircheckLists.website && name in HaircheckLists.instagramFacebook)
  {
  }
}
