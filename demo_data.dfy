// Demo and campaign cards (src/lib/demo-data.ts): the nine demo cards shown
// for an empty board, and the R Movers (five) and Fresno (seven) campaign
// templates appended to an existing list under fresh ids.
//
// Ids come from `nanoid()`; the ids drawn are the `freshIds` input. The
// templates' own load-time ids are always replaced, so they are left empty
// here. Only each template's title, language, category, image presence and
// favourite flag are reproduced.

module DemoData {
  import opened Common
  import opened Cards

  const InlineSvg := "data:image/svg+xml,"

  function Template(title: string, image: Option<string>, language: Option<string>, category: string): AdCard {
    AdCard("", title, None, image, language, None, [], Some(category), false)
  }

  /** `DEMO_CARDS` without their ids: five English cards, then four translated ones. */
  const DemoTemplates: seq<AdCard> := [
    Template("Struggling with Craigslist Marketing?", Some(InlineSvg), Some("en"), "Marketing Solutions"),
    Template("Digital Marketing Agency Built for Cleaning Companies", None, Some("en"), "Marketing Solutions"),
    Template("Break Language Barriers, Boost Your Business", None, Some("en"), "Marketing Solutions"),
    Template("Unlock the Power of Craigslist: Automated Job Posting", Some(InlineSvg), Some("en"), "Job Solutions"),
    Template("Complete Digital Domination Suite", Some(InlineSvg), Some("en"), "Complete Solutions"),
    Template("Servicio de Limpieza Profesional", Some(InlineSvg), Some("es"), "Ad package cards"),
    Template("Plomberie d'Urgence", Some(InlineSvg), Some("fr"), "Ad package cards"),
    Template("Professionelle Reinigung", Some(InlineSvg), Some("de"), "Ad package cards"),
    Template("Serviço de Entrega Rápida", None, None, "Ad package cards")
  ]

  /** `R_MOVERS_CARDS` (src/lib/r-movers-cards.ts): five English moving-service cards with bundled images. */
  const RMoversTemplates: seq<AdCard> := [
    Template("Modesto Moves Filling Fast – Secure Your Slot Today!", Some("modesto-moves-urgency.png"), Some("en"), "Moving Services"),
    Template("Why Modesto Families Choose R Movers", Some("modesto-why-choose.png"), Some("en"), "Moving Services"),
    Template("Unbeatable Value That Won't Last", Some("modesto-value-offer.png"), Some("en"), "Moving Services"),
    Template("Piano Moving Expertise You Can Trust", Some("modesto-piano-expertise.png"), Some("en"), "Moving Services"),
    Template("Contact R Movers – Your Move Starts Now!", Some("modesto-contact-cta.png"), Some("en"), "Moving Services")
  ]

  /** `FRESNO_CARDS` (src/lib/fresno-cards.ts): seven English HVAC cards with bundled images. */
  const FresnoTemplates: seq<AdCard> := [
    Template("Beat Fresno Heat: Reliable AC Rescue + $99 Tune-Up Special", Some("fresno-ac-rescue.png"), Some("en"), "HVAC Services"),
    Template("Why 5,000+ Fresno Families Trust CoolFix", Some("fresno-trust.png"), Some("en"), "HVAC Services"),
    Template("Complete HVAC Solutions for Every Need", Some("fresno-solutions.png"), Some("en"), "HVAC Services"),
    Template("See the CoolFix Difference in Action", Some("fresno-difference.png"), Some("en"), "HVAC Services"),
    Template("Your Questions Answered", Some("fresno-faq.png"), Some("en"), "HVAC Services"),
    Template("Exclusive Savings for Fresno Families", Some("fresno-savings.png"), Some("en"), "HVAC Services"),
    Template("Ready for Reliable Comfort? Let's Get Started", Some("fresno-cta.png"), Some("en"), "HVAC Services")
  ]

  /** The templates under the given ids: `templates.map(card => ({...card, id: nanoid()}))`. */
  function WithIds(templates: seq<AdCard>, freshIds: nat -> string): (r: seq<AdCard>)
    ensures |r| == |templates|
    ensures forall k :: 0 <= k < |templates| ==> r[k] == templates[k].(id := freshIds(k))
  {
    seq(|templates|, k requires 0 <= k < |templates| => templates[k].(id := freshIds(k)))
  }

  /** `loadDemoCards()`: the demo cards under the ids drawn when the module loaded. */
  function LoadDemoCards(loadIds: nat -> string): (r: seq<AdCard>)
    ensures |r| == 9
    ensures forall k :: 0 <= k < 5 ==> r[k].language == Some("en")
  {
    WithIds(DemoTemplates, loadIds)
  }

  /** `addRMoversCards(existing)`: the existing cards, then the five R Movers cards under fresh ids. */
  function AddRMoversCards(existing: seq<AdCard>, freshIds: nat -> string): (r: seq<AdCard>)
    ensures |r| == |existing| + 5
    ensures r[..|existing|] == existing
    ensures forall k :: 0 <= k < 5 ==> r[|existing| + k] == RMoversTemplates[k].(id := freshIds(k))
  {
    existing + WithIds(RMoversTemplates, freshIds)
  }

  /** `addFresnoCards(existing)`: the existing cards, then the seven Fresno cards under fresh ids. */
  function AddFresnoCards(existing: seq<AdCard>, freshIds: nat -> string): (r: seq<AdCard>)
    ensures |r| == |existing| + 7
    ensures r[..|existing|] == existing
    ensures forall k :: 0 <= k < 7 ==> r[|existing| + k] == FresnoTemplates[k].(id := freshIds(k))
  {
    existing + WithIds(FresnoTemplates, freshIds)
  }

  /** Adding both campaigns in either order gives the same cards apart from their order. */
  lemma CampaignsCommute(existing: seq<AdCard>, ids1: nat -> string, ids2: nat -> string)
    ensures multiset(AddFresnoCards(AddRMoversCards(existing, ids1), ids2))
         == multiset(AddRMoversCards(AddFresnoCards(existing, ids2), ids1))
  {
    var r := WithIds(RMoversTemplates, ids1);
    var f := WithIds(FresnoTemplates, ids2);
    assert AddFresnoCards(AddRMoversCards(existing, ids1), ids2) == existing + r + f;
    assert AddRMoversCards(AddFresnoCards(existing, ids2), ids1) == existing + f + r;
  }
}
