// Stripe payment links for packages, add-ons and pick-your-price
// (src/lib/payment-links-deprecated.ts): fixed tables of links, each with
// an on/off switch, and builders that tag an enabled link.
//
// Looking up an id that is neither in a table nor a name the table
// inherits from `Object.prototype` yields `undefined`, and reading
// `.enabled` of it throws a `TypeError`: the builders answer `Err` then. An
// inherited name such as `constructor` yields a function, whose `.enabled`
// is `undefined`, so the builders answer `null` for it.
// None of the table URLs has a query, so each parses to its text with no
// parameters.

module PaymentLinks {
  import opened Common
  import opened Pay

  datatype LinkConfig = LinkConfig(url: string, utmSource: Option<string>, enabled: bool)

  const TypeError := "TypeError"

  /** `PAYMENT_LINKS`: every package link is switched off. */
  const PackageLinks: map<string, LinkConfig> := map[
    "FILE_ONLY" := LinkConfig("https://buy.stripe.com/3cIdR8cq3ghHgIvaFNbfO06", Some("adcards"), false),
    "HOST_6M" := LinkConfig("https://buy.stripe.com/9B6aEWfCfc1rbobbJRbfO03", Some("adcards"), false),
    "HOST_12M" := LinkConfig("https://buy.stripe.com/9B64gy9dR9Tj8bZdRZbfO01", Some("adcards"), false),
    "LUCKY_SPA_EXCLUSIVE" := LinkConfig("https://buy.stripe.com/14A4gygGj6H71NB9BJbfO00", Some("adcards"), false)
  ]

  /** `PICK_YOUR_PRICE_LINKS`: placeholders, all switched off. */
  const PickYourPriceLinks: map<string, LinkConfig> := map[
    "minimum" := LinkConfig("https://buy.stripe.com/placeholder-minimum-29", Some("adcards"), false),
    "standard" := LinkConfig("https://buy.stripe.com/placeholder-standard-79", Some("adcards"), false),
    "supporter" := LinkConfig("https://buy.stripe.com/placeholder-supporter-149", Some("adcards"), false)
  ]

  /** `ADDON_PAYMENT_LINKS`: only `extra-cards` is on. */
  const AddonLinks: map<string, LinkConfig> := map[
    "extra-translation" := LinkConfig("https://buy.stripe.com/7sY7sKdu73uV77V3dlbfO02", Some("adcards"), false),
    "custom-domain" := LinkConfig("https://buy.stripe.com/cNi28q4XB2qR9g37tBbfO05", Some("adcards"), false),
    "extra-cards" := LinkConfig("https://buy.stripe.com/3cI6oG0Hl1mN4ZN6pxbfO0g", Some("adcards"), true),
    "premium-analytics" := LinkConfig("", None, false),
    "social-media-pack" := LinkConfig("", None, false)
  ]

  /**
   * The shared builder: a disabled link or an empty URL gives `null`;
   * otherwise the URL, tagged with the link's UTM source, `web` and the
   * campaign when the link has a source, and pre-filled with a non-empty
   * e-mail.
   */
  function BuildLink(config: LinkConfig, campaign: string, email: Option<string>): (r: Option<ParsedUrl>)
    ensures r.None? <==> !config.enabled || config.url == ""
    ensures r.Some? ==> r.value.location == config.url
    ensures r.Some? && config.utmSource.Some? && config.utmSource.value != "" ==>
      && GetParam(r.value.params, "utm_source") == config.utmSource
      && GetParam(r.value.params, "utm_medium") == Some("web")
      && GetParam(r.value.params, "utm_campaign") == Some(campaign)
    ensures r.Some? && !(config.utmSource.Some? && config.utmSource.value != "") ==>
      GetParam(r.value.params, "utm_campaign").None?
    ensures r.Some? ==>
      GetParam(r.value.params, "prefilled_email") == if email.Some? && email.value != "" then email else None
  {
    if !config.enabled || config.url == "" then None
    else
      var url := ParsedUrl(config.url, []);
      var tagged :=
        if config.utmSource.Some? && config.utmSource.value != "" then
          var first := SetOnUrl(url, "utm_source", config.utmSource.value);
          var second := SetOnUrl(first, "utm_medium", "web");
          SetParamKeepsOthers(second.params, "utm_campaign", campaign, "utm_source");
          SetParamKeepsOthers(second.params, "utm_campaign", campaign, "utm_medium");
          SetParamKeepsOthers(first.params, "utm_medium", "web", "utm_source");
          SetParamKeepsOthers(url.params, "utm_source", config.utmSource.value, "prefilled_email");
          SetParamKeepsOthers(first.params, "utm_medium", "web", "prefilled_email");
          SetParamKeepsOthers(second.params, "utm_campaign", campaign, "prefilled_email");
          SetOnUrl(second, "utm_campaign", campaign)
        else url;
      if email.Some? && email.value != "" then
        SetParamKeepsOthers(tagged.params, "prefilled_email", email.value, "utm_source");
        SetParamKeepsOthers(tagged.params, "prefilled_email", email.value, "utm_medium");
        SetParamKeepsOthers(tagged.params, "prefilled_email", email.value, "utm_campaign");
        Some(SetOnUrl(tagged, "prefilled_email", email.value))
      else Some(tagged)
  }

  /**
   * `table[id]`, then the builder: a missing entry throws on `.enabled`, and
   * an inherited member, whose `.enabled` is `undefined`, gives `null`.
   */
  function BuildFrom(table: map<string, LinkConfig>, id: string, campaign: string, email: Option<string>)
    : (r: Result<Option<ParsedUrl>, string>)
    ensures r.Err? <==> id !in table && id !in PrototypeNames
    ensures id in table ==> r == Ok(BuildLink(table[id], campaign, email))
    ensures id !in table && id in PrototypeNames ==> r == Ok(None)
  {
    match IndexObject(table, id)
    case Own(config) => Ok(BuildLink(config, campaign, email))
    case Inherited => Ok(None)
    case NoMember => Err(TypeError)
  }

  /** `buildPaymentUrl(tier, email)`: throws for an unknown tier; a link only for an available one. */
  function BuildPaymentUrl(tier: string, email: Option<string>): (r: Result<Option<ParsedUrl>, string>)
    ensures r.Err? <==> IsPaymentAvailable(tier).Err?
    ensures r.Ok? && r.value.Some? ==> IsPaymentAvailable(tier) == Ok(Some(true))
    ensures IsPaymentAvailable(tier) == Ok(None) ==> r == Ok(None)
  {
    BuildFrom(PackageLinks, tier, "checkout", email)
  }

  /** `buildAddonPaymentUrl(addonId, email)`: throws for an unknown id; a link, tagged `addon`, exactly for an available add-on. */
  function BuildAddonPaymentUrl(addonId: string, email: Option<string>): (r: Result<Option<ParsedUrl>, string>)
    ensures r.Err? <==> addonId !in AddonLinks && addonId !in PrototypeNames
    ensures r.Ok? ==> (r.value.Some? <==> IsAddonPaymentAvailable(addonId))
    ensures r.Ok? && r.value.Some? ==> GetParam(r.value.value.params, "utm_campaign") == Some("addon")
  {
    BuildFrom(AddonLinks, addonId, "addon", email)
  }

  /** `buildPickYourPriceUrl(priceId, email)`: throws for an unknown id; a link only for an available option. */
  function BuildPickYourPriceUrl(priceId: string, email: Option<string>): (r: Result<Option<ParsedUrl>, string>)
    ensures r.Err? <==> priceId !in PickYourPriceLinks && priceId !in PrototypeNames
    ensures r.Ok? ==> (r.value.Some? <==> IsPickYourPriceAvailable(priceId))
  {
    BuildFrom(PickYourPriceLinks, priceId, "pick_your_price", email)
  }

  /**
   * `isPaymentAvailable(tier)`: `Err` for the throw on an unknown tier,
   * `Ok(None)` for the `undefined` an inherited name gives.
   */
  function IsPaymentAvailable(tier: string): (r: Result<Option<bool>, string>)
    ensures r.Err? <==> tier !in PackageLinks && tier !in PrototypeNames
    ensures r == Ok(None) <==> tier !in PackageLinks && tier in PrototypeNames
    ensures r.Ok? && r.value.Some? ==> !r.value.value
  {
    match IndexObject(PackageLinks, tier)
    case Own(config) => Ok(Some(config.enabled))
    case Inherited => Ok(None)
    case NoMember => Err(TypeError)
  }

  /** `isAddonPaymentAvailable(addonId)`: optional chaining makes an unknown id unavailable, and an inherited member's `.enabled` is `undefined`, so it is unavailable too. */
  function IsAddonPaymentAvailable(addonId: string): (r: bool)
    ensures r <==> addonId == "extra-cards"
    ensures r ==> addonId in AddonLinks && AddonLinks[addonId].url != ""
  {
    addonId in AddonLinks && AddonLinks[addonId].enabled
  }

  /** `isPickYourPriceAvailable(priceId)`: no option is available, and an unknown id does not throw. */
  function IsPickYourPriceAvailable(priceId: string): (r: bool)
    ensures !r
  {
    priceId in PickYourPriceLinks && PickYourPriceLinks[priceId].enabled
  }

  /** A name every object inherits builds `null` and reads as `undefined` rather than throwing. */
  lemma InheritedTierBuildsNull(email: Option<string>)
    ensures BuildPaymentUrl("constructor", email) == Ok(None)
    ensures IsPaymentAvailable("constructor") == Ok(None)
    ensures BuildAddonPaymentUrl("toString", email) == Ok(None)
    ensures BuildPickYourPriceUrl("valueOf", email) == Ok(None)
    ensures BuildPaymentUrl("PRO", email).Err?
  {
    assert "constructor" in PrototypeNames && "toString" in PrototypeNames && "valueOf" in PrototypeNames;
  }

  /** No package can be bought: every known tier builds `null`. */
  lemma NoPackageLinks(tier: string, email: Option<string>)
    requires tier in PackageLinks
    ensures BuildPaymentUrl(tier, email) == Ok(None)
  {
  }

  /** No pick-your-price option is on. */
  lemma NoPickYourPriceLinks(priceId: string, email: Option<string>)
    ensures priceId in PickYourPriceLinks ==> BuildPickYourPriceUrl(priceId, email) == Ok(None)
    ensures !IsPickYourPriceAvailable(priceId)
  {
  }

  /** `extra-cards` is the one add-on with a link, and availability agrees with the builder. */
  lemma OnlyExtraCardsAddon(addonId: string, email: Option<string>)
    ensures IsAddonPaymentAvailable(addonId) <==> addonId == "extra-cards"
    ensures (BuildAddonPaymentUrl(addonId, email).Ok? && BuildAddonPaymentUrl(addonId, email).value.Some?)
            <==> IsAddonPaymentAvailable(addonId)
  {
  }

  /** The extra-cards link is tagged for the `addon` campaign. */
  lemma ExtraCardsLinkTagged(email: Option<string>)
    ensures var url := BuildAddonPaymentUrl("extra-cards", email).value.value;
      && GetParam(url.params, "utm_source") == Some("adcards")
      && GetParam(url.params, "utm_campaign") == Some("addon")
      && (GetParam(url.params, "prefilled_email").Some? <==> email.Some? && email.value != "")
  {
  }
}
