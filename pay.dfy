// Checkout links (src/lib/pay.ts): a payment-link base URL per price key,
// decorated with redirect targets, UTM tags and, during a hold, the
// customer's e-mail address.
//
// A URL is modelled after parsing: its location (everything before the
// query) and its ordered query parameters, as `URLSearchParams` keeps them.
// Serialising it back to text is not modelled. The app configuration
// (`APP.PAY`, the success and cancel URLs) is not part of this model and is
// an input; so is `getHoldEmail()`.

module Pay {
  import opened Common

  datatype ParsedUrl = ParsedUrl(location: string, params: seq<(string, string)>)

  /** `searchParams.get(key)`: the first value under the key. */
  function GetParam(params: seq<(string, string)>, key: string): (r: Option<string>)
    ensures r.None? <==> forall k :: 0 <= k < |params| ==> params[k].0 != key
  {
    if |params| == 0 then None
    else if params[0].0 == key then Some(params[0].1)
    else GetParam(params[1..], key)
  }

  /** All pairs except those under `key`. */
  function Without(params: seq<(string, string)>, key: string): (r: seq<(string, string)>)
    ensures forall k :: 0 <= k < |r| ==> r[k].0 != key
    ensures |r| <= |params|
  {
    if |params| == 0 then []
    else if params[0].0 == key then Without(params[1..], key)
    else [params[0]] + Without(params[1..], key)
  }

  /**
   * `searchParams.set(key, value)`: the first pair under the key takes the
   * value and later ones are dropped; with none, the pair is appended.
   */
  function SetParam(params: seq<(string, string)>, key: string, value: string): (r: seq<(string, string)>)
    ensures GetParam(r, key) == Some(value)
    ensures |r| <= |params| + 1
  {
    if |params| == 0 then [(key, value)]
    else if params[0].0 == key then [(key, value)] + Without(params[1..], key)
    else [params[0]] + SetParam(params[1..], key, value)
  }

  function SetOnUrl(url: ParsedUrl, key: string, value: string): (r: ParsedUrl)
    ensures r.location == url.location
    ensures GetParam(r.params, key) == Some(value)
  {
    url.(params := SetParam(url.params, key, value))
  }

  lemma {:induction false} WithoutKeepsOthers(params: seq<(string, string)>, key: string, other: string)
    requires other != key
    ensures GetParam(Without(params, key), other) == GetParam(params, other)
  {
    if |params| > 0 {
      WithoutKeepsOthers(params[1..], key, other);
    }
  }

  /** Setting one parameter leaves what every other parameter reads as. */
  lemma {:induction false} SetParamKeepsOthers(params: seq<(string, string)>, key: string, value: string, other: string)
    requires other != key
    ensures GetParam(SetParam(params, key, value), other) == GetParam(params, other)
  {
    if |params| > 0 {
      if params[0].0 == key {
        WithoutKeepsOthers(params[1..], key, other);
      } else {
        SetParamKeepsOthers(params[1..], key, value, other);
      }
    }
  }

  /** The parts of the app configuration this file reads. */
  datatype AppConfig = AppConfig(pay: map<string, ParsedUrl>, analyticsMonthly19: ParsedUrl,
                                 analyticsOneoff29: ParsedUrl, successUrl: string, cancelUrl: string)

  /** `LEGACY_KEY_MAP`: retired price keys and the keys that replace them. `payHref` does not consult it. */
  const LegacyKeyMap: map<string, string> := map[
    "STARTER_49" := "STARTER_29",
    "BASIC_497" := "GROWTH_79",
    "PRO_997" := "PRO_149",
    "ULTIMATE_1997" := "FULL_297"
  ]

  /**
   * The base link for a key: the two nested analytics keys, else the
   * `APP.PAY` entry. An absent one makes `new URL` throw; so does a name
   * `APP.PAY` inherits from `Object.prototype`, whose text is not a URL.
   */
  function PayBase(config: AppConfig, key: string): (r: Option<ParsedUrl>)
    ensures key == "analytics.monthly_19" ==> r == Some(config.analyticsMonthly19)
    ensures key == "analytics.oneoff_29" ==> r == Some(config.analyticsOneoff29)
    ensures key != "analytics.monthly_19" && key != "analytics.oneoff_29" ==>
      r == if key in config.pay then Some(config.pay[key]) else None
  {
    if key == "analytics.monthly_19" then Some(config.analyticsMonthly19)
    else if key == "analytics.oneoff_29" then Some(config.analyticsOneoff29)
    else if key in config.pay then Some(config.pay[key])
    else None
  }

  /**
   * `payHref(key, source)`: the base link with the success and cancel
   * URLs, the hold e-mail when there is one, `utm_source=adtopia`,
   * `utm_medium=beta` and `utm_campaign` set to the source, or `site` for an
   * empty source. `None` stands for the `TypeError` of an unknown key.
   */
  function PayHref(config: AppConfig, key: string, source: string, holdEmail: Option<string>): (r: Option<ParsedUrl>)
    ensures r.Some? <==> PayBase(config, key).Some?
    ensures r.Some? ==>
      && r.value.location == PayBase(config, key).value.location
      && GetParam(r.value.params, "success_url") == Some(config.successUrl)
      && GetParam(r.value.params, "cancel_url") == Some(config.cancelUrl)
      && GetParam(r.value.params, "utm_source") == Some("adtopia")
      && GetParam(r.value.params, "utm_medium") == Some("beta")
      && GetParam(r.value.params, "utm_campaign") == Some(if source != "" then source else "site")
      && (holdEmail.Some? && holdEmail.value != "" ==> GetParam(r.value.params, "prefilled_email") == holdEmail)
      && (!(holdEmail.Some? && holdEmail.value != "") ==>
            GetParam(r.value.params, "prefilled_email") == GetParam(PayBase(config, key).value.params, "prefilled_email"))
  {
    match PayBase(config, key)
    case None => None
    case Some(base) =>
      var redirects := SetOnUrl(SetOnUrl(base, "success_url", config.successUrl), "cancel_url", config.cancelUrl);
      var prefilled :=
        if holdEmail.Some? && holdEmail.value != "" then SetOnUrl(redirects, "prefilled_email", holdEmail.value)
        else redirects;
      var campaign := if source != "" then source else "site";
      var tagged := SetOnUrl(SetOnUrl(prefilled, "utm_source", "adtopia"), "utm_medium", "beta");
      var r := SetOnUrl(tagged, "utm_campaign", campaign);
      TaggingKeeps(prefilled, campaign, "success_url");
      TaggingKeeps(prefilled, campaign, "cancel_url");
      TaggingKeeps(prefilled, campaign, "prefilled_email");
      SetParamKeepsOthers(SetOnUrl(prefilled, "utm_source", "adtopia").params, "utm_medium", "beta", "utm_source");
      SetParamKeepsOthers(tagged.params, "utm_campaign", campaign, "utm_source");
      SetParamKeepsOthers(tagged.params, "utm_campaign", campaign, "utm_medium");
      var withSuccess := SetOnUrl(base, "success_url", config.successUrl);
      SetParamKeepsOthers(withSuccess.params, "cancel_url", config.cancelUrl, "success_url");
      SetParamKeepsOthers(SetOnUrl(base, "success_url", config.successUrl).params, "cancel_url", config.cancelUrl, "prefilled_email");
      SetParamKeepsOthers(base.params, "success_url", config.successUrl, "prefilled_email");
      assert GetParam(prefilled.params, "success_url") == Some(config.successUrl)
          && GetParam(prefilled.params, "cancel_url") == Some(config.cancelUrl) by {
        if holdEmail.Some? && holdEmail.value != "" {
          SetParamKeepsOthers(redirects.params, "prefilled_email", holdEmail.value, "success_url");
          SetParamKeepsOthers(redirects.params, "prefilled_email", holdEmail.value, "cancel_url");
        }
      }
      Some(r)
  }

  /** Every query parameter of the base link that `payHref` does not set reads as it did. */
  lemma PayHrefKeepsOthers(config: AppConfig, key: string, source: string, holdEmail: Option<string>, other: string)
    requires PayBase(config, key).Some?
    requires other !in {"success_url", "cancel_url", "prefilled_email", "utm_source", "utm_medium", "utm_campaign"}
    ensures GetParam(PayHref(config, key, source, holdEmail).value.params, other) == GetParam(PayBase(config, key).value.params, other)
  {
    var base := PayBase(config, key).value;
    var withSuccess := SetOnUrl(base, "success_url", config.successUrl);
    var redirects := SetOnUrl(withSuccess, "cancel_url", config.cancelUrl);
    var prefilled :=
      if holdEmail.Some? && holdEmail.value != "" then SetOnUrl(redirects, "prefilled_email", holdEmail.value)
      else redirects;
    SetParamKeepsOthers(base.params, "success_url", config.successUrl, other);
    SetParamKeepsOthers(withSuccess.params, "cancel_url", config.cancelUrl, other);
    if holdEmail.Some? && holdEmail.value != "" {
      SetParamKeepsOthers(redirects.params, "prefilled_email", holdEmail.value, other);
    }
    TaggingKeeps(prefilled, if source != "" then source else "site", other);
  }

  /** The three UTM tags leave every other parameter as it was. */
  lemma TaggingKeeps(url: ParsedUrl, campaign: string, other: string)
    requires other != "utm_source" && other != "utm_medium" && other != "utm_campaign"
    ensures var tagged := SetOnUrl(SetOnUrl(url, "utm_source", "adtopia"), "utm_medium", "beta");
      GetParam(SetOnUrl(tagged, "utm_campaign", campaign).params, other) == GetParam(url.params, other)
  {
    var first := SetOnUrl(url, "utm_source", "adtopia");
    var tagged := SetOnUrl(first, "utm_medium", "beta");
    SetParamKeepsOthers(url.params, "utm_source", "adtopia", other);
    SetParamKeepsOthers(first.params, "utm_medium", "beta", other);
    SetParamKeepsOthers(tagged.params, "utm_campaign", campaign, other);
  }

  datatype TrackedEvent = TrackedEvent(eventName: string, eventCategory: string, eventLabel: string,
                                       tier: string, source: string)

  /** The analytics queue and the tabs opened, as far as `openPaymentLink` touches them. */
  class Browser {
    var tracked: seq<TrackedEvent>
    var tabs: seq<(ParsedUrl, string)>

    constructor ()
      ensures tracked == [] && tabs == []
    {
      tracked := [];
      tabs := [];
    }

    /**
     * `openPaymentLink(key, source)`: one `payment_link_opened` event, then
     * the link opened in a new tab. The source defaults to `site`
     * when the caller gives none. An unknown key throws after the event
     * is tracked and opens nothing.
     */
    method OpenPaymentLink(config: AppConfig, key: string, source: Option<string>, holdEmail: Option<string>)
      returns (threw: bool)
      modifies this
      ensures var given := source.GetOr("site");
        tracked == old(tracked) + [TrackedEvent("payment_link_opened", "commerce", key, key, given)]
      ensures threw <==> PayBase(config, key).None?
      ensures tabs == if threw then old(tabs)
                        else old(tabs) + [(PayHref(config, key, source.GetOr("site"), holdEmail).value, "_blank")]
    {
      var given := source.GetOr("site");
      tracked := tracked + [TrackedEvent("payment_link_opened", "commerce", key, key, given)];
      var href := PayHref(config, key, given, holdEmail);
      if href.None? {
        return true;
      }
      tabs := tabs + [(href.value, "_blank")];
      threw := false;
    }
  }
}
