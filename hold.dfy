// Pre-payment "hold" on an e-mail address (src/lib/hold.ts): a link with
// `?email=…&hold=30` (or `hold=true`) stores the address and an end time;
// while the hold lasts, previews last longer and checkout pre-fills the
// address.
//
// localStorage, reached through `safeStorage`, is the `items` map; without a
// window every read is `null` and every write is skipped. `Date.now()` is
// `now`. The two day counts come from the app configuration, which is not
// part of this model, so they are inputs.

module Hold {
  import opened Common

  const HoldEmailKey := "holdEmail"
  const HoldUntilKey := "holdUntil"
  const DayMs := 24 * 3600 * 1000

  datatype HoldConfig = HoldConfig(holdPreviewDays: nat, defaultPreviewDays: nat)

  // ---------------------------------------------------------------------
  // `parseInt(text, 10)`

  /**
   * `parseInt(s, 10)`: leading white space and one sign are skipped, then
   * the longest run of digits is read; no digits gives `NaN` (`None`).
   */
  function ParseInt(s: string): (r: Option<int>)
    ensures r.Some? ==> exists k :: 0 <= k < |s| && IsDigit(s[k])
  {
    var t := TrimStart(s);
    var negative := |t| > 0 && t[0] == '-';
    var body := if |t| > 0 && (t[0] == '-' || t[0] == '+') then t[1..] else t;
    var digits := DigitPrefix(body);
    if |digits| == 0 then None
    else
      assert IsDigit(body[0]) && body[0] in s by {
        assert digits[0] == body[0];
        assert body[0] in t;
      }
      var magnitude: int := DigitsValue(digits);
      var value := if negative then -magnitude else magnitude;
      Some(value)
  }

  /** What `String(n)` writes, `parseInt` reads back. */
  lemma ParseIntOfDecimal(n: nat)
    ensures ParseInt(DecimalString(n)) == Some(n)
  {
    var d := DecimalString(n);
    assert !IsBlank(d[0]);
    assert TrimStart(d) == d;
    DigitPrefixOfDigits(d);
    DigitsOfDecimal(n);
  }

  // ---------------------------------------------------------------------
  // Reading the hold

  /** `safeStorage.get(key)`. */
  function StorageGet(hasWindow: bool, items: map<string, string>, key: string): (r: Option<string>)
    ensures r.Some? <==> hasWindow && key in items
  {
    if hasWindow && key in items then Some(items[key]) else None
  }

  /** `holdActive()`: a stored end time that reads as a number later than now (the empty text reads as none). */
  function HoldActive(hasWindow: bool, items: map<string, string>, now: int): (r: bool)
    ensures r <==> hasWindow && HoldUntilKey in items && ParseInt(items[HoldUntilKey]).Some?
                   && ParseInt(items[HoldUntilKey]).value > now
  {
    var until := StorageGet(hasWindow, items, HoldUntilKey);
    ParseIntOfEmpty();
    until.Some? && until.value != "" && ParseInt(until.value).Some? && ParseInt(until.value).value > now
  }

  /** The empty text does not read as a number. */
  lemma ParseIntOfEmpty()
    ensures ParseInt("").None?
  {
    assert TrimStart("") == "";
    assert DigitPrefix("") == "";
  }

  /** A hold active now was active at every earlier time. */
  lemma HoldActiveEarlier(hasWindow: bool, items: map<string, string>, now: int, earlier: int)
    requires earlier <= now && HoldActive(hasWindow, items, now)
    ensures HoldActive(hasWindow, items, earlier)
  {
    var until := StorageGet(hasWindow, items, HoldUntilKey);
    assert until.Some? && until.value != "";
  }

  /**
   * `getHoldEmail()` as written: no end time, or one that reads as a number
   * not after now, gives nothing; otherwise the stored non-empty address.
   * An end time that is not a number passes the `untilMs <= now` test,
   * since `NaN <= now` is false.
   */
  function HoldEmail(hasWindow: bool, items: map<string, string>, now: int): (r: Option<string>)
    ensures r.Some? ==> r.value != "" && StorageGet(hasWindow, items, HoldEmailKey) == r
    ensures r.Some? ==> StorageGet(hasWindow, items, HoldUntilKey).Some?
  {
    var until := StorageGet(hasWindow, items, HoldUntilKey);
    if until.None? || until.value == "" then None
    else if ParseInt(until.value).Some? && ParseInt(until.value).value <= now then None
    else
      var email := StorageGet(hasWindow, items, HoldEmailKey);
      if email.Some? && email.value != "" then email else None
  }

  /** A stored end time that is not a number yields an address while the hold is not active. */
  lemma HoldEmailWithoutHold()
    ensures var items := map[HoldUntilKey := "soon", HoldEmailKey := "a@b.co"];
      HoldEmail(true, items, 0) == Some("a@b.co") && !HoldActive(true, items, 0)
  {
    var items := map[HoldUntilKey := "soon", HoldEmailKey := "a@b.co"];
    assert TrimStart("soon") == "soon";
    assert DigitPrefix("soon") == "";
    assert ParseInt("soon").None?;
  }

  /** The address is given out only while the hold is active. */
  function HoldEmailCorrected(hasWindow: bool, items: map<string, string>, now: int): (r: Option<string>)
    ensures r.Some? ==> HoldActive(hasWindow, items, now)
    ensures r.Some? ==> r.value != "" && StorageGet(hasWindow, items, HoldEmailKey) == r
  {
    if !HoldActive(hasWindow, items, now) then None
    else
      var email := StorageGet(hasWindow, items, HoldEmailKey);
      if email.Some? && email.value != "" then email else None
  }

  /** Wherever the stored end time is a number, the corrected reading agrees with the written one. */
  lemma CorrectedAgreesOnNumbers(hasWindow: bool, items: map<string, string>, now: int)
    requires var until := StorageGet(hasWindow, items, HoldUntilKey);
      until.None? || until.value == "" || ParseInt(until.value).Some?
    ensures HoldEmailCorrected(hasWindow, items, now) == HoldEmail(hasWindow, items, now)
  {
  }

  /** `previewExpiry(base)`: the base plus the hold's days while it is active, else the default days. */
  function PreviewExpiry(hasWindow: bool, items: map<string, string>, now: int, config: HoldConfig, base: int): (r: int)
    ensures HoldActive(hasWindow, items, now) ==> r == base + config.holdPreviewDays * DayMs
    ensures !HoldActive(hasWindow, items, now) ==> r == base + config.defaultPreviewDays * DayMs
  {
    var days := if HoldActive(hasWindow, items, now) then config.holdPreviewDays else config.defaultPreviewDays;
    base + days * DayMs
  }

  /** `qp(k)`: a query parameter, with an empty value read as absent. */
  function QueryParam(query: map<string, string>, k: string): (r: Option<string>)
    ensures r.Some? <==> k in query && query[k] != ""
    ensures r.Some? ==> r.value == query[k]
  {
    if k in query && query[k] != "" then Some(query[k]) else None
  }

  /** `qp('email') || qp('e')`. */
  function QueryEmail(query: map<string, string>): (r: Option<string>)
    ensures r.Some? ==> r.value != ""
    ensures r.None? <==> QueryParam(query, "email").None? && QueryParam(query, "e").None?
  {
    if QueryParam(query, "email").Some? then QueryParam(query, "email") else QueryParam(query, "e")
  }

  /** The hold is requested by `hold=30` or `hold=true` beside an address. */
  predicate HoldRequested(query: map<string, string>) {
    QueryEmail(query).Some? && "hold" in query && (query["hold"] == "30" || query["hold"] == "true")
  }

  class HoldStore {
    const hasWindow: bool
    var items: map<string, string>

    constructor (hasWindow: bool, items: map<string, string>)
      ensures this.hasWindow == hasWindow && this.items == items
    {
      this.hasWindow := hasWindow;
      this.items := items;
    }

    /**
     * `applyHoldFromQuery()`: with a window and a requested hold, stores the
     * address and then the end time `now + holdPreviewDays` days; anything
     * else writes nothing. Each write goes through `safeStorage.set`, which
     * swallows a throwing `setItem`: `emailSetFails` and `untilSetFails`
     * say which of the two writes threw and so stored nothing. With a
     * positive hold length and the end time stored, the hold is then active;
     * it gives back the new address when that was stored too, and otherwise
     * whatever address was stored before.
     */
    method ApplyHoldFromQuery(query: map<string, string>, now: nat, config: HoldConfig,
                              emailSetFails: bool, untilSetFails: bool)
      modifies this
      ensures hasWindow && HoldRequested(query) ==>
        var withEmail := if emailSetFails then old(items) else old(items)[HoldEmailKey := QueryEmail(query).value];
        items == if untilSetFails then withEmail
                 else withEmail[HoldUntilKey := DecimalString(now + config.holdPreviewDays * DayMs)]
      ensures !(hasWindow && HoldRequested(query)) ==> items == old(items)
      ensures untilSetFails ==> HoldActive(hasWindow, items, now) == HoldActive(hasWindow, old(items), now)
      ensures hasWindow && HoldRequested(query) && config.holdPreviewDays > 0 && !untilSetFails ==>
        HoldActive(hasWindow, items, now)
        && HoldEmail(hasWindow, items, now) ==
             if !emailSetFails then QueryEmail(query)
             else if HoldEmailKey in old(items) && old(items)[HoldEmailKey] != "" then Some(old(items)[HoldEmailKey])
             else None
    {
      if !hasWindow {
        return;
      }
      var email := QueryEmail(query);
      if email.Some? && "hold" in query && (query["hold"] == "30" || query["hold"] == "true") {
        if !emailSetFails {
          items := items[HoldEmailKey := email.value];
        }
        var until := now + config.holdPreviewDays * DayMs;
        if !untilSetFails {
          items := items[HoldUntilKey := DecimalString(until)];
          if config.holdPreviewDays > 0 {
            if emailSetFails {
              HoldAfterFailedEmail(old(items), until, now);
            } else {
              HoldAfterApply(old(items), email.value, until, now);
            }
          }
        } else if !emailSetFails {
          AddressKeepsHold(old(items), email.value, now);
        }
      }
    }
  }

  /** Storing only the address leaves whether a hold is active. */
  lemma AddressKeepsHold(items: map<string, string>, email: string, now: int)
    ensures HoldActive(true, items[HoldEmailKey := email], now) == HoldActive(true, items, now)
  {
    assert HoldUntilKey != HoldEmailKey;
  }

  /** When only the end time is stored, the hold is active and gives whatever address was there before. */
  lemma HoldAfterFailedEmail(items: map<string, string>, until: nat, now: int)
    requires until > now
    ensures var after := items[HoldUntilKey := DecimalString(until)];
      && HoldActive(true, after, now)
      && HoldEmail(true, after, now) ==
           if HoldEmailKey in items && items[HoldEmailKey] != "" then Some(items[HoldEmailKey]) else None
  {
    var after := items[HoldUntilKey := DecimalString(until)];
    assert StorageGet(true, after, HoldUntilKey) == Some(DecimalString(until));
    assert StorageGet(true, after, HoldEmailKey) == StorageGet(true, items, HoldEmailKey);
    ParseIntOfDecimal(until);
  }

  /** Right after a hold is stored with an end time later than now, it is active and gives the address. */
  lemma HoldAfterApply(items: map<string, string>, email: string, until: nat, now: int)
    requires email != "" && until > now
    ensures var after := items[HoldEmailKey := email][HoldUntilKey := DecimalString(until)];
      HoldActive(true, after, now) && HoldEmail(true, after, now) == Some(email)
  {
    var after := items[HoldEmailKey := email][HoldUntilKey := DecimalString(until)];
    assert StorageGet(true, after, HoldUntilKey) == Some(DecimalString(until));
    assert StorageGet(true, after, HoldEmailKey) == Some(email);
    ParseIntOfDecimal(until);
  }
}
