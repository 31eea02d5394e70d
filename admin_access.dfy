// Time-limited admin access kept in localStorage
// (modules/core/utils/adminAccess.ts): a record under `admin_access` says
// access was granted and until when; an expired record is removed when it
// is next checked.
//
// `Date.now()` is the `now` input. The stored text is modelled as what
// `JSON.parse` makes of it: missing (no key, or the empty text),
// unreadable, or a JSON value. The record's fields are read from that
// value as JavaScript does, so `expiresAt` is whatever JSON value the text
// held, and both `Date.now() >= expiresAt` and `expiresAt - Date.now()`
// first convert it to a number: `null` reads as 0, numeric text as its
// number, and only a missing field, non-numeric text or an object as
// `NaN`, which is neither smaller nor larger than any time.

module AdminAccess {
  import opened Common

  const AdminAccessKey := "admin_access"
  const AccessDurationMs := 24 * 60 * 60 * 1000

  // ---------------------------------------------------------------------
  // JavaScript's conversion to a number (`None` is `NaN`)

  /** Ten to the power `k`. */
  function Pow10(k: nat): (p: nat)
    ensures p >= 1
  {
    if k == 0 then 1 else 10 * Pow10(k - 1)
  }

  /**
   * An unsigned decimal literal: digits, optionally followed by a point and
   * more digits, or a point and at least one digit.
   */
  function DecimalLiteral(b: string): (r: Option<real>)
    ensures r.Some? ==> r.value >= 0.0 && exists k :: 0 <= k < |b| && IsDigit(b[k])
  {
    var whole := DigitPrefix(b);
    var rest := b[|whole|..];
    if rest == "" then
      if |whole| > 0 then Some(DigitsValue(whole) as real) else None
    else if rest[0] == '.' then
      var fraction := DigitPrefix(rest[1..]);
      if |whole| + |fraction| > 0 && |fraction| == |rest| - 1 then
        assert if |whole| > 0 then IsDigit(b[0]) else b[1..][..|fraction|] == fraction && IsDigit(b[1]);
        Some(DigitsValue(whole) as real + DigitsValue(fraction) as real / Pow10(|fraction|) as real)
      else None
    else None
  }

  /** `Number(s)` on text: blank text is 0; otherwise an optionally signed decimal literal between blanks. */
  function StringToNumber(s: string): (r: Option<real>)
  {
    var t := Trim(s);
    if t == "" then Some(0.0)
    else
      var body := if t[0] == '+' || t[0] == '-' then t[1..] else t;
      match DecimalLiteral(body)
      case None => None
      case Some(x) => if t[0] == '-' then Some(-x) else Some(x)
  }

  /**
   * `Number(v)`: `null` and `false` are 0, `true` is 1, text is read as
   * above, an array reads as the text its elements join to (so `[]` is 0,
   * a single element reads as that element's text, and two or more hold a
   * comma and read as `NaN`), and any other object is `NaN`.
   */
  function ToNumber(v: JsValue): (r: Option<real>)
    decreases v
  {
    match v
    case Undefined => None
    case Null => Some(0.0)
    case Bool(b) => Some(if b then 1.0 else 0.0)
    case Num(n) => Some(n)
    case NaN => None
    case Str(s) => StringToNumber(s)
    case Arr(elems) =>
      if |elems| == 0 then Some(0.0)
      else if |elems| > 1 then None
      else (match elems[0]
        case Undefined => Some(0.0)
        case Null => Some(0.0)
        case Bool(_) => None
        case Num(n) => Some(n)
        case NaN => None
        case Str(s) => StringToNumber(s)
        case Arr(_) => ToNumber(elems[0])
        case Obj(_) => None
        case ErrorObject(_) => None)
    case Obj(_) => None
    case ErrorObject(_) => None
  }

  /** Numeric text written by `String(n)` reads back as `n`. */
  lemma NumericTextReadsBack(n: nat)
    ensures ToNumber(Str(DecimalString(n))) == Some(n as real)
  {
    var d := DecimalString(n);
    DigitsUntrimmed(d);
    DigitsLiteral(d);
    DigitsOfDecimal(n);
    assert d[0] != '+' && d[0] != '-';
  }

  /** Trimming leaves a run of digits as it is. */
  lemma DigitsUntrimmed(d: string)
    requires |d| > 0 && forall i :: 0 <= i < |d| ==> IsDigit(d[i])
    ensures Trim(d) == d
  {
    assert !IsBlank(d[0]) && !IsBlank(d[|d| - 1]);
    assert TrimStart(d) == d;
    assert TrimEnd(d) == d;
  }

  /** A run of digits is a decimal literal with the digits' value. */
  lemma DigitsLiteral(d: string)
    requires |d| > 0 && forall i :: 0 <= i < |d| ==> IsDigit(d[i])
    ensures DecimalLiteral(d) == Some(DigitsValue(d) as real)
  {
    DigitPrefixOfDigits(d);
    assert d[|d|..] == "";
  }

  /** Text that is not a number, such as `soon`, reads as `NaN`. */
  lemma WordIsNaN()
    ensures ToNumber(Str("soon")) == None
  {
    var t := "soon";
    assert !IsBlank(t[0]) && !IsBlank(t[|t| - 1]);
    assert Trim(t) == t by {
      assert TrimStart(t) == t;
      assert TrimEnd(t) == t;
    }
    assert DecimalLiteral(t) == None by {
      assert !IsDigit(t[0]);
      assert DigitPrefix(t) == "";
      assert t[0..] == t;
    }
  }

  // ---------------------------------------------------------------------
  // The stored record

  /** What `setAdminAccess` stores, as `JSON.parse` reads it back: `JSON.stringify` writes `NaN` as `null`. */
  function StoredRecord(expiresAt: JsValue, grantedAt: int): (v: JsValue)
    ensures v.Obj? && Get(v, "granted") == Bool(true) && Get(v, "grantedAt") == Num(grantedAt as real)
    ensures Get(v, "expiresAt") == if expiresAt.NaN? then Null else expiresAt
  {
    Obj(map["granted" := Bool(true), "expiresAt" := (if expiresAt.NaN? then Null else expiresAt), "grantedAt" := Num(grantedAt as real)])
  }

  /** Reading a field of `null` or `undefined` throws. */
  predicate Readable(v: JsValue) {
    !v.Null? && !v.Undefined?
  }

  /** `accessData.expiresAt`, as a number. */
  function Expiry(v: JsValue): Option<real> {
    ToNumber(Get(v, "expiresAt"))
  }

  /** `Date.now() >= accessData.expiresAt` on a readable record. */
  predicate Expired(stored: Slot<JsValue>, now: int) {
    stored.Holds? && Readable(stored.value) && Expiry(stored.value).Some? && now as real >= Expiry(stored.value).value
  }

  /** Whether a record read at `now` grants access: readable, unexpired and `granted === true`. */
  predicate Grants(stored: Slot<JsValue>, now: int) {
    stored.Holds? && Readable(stored.value) && !Expired(stored, now) && Get(stored.value, "granted") == Bool(true)
  }

  class AdminAccessStore {
    /** `typeof window !== 'undefined'`. */
    const hasWindow: bool
    var stored: Slot<JsValue>

    constructor (hasWindow: bool, stored: Slot<JsValue>)
      ensures this.hasWindow == hasWindow && this.stored == stored
    {
      this.hasWindow := hasWindow;
      this.stored := stored;
    }

    /**
     * `setAdminAccess(expiresAt)`: a granted record ending at `expiresAt`,
     * stamped `now`. A throwing `setItem` (`setFails`) is caught and stores
     * nothing.
     */
    method SetAdminAccess(expiresAt: JsValue, now: int, setFails: bool)
      requires expiresAt.Num? || expiresAt.NaN?
      modifies this
      ensures stored == if hasWindow && !setFails then Holds(StoredRecord(expiresAt, now)) else old(stored)
    {
      if !hasWindow {
        return;
      }
      if setFails {
        return;
      }
      stored := Holds(StoredRecord(expiresAt, now));
    }

    /**
     * `hasAdminAccess()`: false without a window or a readable record; an
     * expired record is removed and refused; otherwise whether the record's
     * `granted` is `true`.
     */
    method HasAdminAccess(now: int) returns (has: bool)
      modifies this
      ensures has <==> hasWindow && Grants(old(stored), now)
      ensures stored == if hasWindow && Expired(old(stored), now) then Missing else old(stored)
    {
      if !hasWindow {
        return false;
      }
      match stored
      case Missing =>
        has := false;
      case Garbled =>
        has := false;
      case Holds(record) =>
        if !Readable(record) {
          has := false;
        } else {
          var expiry := ToNumber(Get(record, "expiresAt"));
          if expiry.Some? && now as real >= expiry.value {
            ClearAdminAccess();
            has := false;
          } else {
            has := Get(record, "granted") == Bool(true);
          }
        }
    }

    /** `clearAdminAccess()`: removes the record. */
    method ClearAdminAccess()
      modifies this
      ensures stored == if hasWindow then Missing else old(stored)
    {
      if !hasWindow {
        return;
      }
      stored := Missing;
    }

    /**
     * `getRemainingAccessTime()`: `expiresAt - Date.now()` when positive,
     * otherwise 0; 0 without a window or a readable record, and for a
     * `NaN` expiry.
     */
    function RemainingAccessTime(now: int): (ms: real)
      reads this
      ensures ms >= 0.0
      ensures ms > 0.0 <==> hasWindow && stored.Holds? && Readable(stored.value)
                            && Expiry(stored.value).Some? && Expiry(stored.value).value > now as real
      ensures ms > 0.0 ==> ms == Expiry(stored.value).value - now as real
    {
      if !hasWindow then 0.0
      else match stored
        case Holds(record) =>
          if !Readable(record) then 0.0
          else
            var expiry := ToNumber(Get(record, "expiresAt"));
            if expiry.Some? && expiry.value - now as real > 0.0 then expiry.value - now as real else 0.0
        case _ => 0.0
    }
  }

  /** After clearing, access is refused at any time. */
  method ClearThenCheck(store: AdminAccessStore, now: int) returns (has: bool)
    modifies store
    ensures !has
  {
    store.ClearAdminAccess();
    has := store.HasAdminAccess(now);
  }

  /** Granting until `expiresAt` and then checking gives access exactly before `expiresAt`. */
  method SetThenCheck(store: AdminAccessStore, expiresAt: real, grantedAt: int, now: int) returns (has: bool)
    requires store.hasWindow
    modifies store
    ensures has <==> (now as real) < expiresAt
  {
    store.SetAdminAccess(Num(expiresAt), grantedAt, false);
    has := store.HasAdminAccess(now);
    GrantHoldsUntilExpiry(expiresAt, grantedAt, now);
  }

  /** A stored grant holds exactly until its expiry. */
  lemma GrantHoldsUntilExpiry(expiresAt: real, grantedAt: int, now: int)
    ensures Grants(Holds(StoredRecord(Num(expiresAt), grantedAt)), now) <==> (now as real) < expiresAt
  {
    var v := StoredRecord(Num(expiresAt), grantedAt);
    assert Expiry(v) == Some(expiresAt);
  }

  /** A grant given a `NaN` expiry is stored with `null`, which reads as time 0: refused at any time from 1970 on. */
  lemma NaNGrantExpired(grantedAt: int, now: int)
    ensures Grants(Holds(StoredRecord(NaN, grantedAt)), now) <==> now < 0
  {
    var v := StoredRecord(NaN, grantedAt);
    assert Expiry(v) == Some(0.0);
  }

  /** A granted record without an `expiresAt` field never expires. */
  lemma MissingExpiryNeverExpires(fields: map<string, JsValue>, now: int)
    requires "expiresAt" !in fields
    ensures Grants(Holds(Obj(fields)), now) <==> "granted" in fields && fields["granted"] == Bool(true)
  {
    assert Get(Obj(fields), "expiresAt") == Undefined;
  }

  /** A record whose expiry is stored as numeric text expires at that number, and counts down to it. */
  lemma NumericTextExpiry(store: AdminAccessStore, n: nat, now: int)
    requires store.hasWindow && store.stored.Holds? && store.stored.value.Obj?
    requires Get(store.stored.value, "expiresAt") == Str(DecimalString(n))
    ensures Expired(store.stored, now) <==> now >= n
    ensures store.RemainingAccessTime(now) == if now < n then (n - now) as real else 0.0
  {
    NumericTextReadsBack(n);
  }

  /** For a record with a numeric expiry, access is granted only while time remains. */
  lemma GrantImpliesTimeLeft(store: AdminAccessStore, now: int)
    requires store.hasWindow
    ensures Grants(store.stored, now) && Expiry(store.stored.value).Some? ==> store.RemainingAccessTime(now) > 0.0
    ensures store.RemainingAccessTime(now) > 0.0 && Get(store.stored.value, "granted") == Bool(true) ==> Grants(store.stored, now)
  {
    if store.stored.Holds? && Readable(store.stored.value) {
      var e := Expiry(store.stored.value);
      assert e.Some? && e.value > now as real ==> !Expired(store.stored, now);
    }
  }
}
