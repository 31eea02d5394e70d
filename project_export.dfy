// Project export and import (src/lib/project-export.ts): the export bundles
// what the browser stores hold; the import only validates and counts what
// a file offers and stores nothing.

module ProjectExport {
  import opened Common
  import opened Cards
  import Storage

  datatype ProjectData = ProjectData(
    version: string,
    exportedAt: string,
    cards: Storage.CardsJson,
    email: string,
    giftClaimed: bool,
    shortLinks: seq<ShortRecord>)

  /** `exportProject()`: version `1.0`, the time, and the stored cards, e-mail, gift flag and short links. */
  function ExportProject(store: Storage.BrowserStorage, codec: Storage.JsonCodec, nowIso: string): (r: ProjectData)
    reads store
    ensures r.version == "1.0" && r.exportedAt == nowIso
    ensures r.cards == store.LoadCards(codec) && r.email == store.LoadEmail()
    ensures r.giftClaimed == store.LoadGiftStatus() && r.shortLinks == store.LoadShorts()
  {
    ProjectData("1.0", nowIso, store.LoadCards(codec), store.LoadEmail(), store.LoadGiftStatus(), store.LoadShorts())
  }

  datatype Imported = Imported(cards: nat, email: bool, shortLinks: nat)

  datatype ImportResult = ImportResult(success: bool, message: string, imported: Imported)

  const NoWindowMessage := "Import not available in this environment"
  const FailureMessage := "Failed to import project data. Please check the file format."

  /** `card && typeof card === 'object' && card.id && card.title && card.imageDataUrl`. */
  predicate ValidCard(v: JsValue) {
    Truthy(v) && IsObjectType(v) && Truthy(Get(v, "id")) && Truthy(Get(v, "title")) && Truthy(Get(v, "imageDataUrl"))
  }

  /** `link && typeof link === 'object' && link.slug && link.target`. */
  predicate ValidLink(v: JsValue) {
    Truthy(v) && IsObjectType(v) && Truthy(Get(v, "slug")) && Truthy(Get(v, "target"))
  }

  /** How many entries pass the card test. */
  function CountValidCards(entries: seq<JsValue>): (n: nat)
    ensures n <= |entries|
  {
    if |entries| == 0 then 0
    else CountValidCards(entries[1..]) + (if ValidCard(entries[0]) then 1 else 0)
  }

  /** No card is counted exactly when none is valid, and all are exactly when all are. */
  lemma {:induction false} CountValidCardsExtremes(entries: seq<JsValue>)
    ensures CountValidCards(entries) == 0 <==> forall k :: 0 <= k < |entries| ==> !ValidCard(entries[k])
    ensures CountValidCards(entries) == |entries| <==> forall k :: 0 <= k < |entries| ==> ValidCard(entries[k])
  {
    if |entries| > 0 {
      var rest := entries[1..];
      CountValidCardsExtremes(rest);
      assert forall k :: 1 <= k < |entries| ==> entries[k] == rest[k - 1];
    }
  }

  /** How many entries pass the short-link test. */
  function CountValidLinks(entries: seq<JsValue>): (n: nat)
    ensures n <= |entries|
    ensures n == 0 <==> forall k :: 0 <= k < |entries| ==> !ValidLink(entries[k])
  {
    if |entries| == 0 then 0
    else CountValidLinks(entries[1..]) + (if ValidLink(entries[0]) then 1 else 0)
  }

  /** `typeof email === 'string' && email.trim()`. */
  predicate EmailImported(v: JsValue) {
    v.Str? && Trim(v.s) != ""
  }

  /**
   * `importProject(projectData)`: without a window it fails with all
   * counts zero. Reading a member of `null` or `undefined` throws, and so
   * does spreading the stored cards when there are valid cards to merge and
   * `loadCards` gave back something that is not iterable (a compressed
   * envelope, say); both give the failure result. Otherwise the counts are
   * the valid cards, whether a non-blank e-mail text is present, and the
   * valid links. Nothing is written: the merged card list is computed and
   * dropped. `existing` is what `loadCards` returns at that moment.
   */
  function ImportProject(hasWindow: bool, projectData: JsValue, existing: Storage.CardsJson): (r: ImportResult)
    ensures !hasWindow ==> r == ImportResult(false, NoWindowMessage, Imported(0, false, 0))
    ensures hasWindow && !r.success ==> r == ImportResult(false, FailureMessage, Imported(0, false, 0))
    ensures r.success <==>
      && hasWindow && !projectData.Null? && !projectData.Undefined?
      && (MergesCards(projectData) ==> Storage.Spreadable(existing))
    ensures r.success ==>
      var cards := Get(projectData, "cards");
      var links := Get(projectData, "shortLinks");
      && r.imported.cards == (if cards.Arr? then CountValidCards(cards.elems) else 0)
      && (r.imported.email <==> EmailImported(Get(projectData, "email")))
      && r.imported.shortLinks == (if links.Arr? then CountValidLinks(links.elems) else 0)
  {
    if !hasWindow then ImportResult(false, NoWindowMessage, Imported(0, false, 0))
    else if projectData.Null? || projectData.Undefined? then ImportResult(false, FailureMessage, Imported(0, false, 0))
    else
      var cards := Get(projectData, "cards");
      var cardsImported := if cards.Arr? then CountValidCards(cards.elems) else 0;
      if cardsImported > 0 && !Storage.Spreadable(existing) then ImportResult(false, FailureMessage, Imported(0, false, 0))
      else
        var emailImported := EmailImported(Get(projectData, "email"));
        var links := Get(projectData, "shortLinks");
        var linksImported := if links.Arr? then CountValidLinks(links.elems) else 0;
        ImportResult(true,
          "Successfully imported " + DecimalString(cardsImported) + " cards, " + (if emailImported then "email, " else "")
          + DecimalString(linksImported) + " short links",
          Imported(cardsImported, emailImported, linksImported))
  }

  /** The file offers at least one valid card, so the import spreads the stored cards to merge them. */
  predicate MergesCards(projectData: JsValue) {
    var cards := Get(projectData, "cards");
    cards.Arr? && CountValidCards(cards.elems) > 0
  }

  /** An entry that lacks a truthy `imageDataUrl` is never counted, whatever else it carries. */
  lemma CardsNeedAnImage(entries: seq<JsValue>)
    requires forall k :: 0 <= k < |entries| ==> !Truthy(Get(entries[k], "imageDataUrl"))
    ensures CountValidCards(entries) == 0
  {
    CountValidCardsExtremes(entries);
  }

  /** Counting distributes over concatenation: importing two files' cards counts each file's. */
  lemma {:induction false} CountValidCardsAppend(a: seq<JsValue>, b: seq<JsValue>)
    ensures CountValidCards(a + b) == CountValidCards(a) + CountValidCards(b)
  {
    if |a| > 0 {
      CountValidCardsAppend(a[1..], b);
      var ab := a + b;
      assert ab[0] == a[0] && ab[1..] == a[1..] + b;
      assert CountValidCards(ab) == CountValidCards(ab[1..]) + (if ValidCard(a[0]) then 1 else 0);
    } else {
      assert a + b == b;
    }
  }
}
