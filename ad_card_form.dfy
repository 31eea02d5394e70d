// The ad card editor dialog (src/components/AdCardForm.tsx): the fields
// are trimmed and validated, an image is taken from an uploaded file or a
// typed URL, the card is updated or inserted in `ad_cards`, and a
// published card with a link gets a QR code.
//
// What makes a valid URL, the upload's outcome, the database's answers,
// the QR service's answer and the clock's ISO text are inputs. The rows
// written are recorded in `writes`, the QR codes asked for in
// `qrRequests`, and the toasts shown in `toasts`.

module AdCardForm {
  import opened Common
  import opened FileUpload

  /** The form's fields as typed. */
  datatype AdCardInput = AdCardInput(
    title: string, description: string, customUrl: string, templateId: Option<string>,
    category: string, status: string)

  /** A stored card, as far as the form reads it. */
  datatype AdCard = AdCard(
    id: string, title: string, description: string, customUrl: Option<string>, templateId: Option<string>,
    category: Option<string>, status: string, imageUrl: Option<string>, qrCodeUrl: Option<string>)

  datatype CardPayload = CardPayload(
    title: string, description: string, customUrl: Option<string>, templateId: Option<string>,
    status: string, userId: string, aiGenerated: bool, imageUrl: Option<string>, category: string,
    updatedAt: string)

  datatype CardWrite =
    | UpdateCard(id: string, payload: CardPayload)
    | InsertCard(payload: CardPayload)
    | SetQrCode(id: string, qrCodeUrl: string)

  datatype Toast = Toast(title: string, description: string, destructive: bool)

  const Categories: set<string> := {"Real Estate", "Services", "Products", "Jobs", "Automotive", "Other"}
  const Statuses: set<string> := {"draft", "published", "archived"}
  const AllowedImageTypes: seq<string> := ["image/jpeg", "image/png", "image/webp", "image/jpg"]
  const ImageBucket := "ad-images"
  const SaveFailedMessage := "Failed to save ad card"
  const DefaultInput := AdCardInput("", "", "", Some(""), "Other", "draft")

  predicate Filled(s: Option<string>) {
    s.Some? && s.value != ""
  }

  /**
   * `adCardSchema.parse`: the title and description are trimmed, the title
   * must then hold 3 to 100 characters and the description at most 500;
   * the link, trimmed, must be a URL of at most 500 characters unless it
   * is exactly empty; category and status come from closed lists.
   */
  function ParseAdCard(input: AdCardInput, isUrl: string -> bool): (r: Option<AdCardInput>)
    ensures r.Some? <==>
      && 3 <= |Trim(input.title)| <= 100
      && |Trim(input.description)| <= 500
      && ((isUrl(Trim(input.customUrl)) && |Trim(input.customUrl)| <= 500) || input.customUrl == "")
      && input.category in Categories && input.status in Statuses
    ensures r.Some? ==>
      && r.value.title == Trim(input.title) && r.value.description == Trim(input.description)
      && r.value.templateId == input.templateId
      && r.value.category == input.category && r.value.status == input.status
      && (r.value.customUrl == "" || isUrl(r.value.customUrl))
  {
    var title := Trim(input.title);
    var description := Trim(input.description);
    var link := Trim(input.customUrl);
    if 3 <= |title| <= 100 && |description| <= 500 && input.category in Categories && input.status in Statuses then
      if isUrl(link) && |link| <= 500 then
        Some(AdCardInput(title, description, link, input.templateId, input.category, input.status))
      else if input.customUrl == "" then
        Some(AdCardInput(title, description, "", input.templateId, input.category, input.status))
      else None
    else None
  }

  /** The form's fields when the dialog opens on a stored card. */
  function InitialInput(card: AdCard): (r: AdCardInput)
    ensures r.customUrl == (if Filled(card.customUrl) then card.customUrl.value else "")
    ensures r.category == (if Filled(card.category) then card.category.value else "Other")
    ensures r.title == card.title && r.status == card.status
  {
    AdCardInput(card.title, card.description,
                if Filled(card.customUrl) then card.customUrl.value else "",
                Some(if Filled(card.templateId) then card.templateId.value else ""),
                if Filled(card.category) then card.category.value else "Other",
                card.status)
  }

  /** `editingCard.image_url || editingCard.qr_code_url || null`. */
  function InitialPreview(card: AdCard): Option<string> {
    if Filled(card.imageUrl) then card.imageUrl
    else if Filled(card.qrCodeUrl) then card.qrCodeUrl
    else None
  }

  /** A preview string compared with `!==` against a stored value that may be absent. */
  predicate Differs(preview: string, stored: Option<string>) {
    stored.None? || stored.value != preview
  }

  /** `editingCard?.image_url || null`: the stored image when it is not empty. */
  function StoredImage(editing: Option<AdCard>): (r: Option<string>)
    ensures r.Some? ==> editing.Some? && r == editing.value.imageUrl && r.value != ""
    ensures r.None? ==> !(editing.Some? && Filled(editing.value.imageUrl))
  {
    if editing.Some? && Filled(editing.value.imageUrl) then editing.value.imageUrl else None
  }

  /** A preview that is set and is neither the stored image nor the stored QR code: a URL typed by hand. */
  predicate TypedPreview(editing: Option<AdCard>, preview: Option<string>) {
    && Filled(preview)
    && Differs(preview.value, if editing.Some? then editing.value.imageUrl else None)
    && Differs(preview.value, if editing.Some? then editing.value.qrCodeUrl else None)
  }

  /**
   * The image to save: with a file selected, the uploaded URL when it is
   * not empty and otherwise the stored image; without a file, a preview
   * that is neither the stored image nor the stored QR code; else the
   * stored image. An upload that throws fails the save.
   */
  function ChooseImage(editing: Option<AdCard>, fileSelected: bool, upload: UploadResult, preview: Option<string>)
    : (r: Result<Option<string>, string>)
    ensures r.Err? <==> fileSelected && upload.UploadThrew?
    ensures r.Err? ==> r.error == upload.message
    ensures r.Ok? && r.value.Some? ==> r.value.value != ""
    ensures r.Ok? ==>
      var storedImage := if editing.Some? then editing.value.imageUrl else None;
      var storedQr := if editing.Some? then editing.value.qrCodeUrl else None;
      || (fileSelected && r.value == Some(upload.publicUrl))
      || (!fileSelected && Filled(preview) && r.value == preview
          && Differs(preview.value, storedImage) && Differs(preview.value, storedQr))
      || (r.value == storedImage && Filled(storedImage))
      || (r.value.None? && !Filled(storedImage))
    ensures r.Ok? && fileSelected && upload.publicUrl != "" ==> r.value == Some(upload.publicUrl)
    ensures fileSelected && upload.Uploaded? && upload.publicUrl != "" ==> r == Ok(Some(upload.publicUrl))
    ensures fileSelected && upload.Uploaded? && upload.publicUrl == "" ==> r == Ok(StoredImage(editing))
    ensures !fileSelected && TypedPreview(editing, preview) ==> r == Ok(preview)
    ensures !fileSelected && !TypedPreview(editing, preview) ==> r == Ok(StoredImage(editing))
  {
    var storedImage := if editing.Some? then editing.value.imageUrl else None;
    var storedQr := if editing.Some? then editing.value.qrCodeUrl else None;
    var kept := if Filled(storedImage) then storedImage else None;
    if fileSelected then
      match upload
      case UploadThrew(message) => Err(message)
      case Uploaded(url) => Ok(if url != "" then Some(url) else kept)
    else if Filled(preview) && Differs(preview.value, storedImage) && Differs(preview.value, storedQr) then Ok(preview)
    else Ok(kept)
  }

  /** `basePayload`: never AI-generated; an empty link or template is stored as null. */
  function Payload(values: AdCardInput, userId: string, imageUrl: Option<string>, nowIso: string): (p: CardPayload)
    ensures !p.aiGenerated
    ensures p.customUrl.None? <==> values.customUrl == ""
    ensures p.customUrl.Some? ==> p.customUrl.value == values.customUrl
    ensures p.templateId.None? <==> !Filled(values.templateId)
    ensures p.templateId.Some? ==> p.templateId == values.templateId
    ensures p.userId == userId && p.imageUrl == imageUrl && p.category == values.category
    ensures p.title == values.title && p.description == values.description && p.status == values.status
    ensures p.updatedAt == nowIso
  {
    CardPayload(values.title, values.description,
                if values.customUrl != "" then Some(values.customUrl) else None,
                if Filled(values.templateId) then values.templateId else None,
                values.status, userId, false, imageUrl, values.category, nowIso)
  }

  /** The condition for asking for a QR code. */
  predicate WantsQrCode(values: AdCardInput, cardId: string) {
    values.customUrl != "" && values.status == "published" && cardId != ""
  }

  /** `error.message || fallback`. */
  function ErrorText(message: string): (r: string)
    ensures r != ""
  {
    if message != "" then message else SaveFailedMessage
  }

  /**
   * The rows a save writes: nothing after a failed upload or write;
   * otherwise the card, then its QR code when one was asked for, came back
   * and could be stored.
   */
  function SavedWrites(values: AdCardInput, userId: string, editing: Option<AdCard>,
                       image: Result<Option<string>, string>, nowIso: string, writeError: Option<string>,
                       insertedId: string, qrCodeUrl: Option<string>, qrUpdateFails: bool): (w: seq<CardWrite>)
    ensures |w| <= 2
    ensures w != [] <==> image.Ok? && writeError.None?
    ensures w != [] ==> (w[0].InsertCard? <==> editing.None?) && (w[0].UpdateCard? <==> editing.Some?)
    ensures w != [] ==> w[0].payload == Payload(values, userId, image.value, nowIso)
    ensures var cardId := if editing.Some? then editing.value.id else insertedId;
      && (|w| == 2 <==> w != [] && WantsQrCode(values, cardId) && Filled(qrCodeUrl) && !qrUpdateFails)
      && (|w| == 2 ==> w[1] == SetQrCode(cardId, qrCodeUrl.value))
  {
    if image.Err? || writeError.Some? then []
    else
      var payload := Payload(values, userId, image.value, nowIso);
      var cardId := if editing.Some? then editing.value.id else insertedId;
      var saved := if editing.Some? then UpdateCard(cardId, payload) else InsertCard(payload);
      [saved] + (if WantsQrCode(values, cardId) && Filled(qrCodeUrl) && !qrUpdateFails
                 then [SetQrCode(cardId, qrCodeUrl.value)] else [])
  }

  class AdCardFormState {
    var input: AdCardInput
    var imagePreview: Option<string>
    var fileSelected: bool
    var loading: bool
    var toasts: seq<Toast>
    var writes: seq<CardWrite>
    /** The `(card id, link)` pairs the QR service was asked for. */
    var qrRequests: seq<(string, string)>
    var closes: nat

    constructor ()
      ensures input == DefaultInput && imagePreview.None? && !fileSelected && !loading
      ensures toasts == [] && writes == [] && qrRequests == [] && closes == 0
    {
      input := DefaultInput;
      imagePreview := None;
      fileSelected := false;
      loading := false;
      toasts := [];
      writes := [];
      qrRequests := [];
      closes := 0;
    }

    /** The effect on `editingCard`: a stored card fills the form; none clears the image only. */
    method Open(editing: Option<AdCard>)
      modifies this
      ensures editing.Some? ==> input == InitialInput(editing.value) && imagePreview == InitialPreview(editing.value)
      ensures editing.Some? ==> fileSelected == old(fileSelected)
      ensures editing.None? ==> input == old(input) && imagePreview.None? && !fileSelected
      ensures loading == old(loading) && toasts == old(toasts) && writes == old(writes)
      ensures qrRequests == old(qrRequests) && closes == old(closes)
    {
      if editing.Some? {
        input := InitialInput(editing.value);
        imagePreview := InitialPreview(editing.value);
      } else {
        imagePreview := None;
        fileSelected := false;
      }
    }

    /** `handleFileSelect`: the file is kept and its data URL previewed. */
    method SelectFile(dataUrl: string)
      modifies this
      ensures fileSelected && imagePreview == Some(dataUrl)
      ensures input == old(input) && loading == old(loading) && toasts == old(toasts)
      ensures writes == old(writes) && qrRequests == old(qrRequests) && closes == old(closes)
    {
      fileSelected := true;
      imagePreview := Some(dataUrl);
    }

    /** `handleUrlInput`: a typed URL replaces any selected file. */
    method EnterUrl(url: string)
      modifies this
      ensures !fileSelected && imagePreview == Some(url)
      ensures input == old(input) && loading == old(loading) && toasts == old(toasts)
      ensures writes == old(writes) && qrRequests == old(qrRequests) && closes == old(closes)
    {
      fileSelected := false;
      imagePreview := Some(url);
    }

    /** `handleClearPreview`. */
    method ClearPreview()
      modifies this
      ensures !fileSelected && imagePreview.None?
      ensures input == old(input) && loading == old(loading) && toasts == old(toasts)
      ensures writes == old(writes) && qrRequests == old(qrRequests) && closes == old(closes)
    {
      fileSelected := false;
      imagePreview := None;
    }

    /**
     * The save itself, once the fields have parsed and a user is signed in:
     * the card is updated by its id, or inserted and the returned id taken;
     * a failed upload or write shows an error toast and writes nothing
     * more. A saved card that is published with a link asks for a QR code
     * and, when one comes back, stores it; a failure to store it does not
     * fail the save. A save resets the form and closes the dialog. Loading
     * always ends off.
     */
    method Save(values: AdCardInput, userId: string, editing: Option<AdCard>, upload: UploadResult,
                nowIso: string, writeError: Option<string>, insertedId: string,
                qrCodeUrl: Option<string>, qrUpdateFails: bool)
      modifies this
      ensures imagePreview == old(imagePreview) && fileSelected == old(fileSelected) && !loading
      ensures var image := ChooseImage(editing, old(fileSelected), upload, old(imagePreview));
        && writes == old(writes)
             + SavedWrites(values, userId, editing, image, nowIso, writeError, insertedId, qrCodeUrl, qrUpdateFails)
        && (image.Err? || writeError.Some? ==>
              input == old(input) && qrRequests == old(qrRequests) && closes == old(closes)
              && toasts == old(toasts) + [Toast("Error", ErrorText(if image.Err? then image.error else writeError.value), true)])
        && (image.Ok? && writeError.None? ==>
              var cardId := if editing.Some? then editing.value.id else insertedId;
              && qrRequests == old(qrRequests) + (if WantsQrCode(values, cardId) then [(cardId, values.customUrl)] else [])
              && input == DefaultInput && closes == old(closes) + 1
              && toasts == old(toasts) + [Toast("Success",
                   if editing.Some? then "Ad card updated successfully" else "Ad card created successfully", false)])
    {
      loading := true;
      var image := ChooseImage(editing, fileSelected, upload, imagePreview);
      if image.Err? {
        toasts := toasts + [Toast("Error", ErrorText(image.error), true)];
      } else if writeError.Some? {
        toasts := toasts + [Toast("Error", ErrorText(writeError.value), true)];
      } else {
        var cardId := if editing.Some? then editing.value.id else insertedId;
        writes := writes + SavedWrites(values, userId, editing, image, nowIso, writeError, insertedId, qrCodeUrl, qrUpdateFails);
        qrRequests := qrRequests + (if WantsQrCode(values, cardId) then [(cardId, values.customUrl)] else []);
        toasts := toasts + [Toast("Success",
                    if editing.Some? then "Ad card updated successfully" else "Ad card created successfully", false)];
        input := DefaultInput;
        closes := closes + 1;
      }
      loading := false;
    }

    /**
     * The form's submit: fields that do not parse, or no signed-in user,
     * change nothing; otherwise the parsed values are saved with the image
     * `ChooseImage` picks, with the toasts, QR requests, reset and close
     * of a save.
     */
    method Submit(userId: Option<string>, editing: Option<AdCard>, isUrl: string -> bool, upload: UploadResult,
                  nowIso: string, writeError: Option<string>, insertedId: string,
                  qrCodeUrl: Option<string>, qrUpdateFails: bool)
      modifies this
      ensures imagePreview == old(imagePreview) && fileSelected == old(fileSelected)
      ensures ParseAdCard(old(input), isUrl).None? || userId.None? ==>
        input == old(input) && loading == old(loading) && toasts == old(toasts)
        && writes == old(writes) && qrRequests == old(qrRequests) && closes == old(closes)
      ensures ParseAdCard(old(input), isUrl).Some? && userId.Some? ==>
        var values := ParseAdCard(old(input), isUrl).value;
        var image := ChooseImage(editing, old(fileSelected), upload, old(imagePreview));
        && !loading
        && |old(writes)| <= |writes| <= |old(writes)| + 2 && writes[..|old(writes)|] == old(writes)
        && (|writes| > |old(writes)| <==> image.Ok? && writeError.None?)
        && (image.Ok? && writeError.None? ==>
              var saved := writes[|old(writes)|];
              && (saved.InsertCard? <==> editing.None?) && (saved.UpdateCard? <==> editing.Some?)
              && saved.payload == Payload(values, userId.value, image.value, nowIso))
        && (image.Err? || writeError.Some? ==>
              input == old(input) && qrRequests == old(qrRequests) && closes == old(closes)
              && toasts == old(toasts) + [Toast("Error", ErrorText(if image.Err? then image.error else writeError.value), true)])
        && (image.Ok? && writeError.None? ==>
              var cardId := if editing.Some? then editing.value.id else insertedId;
              && qrRequests == old(qrRequests) + (if WantsQrCode(values, cardId) then [(cardId, values.customUrl)] else [])
              && (|writes| == |old(writes)| + 2 <==> WantsQrCode(values, cardId) && Filled(qrCodeUrl) && !qrUpdateFails)
              && (|writes| == |old(writes)| + 2 ==> writes[|old(writes)| + 1] == SetQrCode(cardId, qrCodeUrl.value))
              && input == DefaultInput && closes == old(closes) + 1
              && toasts == old(toasts) + [Toast("Success",
                   if editing.Some? then "Ad card updated successfully" else "Ad card created successfully", false)])
    {
      var parsed := ParseAdCard(input, isUrl);
      if parsed.None? || userId.None? {
        return;
      }
      ghost var before := writes;
      ghost var image := ChooseImage(editing, fileSelected, upload, imagePreview);
      Save(parsed.value, userId.value, editing, upload, nowIso, writeError, insertedId, qrCodeUrl, qrUpdateFails);
      ghost var added := SavedWrites(parsed.value, userId.value, editing, image, nowIso, writeError, insertedId, qrCodeUrl, qrUpdateFails);
      assert writes == before + added;
      assert writes[..|before|] == before;
      assert |writes| > |before| ==> writes[|before|] == added[0];
      assert |writes| == |before| + 2 ==> writes[|before| + 1] == added[1];
    }
  }

  /** Parsing is idempotent: values the schema produced parse to themselves. */
  lemma ParseIdempotent(input: AdCardInput, isUrl: string -> bool)
    requires ParseAdCard(input, isUrl).Some?
    ensures ParseAdCard(ParseAdCard(input, isUrl).value, isUrl) == ParseAdCard(input, isUrl)
  {
    var v := ParseAdCard(input, isUrl).value;
    TrimIdempotent(input.title);
    TrimIdempotent(input.description);
    TrimIdempotent(input.customUrl);
    if v.customUrl == "" {
      assert Trim(v.customUrl) == "";
    } else {
      assert v.customUrl == Trim(input.customUrl);
    }
    ParsesToItself(v, isUrl);
  }

  /** Values that are already trimmed and satisfy the schema parse to themselves. */
  lemma ParsesToItself(v: AdCardInput, isUrl: string -> bool)
    requires Trim(v.title) == v.title && Trim(v.description) == v.description && Trim(v.customUrl) == v.customUrl
    requires 3 <= |v.title| <= 100 && |v.description| <= 500
    requires (isUrl(v.customUrl) && |v.customUrl| <= 500) || v.customUrl == ""
    requires v.category in Categories && v.status in Statuses
    ensures ParseAdCard(v, isUrl) == Some(v)
  {
  }

  /** A title of only blanks is refused whatever else the form holds. */
  lemma BlankTitleRefused(input: AdCardInput, isUrl: string -> bool)
    requires forall i :: 0 <= i < |input.title| ==> IsBlank(input.title[i])
    ensures ParseAdCard(input, isUrl).None?
  {
    TrimEmptyIffBlank(input.title);
  }

  /** A draft card is saved without asking for a QR code, even with a link. */
  method DraftGetsNoQrCode(userId: string, link: string, qrCodeUrl: Option<string>)
    returns (requests: seq<(string, string)>, writes: seq<CardWrite>)
    requires link != ""
    ensures requests == [] && |writes| == 1 && writes[0].InsertCard? && !writes[0].payload.aiGenerated
  {
    var form := new AdCardFormState();
    var values := AdCardInput("Lawn care", "", link, None, "Services", "draft");
    form.Save(values, userId, None, Uploaded(""), "", None, "card-1", qrCodeUrl, false);
    requests := form.qrRequests;
    writes := form.writes;
  }

  /** A published card whose QR code cannot be stored is still saved and reported as saved. */
  method QrStoreFailureStillSaves(userId: string, link: string, qrCodeUrl: string)
    returns (requests: seq<(string, string)>, writes: seq<CardWrite>, toasts: seq<Toast>)
    requires link != "" && qrCodeUrl != ""
    ensures requests == [("card-1", link)]
    ensures |writes| == 1 && writes[0].InsertCard? && writes[0].payload.customUrl == Some(link)
    ensures toasts == [Toast("Success", "Ad card created successfully", false)]
  {
    var form := new AdCardFormState();
    var values := AdCardInput("Lawn care", "", link, None, "Services", "published");
    form.Save(values, userId, None, Uploaded(""), "", None, "card-1", Some(qrCodeUrl), true);
    requests := form.qrRequests;
    writes := form.writes;
    toasts := form.toasts;
  }
}
