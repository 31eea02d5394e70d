// The gallery editor dialog (src/components/GalleryForm.tsx): a gallery's
// name, description, visibility and passcode are validated, a thumbnail is
// taken from an uploaded file or a typed URL, and the gallery is updated or
// inserted in `gallery_containers`.
//
// The signed-in user, the upload's outcome, the clock's ISO text and the
// database's error are inputs; the rows written are recorded in `writes`
// and the toasts shown in `toasts`.

module GalleryForm {
  import opened Common
  import opened FileUpload

  datatype GalleryValues = GalleryValues(
    name: string, description: Option<string>, isPublic: bool, requiresPasscode: bool, passcode: Option<string>)

  /** A stored gallery; `metadata` is empty when the column is null. */
  datatype Gallery = Gallery(
    id: string, name: string, description: Option<string>, isPublic: bool, accessCode: Option<string>,
    cardIds: Option<seq<string>>, displayOrder: Option<seq<string>>, metadata: map<string, JsValue>)

  /** The `access_code` column in a payload: left out, set to null, or set to a code. */
  datatype AccessCodeField = KeepAccessCode | ClearAccessCode | SetAccessCode(code: string)

  datatype GalleryPayload = GalleryPayload(
    name: string, description: Option<string>, isPublic: bool, userId: string,
    cardIds: seq<string>, displayOrder: seq<string>, metadata: map<string, JsValue>,
    updatedAt: string, accessCode: AccessCodeField)

  datatype GalleryWrite = UpdateGallery(id: string, payload: GalleryPayload) | InsertGallery(payload: GalleryPayload)

  datatype Toast = Toast(title: string, description: string, destructive: bool)

  const ThumbnailKey := "thumbnail_url"
  const PasscodeRequiredMessage := "Passcode is required when passcode protection is enabled"
  const SaveFailedMessage := "Failed to save gallery"
  const DefaultValues := GalleryValues("", Some(""), false, false, Some(""))

  /** `gallerySchema`: a name of 3 to 100 characters and a description of at most 500. */
  predicate ValidGallery(values: GalleryValues) {
    3 <= |values.name| <= 100 && (values.description.None? || |values.description.value| <= 500)
  }

  predicate Filled(s: Option<string>) {
    s.Some? && s.value != ""
  }

  /** `editingGallery?.metadata?.thumbnail_url`. */
  function StoredThumbnail(editing: Option<Gallery>): JsValue {
    if editing.Some? && ThumbnailKey in editing.value.metadata then editing.value.metadata[ThumbnailKey] else Undefined
  }

  /** The form's values when the dialog opens on a stored gallery; the passcode box starts empty. */
  function InitialValues(gallery: Gallery): (r: GalleryValues)
    ensures r.requiresPasscode <==> Filled(gallery.accessCode)
    ensures r.passcode == Some("")
    ensures r.name == gallery.name && r.isPublic == gallery.isPublic
  {
    GalleryValues(gallery.name, Some(if Filled(gallery.description) then gallery.description.value else ""),
                  gallery.isPublic, Filled(gallery.accessCode), Some(""))
  }

  /**
   * The thumbnail to save: with a file selected, the uploaded URL when it is
   * not empty and otherwise the stored one; without a file, a preview that
   * is not empty and differs from the stored value; else the stored one.
   * An upload that throws fails the whole save.
   */
  function ChooseThumbnail(editing: Option<Gallery>, fileSelected: bool, upload: UploadResult, preview: Option<string>)
    : (r: Result<JsValue, string>)
    ensures r.Err? <==> fileSelected && upload.UploadThrew?
    ensures r.Err? ==> r.error == upload.message
    ensures r.Ok? ==>
      var stored := StoredThumbnail(editing);
      || (fileSelected && r.value == Str(upload.publicUrl) && upload.publicUrl != "")
      || (!fileSelected && Filled(preview) && r.value == Str(preview.value) && r.value != stored)
      || (r.value == stored && Truthy(stored))
      || (r.value == Null && !Truthy(stored))
    ensures r.Ok? && !fileSelected && Filled(preview) ==> r.value == Str(preview.value)
    ensures fileSelected && upload.Uploaded? && upload.publicUrl != "" ==> r == Ok(Str(upload.publicUrl))
    ensures fileSelected && upload.Uploaded? && upload.publicUrl == "" ==>
      r == Ok(if Truthy(StoredThumbnail(editing)) then StoredThumbnail(editing) else Null)
    ensures !fileSelected && !Filled(preview) ==>
      r == Ok(if Truthy(StoredThumbnail(editing)) then StoredThumbnail(editing) else Null)
  {
    var stored := StoredThumbnail(editing);
    var kept := if Truthy(stored) then stored else Null;
    if fileSelected then
      match upload
      case UploadThrew(message) => Err(message)
      case Uploaded(url) => Ok(if url != "" then Str(url) else kept)
    else if Filled(preview) && Str(preview.value) != stored then Ok(Str(preview.value))
    else Ok(kept)
  }

  /** Which way the payload treats `access_code`. */
  function AccessCodeFor(values: GalleryValues): (r: AccessCodeField)
    ensures r.SetAccessCode? <==> values.requiresPasscode && Filled(values.passcode)
    ensures r.SetAccessCode? ==> r.code == values.passcode.value
    ensures r == ClearAccessCode <==> !values.requiresPasscode
  {
    if Filled(values.passcode) && values.requiresPasscode then SetAccessCode(values.passcode.value)
    else if !values.requiresPasscode then ClearAccessCode
    else KeepAccessCode
  }

  /** The access code a row holds once a payload with this field is written over `previous`. */
  function ApplyAccessCode(previous: Option<string>, field: AccessCodeField): Option<string> {
    match field
    case KeepAccessCode => previous
    case ClearAccessCode => None
    case SetAccessCode(code) => Some(code)
  }

  /** The payload written for the submitted values. */
  function Payload(values: GalleryValues, userId: string, editing: Option<Gallery>, thumbnail: JsValue, nowIso: string)
    : (p: GalleryPayload)
    ensures ThumbnailKey in p.metadata && p.metadata[ThumbnailKey] == thumbnail
    ensures forall k :: k in p.metadata && k != ThumbnailKey ==>
              editing.Some? && k in editing.value.metadata && p.metadata[k] == editing.value.metadata[k]
    ensures editing.Some? ==> forall k :: k in editing.value.metadata ==> k in p.metadata
    ensures editing.Some? && editing.value.cardIds.Some? ==> p.cardIds == editing.value.cardIds.value
    ensures editing.None? ==> p.cardIds == [] && p.displayOrder == []
    ensures editing.Some? && editing.value.cardIds.None? ==> p.cardIds == []
    ensures editing.Some? && editing.value.displayOrder.Some? ==> p.displayOrder == editing.value.displayOrder.value
    ensures editing.Some? && editing.value.displayOrder.None? ==> p.displayOrder == []
    ensures p.userId == userId && p.name == values.name && p.accessCode == AccessCodeFor(values)
    ensures p.description == values.description && p.isPublic == values.isPublic && p.updatedAt == nowIso
  {
    var previous: map<string, JsValue> := if editing.Some? then editing.value.metadata else map[];
    GalleryPayload(
      values.name, values.description, values.isPublic, userId,
      if editing.Some? && editing.value.cardIds.Some? then editing.value.cardIds.value else [],
      if editing.Some? && editing.value.displayOrder.Some? then editing.value.displayOrder.value else [],
      previous[ThumbnailKey := thumbnail], nowIso, AccessCodeFor(values))
  }

  /** `error.message || fallback`. */
  function ErrorText(message: string): (r: string)
    ensures r != ""
  {
    if message != "" then message else SaveFailedMessage
  }

  class GalleryFormState {
    var values: GalleryValues
    var thumbnailPreview: Option<string>
    var fileSelected: bool
    var loading: bool
    var toasts: seq<Toast>
    var writes: seq<GalleryWrite>
    /** How many times the dialog asked to be closed after a save. */
    var closes: nat

    constructor ()
      ensures values == DefaultValues && thumbnailPreview.None? && !fileSelected && !loading
      ensures toasts == [] && writes == [] && closes == 0
    {
      values := DefaultValues;
      thumbnailPreview := None;
      fileSelected := false;
      loading := false;
      toasts := [];
      writes := [];
      closes := 0;
    }

    /** The effect on `editingGallery`: a stored gallery fills the form; none clears the thumbnail only. */
    method Open(editing: Option<Gallery>)
      modifies this
      ensures editing.Some? ==> values == InitialValues(editing.value)
      ensures editing.Some? ==>
        thumbnailPreview == (if StoredThumbnail(editing).Str? && Truthy(StoredThumbnail(editing))
                             then Some(StoredThumbnail(editing).s) else None)
      ensures editing.Some? ==> fileSelected == old(fileSelected)
      ensures editing.None? ==> values == old(values) && thumbnailPreview.None? && !fileSelected
      ensures loading == old(loading) && toasts == old(toasts) && writes == old(writes) && closes == old(closes)
    {
      if editing.Some? {
        values := InitialValues(editing.value);
        var stored := StoredThumbnail(editing);
        thumbnailPreview := if stored.Str? && Truthy(stored) then Some(stored.s) else None;
      } else {
        thumbnailPreview := None;
        fileSelected := false;
      }
    }

    /** `handleFileSelect`: the file is kept and its data URL previewed. */
    method SelectFile(dataUrl: string)
      modifies this
      ensures fileSelected && thumbnailPreview == Some(dataUrl)
      ensures values == old(values) && loading == old(loading) && toasts == old(toasts)
      ensures writes == old(writes) && closes == old(closes)
    {
      fileSelected := true;
      thumbnailPreview := Some(dataUrl);
    }

    /** `handleUrlInput`: a typed URL replaces any selected file. */
    method EnterUrl(url: string)
      modifies this
      ensures !fileSelected && thumbnailPreview == Some(url)
      ensures values == old(values) && loading == old(loading) && toasts == old(toasts)
      ensures writes == old(writes) && closes == old(closes)
    {
      fileSelected := false;
      thumbnailPreview := Some(url);
    }

    /** `handleClearPreview`. */
    method ClearPreview()
      modifies this
      ensures !fileSelected && thumbnailPreview.None?
      ensures values == old(values) && loading == old(loading) && toasts == old(toasts)
      ensures writes == old(writes) && closes == old(closes)
    {
      fileSelected := false;
      thumbnailPreview := None;
    }

    /**
     * The form's submit: invalid values, or no signed-in user, do nothing.
     * A new gallery that asks for a passcode without one is refused with a
     * toast before anything is uploaded or written. Otherwise exactly one
     * row is written unless the upload or the write fails, in which case an
     * error toast is shown; a saved form is reset and the dialog closes.
     * Loading always ends off.
     */
    method Submit(userId: Option<string>, editing: Option<Gallery>, upload: UploadResult,
                  nowIso: string, writeError: Option<string>)
      modifies this
      ensures thumbnailPreview == old(thumbnailPreview) && fileSelected == old(fileSelected)
      ensures !ValidGallery(old(values)) || userId.None? ==>
        values == old(values) && loading == old(loading) && toasts == old(toasts)
        && writes == old(writes) && closes == old(closes)
      ensures ValidGallery(old(values)) && userId.Some? && old(values).requiresPasscode && !Filled(old(values).passcode)
              && editing.None? ==>
        values == old(values) && loading == old(loading) && writes == old(writes) && closes == old(closes)
        && toasts == old(toasts) + [Toast("Error", PasscodeRequiredMessage, true)]
      ensures ValidGallery(old(values)) && userId.Some?
              && !(old(values).requiresPasscode && !Filled(old(values).passcode) && editing.None?) ==>
        var thumbnail := ChooseThumbnail(editing, old(fileSelected), upload, old(thumbnailPreview));
        && !loading
        && (thumbnail.Err? ==>
              values == old(values) && writes == old(writes) && closes == old(closes)
              && toasts == old(toasts) + [Toast("Error", ErrorText(thumbnail.error), true)])
        && (thumbnail.Ok? ==>
              var payload := Payload(old(values), userId.value, editing, thumbnail.value, nowIso);
              var write := if editing.Some? then UpdateGallery(editing.value.id, payload) else InsertGallery(payload);
              if writeError.Some? then
                values == old(values) && writes == old(writes) && closes == old(closes)
                && toasts == old(toasts) + [Toast("Error", ErrorText(writeError.value), true)]
              else
                values == DefaultValues && writes == old(writes) + [write] && closes == old(closes) + 1
                && toasts == old(toasts) + [Toast("Success",
                     if editing.Some? then "Gallery updated successfully" else "Gallery created successfully", false)])
    {
      if !ValidGallery(values) || userId.None? {
        return;
      }
      if values.requiresPasscode && !Filled(values.passcode) && editing.None? {
        toasts := toasts + [Toast("Error", PasscodeRequiredMessage, true)];
        return;
      }
      loading := true;
      var thumbnail := ChooseThumbnail(editing, fileSelected, upload, thumbnailPreview);
      if thumbnail.Err? {
        toasts := toasts + [Toast("Error", ErrorText(thumbnail.error), true)];
      } else {
        var payload := Payload(values, userId.value, editing, thumbnail.value, nowIso);
        var write := if editing.Some? then UpdateGallery(editing.value.id, payload) else InsertGallery(payload);
        if writeError.Some? {
          toasts := toasts + [Toast("Error", ErrorText(writeError.value), true)];
        } else {
          writes := writes + [write];
          toasts := toasts + [Toast("Success",
                      if editing.Some? then "Gallery updated successfully" else "Gallery created successfully", false)];
          values := DefaultValues;
          closes := closes + 1;
        }
      }
      loading := false;
    }
  }

  /**
   * After a save, a gallery is protected exactly when the switch is on and
   * either a code was typed or the stored gallery already had one: switching
   * protection on for a stored gallery without a code and without typing one
   * saves it unprotected.
   */
  lemma ProtectionAfterSave(previous: Option<string>, values: GalleryValues)
    ensures Filled(ApplyAccessCode(previous, AccessCodeFor(values))) <==>
      values.requiresPasscode && (Filled(values.passcode) || Filled(previous))
  {
  }

  /** A new gallery that passes the passcode check is protected exactly when its switch is on. */
  lemma NewGalleryProtectedIffSwitch(values: GalleryValues)
    requires !(values.requiresPasscode && !Filled(values.passcode))
    ensures Filled(ApplyAccessCode(None, AccessCodeFor(values))) <==> values.requiresPasscode
  {
    ProtectionAfterSave(None, values);
  }

  /** Reopening a stored gallery and saving it untouched keeps its access code. */
  lemma ReopenKeepsAccessCode(gallery: Gallery)
    ensures ApplyAccessCode(gallery.accessCode, AccessCodeFor(InitialValues(gallery))) ==
      (if Filled(gallery.accessCode) then gallery.accessCode else None)
  {
  }

  /** A refused new gallery reaches neither storage nor the table, whatever the upload would have given. */
  method PasscodeCheckComesFirst(userId: string, name: string, upload: UploadResult, writeError: Option<string>)
    returns (writes: seq<GalleryWrite>)
    requires 3 <= |name| <= 100
    ensures writes == []
  {
    var form := new GalleryFormState();
    form.values := GalleryValues(name, None, true, true, Some(""));
    form.SelectFile("data:image/png;base64,");
    form.Submit(Some(userId), None, upload, "", writeError);
    writes := form.writes;
  }
}
