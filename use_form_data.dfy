/** The form-state hook of `src/hooks/useFormData.ts`: the current record, a dirty flag, the
    time of the last save and one browser storage slot. React state setters become field
    assignments; the timers become methods the caller invokes when they fire. */
module UseFormData {

  import opened Wrappers
  import opened FormTypes

  const STORAGE_KEY := "cleartech-background-form-data"
  const AUTO_SAVE_INTERVAL := 30000

  /** What the storage slot holds: the JSON text of a record (represented by the record that
      `JSON.parse` gives back), or text that is not JSON. */
  datatype Stored = Json(record: FormRecord) | Unparsable

  // ---------------------------------------------------------------------------
  // Partial updates: `{ ...prev, ...updates }`
  // ---------------------------------------------------------------------------

  /** A `Partial<FormData>`: `None` is a key that is not given. For the optional fields a given
      key may carry `undefined`, which is `Some(None)`. */
  datatype Patch = Patch(
    client: Option<string>,
    formType: Option<string>,
    identification: Option<Identification>,
    backgroundChecks: Option<seq<string>>,
    status: Option<string>,
    memo: Option<Option<string>>,
    uploadedFile: Option<Option<FileInfo>>,
    fileChannelId: Option<Option<string>>)

  const NO_CHANGES := Patch(None, None, None, None, None, None, None, None)

  function ApplyPatch(d: FormRecord, p: Patch): (r: FormRecord)
    ensures p.client.Some? ==> r.client == p.client.value
    ensures p.client.None? ==> r.client == d.client
    ensures p.formType.Some? ==> r.formType == p.formType.value
    ensures p.formType.None? ==> r.formType == d.formType
    ensures p.identification.Some? ==> r.identification == p.identification.value
    ensures p.identification.None? ==> r.identification == d.identification
    ensures p.backgroundChecks.Some? ==> r.backgroundChecks == p.backgroundChecks.value
    ensures p.backgroundChecks.None? ==> r.backgroundChecks == d.backgroundChecks
    ensures p.status.Some? ==> r.status == p.status.value
    ensures p.status.None? ==> r.status == d.status
    ensures p.memo.Some? ==> r.memo == p.memo.value
    ensures p.memo.None? ==> r.memo == d.memo
    ensures p.uploadedFile.Some? ==> r.uploadedFile == p.uploadedFile.value
    ensures p.uploadedFile.None? ==> r.uploadedFile == d.uploadedFile
    ensures p.fileChannelId.Some? ==> r.fileChannelId == p.fileChannelId.value
    ensures p.fileChannelId.None? ==> r.fileChannelId == d.fileChannelId
  {
    FormRecord(
      p.client.GetOr(d.client),
      p.formType.GetOr(d.formType),
      p.identification.GetOr(d.identification),
      p.backgroundChecks.GetOr(d.backgroundChecks),
      p.status.GetOr(d.status),
      p.memo.GetOr(d.memo),
      p.uploadedFile.GetOr(d.uploadedFile),
      p.fileChannelId.GetOr(d.fileChannelId))
  }

  function Pick<T>(first: Option<T>, second: Option<T>): Option<T> {
    if second.Some? then second else first
  }

  /** `{ ...p, ...q }` for two patches: the keys of `q` win. */
  function MergePatches(p: Patch, q: Patch): Patch {
    Patch(
      Pick(p.client, q.client),
      Pick(p.formType, q.formType),
      Pick(p.identification, q.identification),
      Pick(p.backgroundChecks, q.backgroundChecks),
      Pick(p.status, q.status),
      Pick(p.memo, q.memo),
      Pick(p.uploadedFile, q.uploadedFile),
      Pick(p.fileChannelId, q.fileChannelId))
  }

  /** The empty patch changes nothing, a patch applied twice acts once, and two patches in a
      row act as their merge. */
  lemma PatchLaws(d: FormRecord, p: Patch, q: Patch)
    ensures ApplyPatch(d, NO_CHANGES) == d
    ensures ApplyPatch(ApplyPatch(d, p), p) == ApplyPatch(d, p)
    ensures ApplyPatch(ApplyPatch(d, p), q) == ApplyPatch(d, MergePatches(p, q))
  {
  }

  /** A `Partial<Identification>`. */
  datatype IdentificationPatch = IdentificationPatch(
    firstName: Option<string>,
    lastName: Option<string>,
    streetAddress: Option<string>,
    streetAddress2: Option<Option<string>>,
    city: Option<string>,
    state: Option<string>,
    postalCode: Option<string>,
    birthdate: Option<string>)

  function MergeIdentification(i: Identification, u: IdentificationPatch): (r: Identification)
    ensures u.firstName.Some? ==> r.firstName == u.firstName.value
    ensures u.firstName.None? ==> r.firstName == i.firstName
    ensures u.lastName.Some? ==> r.lastName == u.lastName.value
    ensures u.lastName.None? ==> r.lastName == i.lastName
    ensures u.streetAddress.Some? ==> r.streetAddress == u.streetAddress.value
    ensures u.streetAddress.None? ==> r.streetAddress == i.streetAddress
    ensures u.streetAddress2.Some? ==> r.streetAddress2 == u.streetAddress2.value
    ensures u.streetAddress2.None? ==> r.streetAddress2 == i.streetAddress2
    ensures u.city.Some? ==> r.city == u.city.value
    ensures u.city.None? ==> r.city == i.city
    ensures u.state.Some? ==> r.state == u.state.value
    ensures u.state.None? ==> r.state == i.state
    ensures u.postalCode.Some? ==> r.postalCode == u.postalCode.value
    ensures u.postalCode.None? ==> r.postalCode == i.postalCode
    ensures u.birthdate.Some? ==> r.birthdate == u.birthdate.value
    ensures u.birthdate.None? ==> r.birthdate == i.birthdate
  {
    Identification(
      u.firstName.GetOr(i.firstName),
      u.lastName.GetOr(i.lastName),
      u.streetAddress.GetOr(i.streetAddress),
      u.streetAddress2.GetOr(i.streetAddress2),
      u.city.GetOr(i.city),
      u.state.GetOr(i.state),
      u.postalCode.GetOr(i.postalCode),
      u.birthdate.GetOr(i.birthdate))
  }

  /** A patch that gives all eight identification fields replaces the identification
      outright: what was there before does not matter. */
  lemma FullIdentificationPatch(i: Identification, j: Identification, u: IdentificationPatch)
    requires u.firstName.Some? && u.lastName.Some? && u.streetAddress.Some? && u.streetAddress2.Some?
    requires u.city.Some? && u.state.Some? && u.postalCode.Some? && u.birthdate.Some?
    ensures MergeIdentification(i, u) == MergeIdentification(j, u)
  {
  }

  // ---------------------------------------------------------------------------
  // Loading and saving
  // ---------------------------------------------------------------------------

  /** The record the load effect leaves, starting from `current`: the stored record when the
      slot holds JSON that passes the schema, `current` otherwise. */
  function Loaded(slot: Option<Stored>, current: FormRecord): (r: FormRecord)
    ensures r != current ==> slot.Some? && slot.value.Json? && FormDataValid(slot.value.record)
    ensures slot.Some? && slot.value.Json? && FormDataValid(slot.value.record) ==>
      r == Strip(slot.value.record)
  {
    match slot
    case Some(Json(record)) =>
      var validated := SafeParse(record);
      if validated.Parsed? then validated.data else current
    case _ => current
  }

  /** What a save writes into the slot. */
  function Serialized(d: FormRecord): Stored {
    Json(JsonRoundTrip(d))
  }

  /** Save, then load on a fresh mount: a valid record without an uploaded file comes back
      (less the `fileChannelId` the schema strips); a record with an uploaded file does not
      survive, and the default stays. */
  lemma {:induction false} SaveThenLoad(d: FormRecord)
    ensures FormDataValid(d) && d.uploadedFile.None? ==> Loaded(Some(Serialized(d)), DEFAULT_FORM_DATA) == Strip(d)
    ensures d.uploadedFile.Some? ==> Loaded(Some(Serialized(d)), DEFAULT_FORM_DATA) == DEFAULT_FORM_DATA
  {
    JsonThenParse(d);
  }

  class FormDataHook {
    var formData: FormRecord
    var isLoading: bool
    /** The time of the last save, in milliseconds; `None` is `null`. */
    var lastSaved: Option<int>
    var hasUnsavedChanges: bool
    /** `localStorage[STORAGE_KEY]` */
    var slot: Option<Stored>

    /** The first render: default record, loading, nothing saved yet. */
    constructor Mount(storage: Option<Stored>)
      ensures formData == DEFAULT_FORM_DATA && isLoading
      ensures lastSaved == None && !hasUnsavedChanges && slot == storage
    {
      formData := DEFAULT_FORM_DATA;
      isLoading := true;
      lastSaved := None;
      hasUnsavedChanges := false;
      slot := storage;
    }

    /** The load effect that runs on mount. */
    method Load()
      modifies this
      ensures formData == Loaded(slot, old(formData))
      ensures !isLoading
      ensures slot == old(slot) && lastSaved == old(lastSaved) && hasUnsavedChanges == old(hasUnsavedChanges)
    {
      if slot.Some? && slot.value.Json? {
        var validated := SafeParse(slot.value.record);
        if validated.Parsed? {
          formData := validated.data;
        }
      }
      isLoading := false;
    }

    /** `saveToStorage(data)`; `quotaExceeded` is a `setItem` that throws, after which
        nothing changes. */
    method SaveToStorage(data: FormRecord, now: int, quotaExceeded: bool)
      modifies this
      ensures quotaExceeded ==>
        slot == old(slot) && lastSaved == old(lastSaved) && hasUnsavedChanges == old(hasUnsavedChanges)
      ensures !quotaExceeded ==>
        slot == Some(Serialized(data)) && lastSaved == Some(now) && !hasUnsavedChanges
      ensures formData == old(formData) && isLoading == old(isLoading)
    {
      if !quotaExceeded {
        slot := Some(Serialized(data));
        lastSaved := Some(now);
        hasUnsavedChanges := false;
      }
    }

    /** `updateFormData(updates)` */
    method UpdateFormData(updates: Patch)
      modifies this
      ensures formData == ApplyPatch(old(formData), updates)
      ensures hasUnsavedChanges
      ensures slot == old(slot) && lastSaved == old(lastSaved) && isLoading == old(isLoading)
    {
      formData := ApplyPatch(formData, updates);
      hasUnsavedChanges := true;
    }

    /** `updateIdentification(updates)`: only the identification changes, and within it only
        the fields given. */
    method UpdateIdentification(updates: IdentificationPatch)
      modifies this
      ensures formData == old(formData).(identification := MergeIdentification(old(formData).identification, updates))
      ensures hasUnsavedChanges
      ensures slot == old(slot) && lastSaved == old(lastSaved) && isLoading == old(isLoading)
    {
      var merged := MergeIdentification(formData.identification, updates);
      UpdateFormData(NO_CHANGES.(identification := Some(merged)));
    }

    /** `resetFormData()` */
    method ResetFormData()
      modifies this
      ensures formData == DEFAULT_FORM_DATA && slot == None
      ensures !hasUnsavedChanges && lastSaved == None
      ensures isLoading == old(isLoading)
    {
      formData := DEFAULT_FORM_DATA;
      slot := None;
      hasUnsavedChanges := false;
      lastSaved := None;
    }

    /** `saveFormData()`: the manual save. */
    method SaveFormData(now: int, quotaExceeded: bool)
      modifies this
      ensures !quotaExceeded ==>
        slot == Some(Serialized(formData)) && lastSaved == Some(now) && !hasUnsavedChanges
      ensures quotaExceeded ==>
        slot == old(slot) && lastSaved == old(lastSaved) && hasUnsavedChanges == old(hasUnsavedChanges)
      ensures formData == old(formData) && isLoading == old(isLoading)
    {
      SaveToStorage(formData, now, quotaExceeded);
    }

    /** The auto-save timer firing (30 s after the last change): a save when there are unsaved
        changes, nothing otherwise (no timer is armed then). */
    method AutoSaveFires(now: int, quotaExceeded: bool)
      modifies this
      ensures old(hasUnsavedChanges) && !quotaExceeded ==>
        slot == Some(Serialized(formData)) && lastSaved == Some(now) && !hasUnsavedChanges
      ensures !old(hasUnsavedChanges) || quotaExceeded ==>
        slot == old(slot) && lastSaved == old(lastSaved) && hasUnsavedChanges == old(hasUnsavedChanges)
      ensures formData == old(formData) && isLoading == old(isLoading)
    {
      if hasUnsavedChanges {
        SaveToStorage(formData, now, quotaExceeded);
      }
    }
  }
}
