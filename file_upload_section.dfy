/** The report-upload panel of `src/components/admin/FileUploadSection.tsx`: the guards a
    dropped or selected file must pass, the simulated progress bar, and the record update on
    success. The remote `createFile` call is an opaque success or failure; the 200 ms progress
    interval is the number of times it fired before the call settled. */
module FileUploadSection {

  import opened Wrappers
  import opened Text
  import opened FormTypes
  import opened UseFormData

  /** 10 MiB; a file of exactly this size is accepted. */
  const MAX_UPLOAD_SIZE := 10 * 1024 * 1024

  const PDF_ONLY_ERROR := "Only PDF files are allowed for background reports"
  const SIZE_ERROR := "File size must be less than 10MB"
  const UPLOAD_FAILED_ERROR := "Failed to upload file. Please try again."

  /** Where the simulated progress stops until the upload settles. */
  const PROGRESS_CEILING := 90

  /** A browser `File`: its name, size in bytes and MIME type. */
  datatype File = File(name: string, size: nat, mimeType: string)

  /** The error the guards raise for `f`, or `None` when it may be uploaded. The type is
      checked before the size. */
  function GuardError(f: File): (e: Option<string>)
    ensures e.None? <==> f.mimeType == "application/pdf" && f.size <= MAX_UPLOAD_SIZE
    ensures f.mimeType != "application/pdf" ==> e == Some(PDF_ONLY_ERROR)
    ensures f.mimeType == "application/pdf" && f.size > MAX_UPLOAD_SIZE ==> e == Some(SIZE_ERROR)
  {
    if f.mimeType != "application/pdf" then Some(PDF_ONLY_ERROR)
    else if f.size > MAX_UPLOAD_SIZE then Some(SIZE_ERROR)
    else None
  }

  /** One firing of the progress interval. */
  function NextProgress(p: int): (q: int)
    ensures 0 <= p <= PROGRESS_CEILING && p % 10 == 0 ==> p <= q <= PROGRESS_CEILING && q % 10 == 0
    ensures p < PROGRESS_CEILING ==> q == p + 10
    ensures p >= PROGRESS_CEILING ==> q == PROGRESS_CEILING
  {
    if p >= PROGRESS_CEILING then PROGRESS_CEILING else p + 10
  }

  /** The progress after `k` firings, starting from 0. */
  function ProgressAfter(k: nat): int {
    if k == 0 then 0 else NextProgress(ProgressAfter(k - 1))
  }

  /** The bar climbs by ten per firing and then holds at 90: it is always a multiple of ten
      between 0 and 90. */
  lemma {:induction false} ProgressClosedForm(k: nat)
    ensures ProgressAfter(k) == if 10 * k >= PROGRESS_CEILING then PROGRESS_CEILING else 10 * k
    ensures 0 <= ProgressAfter(k) <= PROGRESS_CEILING && ProgressAfter(k) % 10 == 0
  {
    if k > 0 {
      ProgressClosedForm(k - 1);
    }
  }

  /** The folder the report goes into: `ClearTech Reports - ` and the form type's title. */
  function FolderName(t: FormType): (name: string)
    ensures |name| == 20 + |Title(t)|
    ensures name[..20] == "ClearTech Reports - " && name[20..] == Title(t)
  {
    "ClearTech Reports - " + Title(t)
  }

  /** Of several dropped or selected files only the first is uploaded. */
  function FirstFile(files: seq<File>): (f: Option<File>)
    ensures f.None? <==> files == []
    ensures f.Some? ==> f.value == files[0]
  {
    if |files| > 0 then Some(files[0]) else None
  }

  /** The file record a successful upload stores: the file's own name, size and type, the id
      the clock gives, and a local object url. */
  function UploadedInfo(f: File, now: nat, objectUrl: string): (info: FileInfo)
    ensures info.name == f.name && info.size == f.size && info.mimeType == f.mimeType
    ensures info.url == Some(objectUrl) && FileInfoValid(info)
    ensures DigitsValue(info.id) == now
  {
    DecimalRoundTrip(now);
    FileInfo(Decimal(now), f.name, f.size, f.mimeType, Some(objectUrl), DateObject(now))
  }

  /** The panel's state. `leaked` counts the progress intervals of failed uploads that are
      still running: the failure path never clears its interval, which goes on firing until
      it sees the bar at 90 or more. */
  class UploadSection {
    var isDragOver: bool
    var uploadProgress: int
    var isUploading: bool
    var uploadError: Option<string>
    var leaked: nat

    constructor ()
      ensures !isDragOver && uploadProgress == 0 && !isUploading && uploadError == None && leaked == 0
    {
      isDragOver := false;
      uploadProgress := 0;
      isUploading := false;
      uploadError := None;
      leaked := 0;
    }

    /** `handleDragOver` / `handleDragLeave` */
    method SetDragOver(over: bool)
      modifies this
      ensures isDragOver == over
      ensures uploadProgress == old(uploadProgress) && isUploading == old(isUploading) && uploadError == old(uploadError)
      ensures leaked == old(leaked)
    {
      isDragOver := over;
    }

    /** `handleFileUpload(file)` against the record hook. `ticks` is how often the upload's
        own progress interval fired before `createFile` settled, `created` whether it
        succeeded, `now` the clock and `objectUrl` the url made for the file. `peak` is the
        progress shown just before the call settled. The interval clears itself on the
        firing that finds the bar at 90, the tenth; on success it is cleared as well, on
        failure it is not, and one still running then becomes a leaked interval. */
    method HandleFileUpload(file: File, hook: FormDataHook, ticks: nat, created: bool, now: nat, objectUrl: string)
      returns (peak: int)
      modifies this, hook
      ensures isDragOver == old(isDragOver)
      ensures GuardError(file).Some? ==>
        uploadError == GuardError(file) && peak == old(uploadProgress) &&
        uploadProgress == old(uploadProgress) && isUploading == old(isUploading) && leaked == old(leaked) &&
        hook.formData == old(hook.formData) && hook.hasUnsavedChanges == old(hook.hasUnsavedChanges)
      ensures GuardError(file).None? ==> peak == ProgressAfter(ticks) && 0 <= peak <= PROGRESS_CEILING
      ensures GuardError(file).None? && created ==>
        uploadProgress == 100 && isUploading && uploadError == None && leaked == old(leaked) &&
        hook.formData == ApplyPatch(old(hook.formData), NO_CHANGES.(uploadedFile := Some(Some(UploadedInfo(file, now, objectUrl))))) &&
        hook.hasUnsavedChanges
      ensures GuardError(file).None? && !created ==>
        uploadProgress == 0 && !isUploading && uploadError == Some(UPLOAD_FAILED_ERROR) &&
        leaked == old(leaked) + (if ticks < 10 then 1 else 0) &&
        hook.formData == old(hook.formData) && hook.hasUnsavedChanges == old(hook.hasUnsavedChanges)
      ensures hook.slot == old(hook.slot) && hook.lastSaved == old(hook.lastSaved) && hook.isLoading == old(hook.isLoading)
    {
      if file.mimeType != "application/pdf" {
        uploadError := Some(PDF_ONLY_ERROR);
        return uploadProgress;
      }
      if file.size > MAX_UPLOAD_SIZE {
        uploadError := Some(SIZE_ERROR);
        return uploadProgress;
      }
      isUploading := true;
      uploadError := None;
      uploadProgress := 0;
      var running := true;
      var k := 0;
      while k < ticks
        invariant 0 <= k <= ticks
        invariant uploadProgress == ProgressAfter(k)
        invariant running <==> k < 10
        invariant isUploading && uploadError == None && isDragOver == old(isDragOver) && leaked == old(leaked)
        invariant hook.formData == old(hook.formData) && hook.hasUnsavedChanges == old(hook.hasUnsavedChanges)
        invariant hook.slot == old(hook.slot) && hook.lastSaved == old(hook.lastSaved) && hook.isLoading == old(hook.isLoading)
      {
        ProgressClosedForm(k);
        ProgressClosedForm(k + 1);
        if running {
          if uploadProgress >= PROGRESS_CEILING {
            running := false;
            uploadProgress := PROGRESS_CEILING;
          } else {
            uploadProgress := uploadProgress + 10;
          }
        }
        k := k + 1;
      }
      ProgressClosedForm(k);
      peak := uploadProgress;
      if created {
        uploadProgress := 100;
        var info := UploadedInfo(file, now, objectUrl);
        hook.UpdateFormData(NO_CHANGES.(uploadedFile := Some(Some(info))));
      } else {
        uploadError := Some(UPLOAD_FAILED_ERROR);
        isUploading := false;
        uploadProgress := 0;
        if running {
          leaked := leaked + 1;
        }
      }
    }

    /** One firing of a leaked interval: it climbs the bar by ten, and on the firing that
        finds the bar at 90 or more it sets it to 90 and clears itself. */
    method LeakedIntervalFires()
      requires leaked > 0
      modifies this
      ensures old(uploadProgress) < PROGRESS_CEILING ==> uploadProgress == old(uploadProgress) + 10 && leaked == old(leaked)
      ensures old(uploadProgress) >= PROGRESS_CEILING ==> uploadProgress == PROGRESS_CEILING && leaked == old(leaked) - 1
      ensures isUploading == old(isUploading) && uploadError == old(uploadError) && isDragOver == old(isDragOver)
    {
      if uploadProgress >= PROGRESS_CEILING {
        leaked := leaked - 1;
        uploadProgress := PROGRESS_CEILING;
      } else {
        uploadProgress := uploadProgress + 10;
      }
    }

    /** The 500 ms timer after a successful upload. */
    method SettleAfterSuccess()
      modifies this
      ensures !isUploading && uploadProgress == 0
      ensures uploadError == old(uploadError) && isDragOver == old(isDragOver) && leaked == old(leaked)
    {
      isUploading := false;
      uploadProgress := 0;
    }

    /** `handleDrop`: the drag highlight goes off and the first dropped file, if any, is
        uploaded. */
    method HandleDrop(files: seq<File>, hook: FormDataHook, ticks: nat, created: bool, now: nat, objectUrl: string)
      modifies this, hook
      ensures !isDragOver
      ensures files == [] ==>
        uploadProgress == old(uploadProgress) && isUploading == old(isUploading) &&
        uploadError == old(uploadError) && leaked == old(leaked) &&
        hook.formData == old(hook.formData) && hook.hasUnsavedChanges == old(hook.hasUnsavedChanges)
      ensures files != [] && GuardError(files[0]).Some? ==>
        uploadError == GuardError(files[0]) &&
        uploadProgress == old(uploadProgress) && isUploading == old(isUploading) && leaked == old(leaked) &&
        hook.formData == old(hook.formData) && hook.hasUnsavedChanges == old(hook.hasUnsavedChanges)
      ensures files != [] && GuardError(files[0]).None? && created ==>
        uploadProgress == 100 && isUploading && uploadError == None && leaked == old(leaked) &&
        hook.formData == old(hook.formData).(uploadedFile := Some(UploadedInfo(files[0], now, objectUrl))) &&
        hook.hasUnsavedChanges
      ensures files != [] && GuardError(files[0]).None? && !created ==>
        uploadProgress == 0 && !isUploading && uploadError == Some(UPLOAD_FAILED_ERROR) &&
        leaked == old(leaked) + (if ticks < 10 then 1 else 0) &&
        hook.formData == old(hook.formData) && hook.hasUnsavedChanges == old(hook.hasUnsavedChanges)
      ensures hook.slot == old(hook.slot) && hook.lastSaved == old(hook.lastSaved) && hook.isLoading == old(hook.isLoading)
    {
      isDragOver := false;
      var first := FirstFile(files);
      if first.Some? {
        var _ := HandleFileUpload(first.value, hook, ticks, created, now, objectUrl);
      }
    }

    /** `handleFileSelect`: the first selected file, if any, is uploaded; the drag highlight
        is left as it is. */
    method HandleFileSelect(files: seq<File>, hook: FormDataHook, ticks: nat, created: bool, now: nat, objectUrl: string)
      modifies this, hook
      ensures isDragOver == old(isDragOver)
      ensures files == [] ==>
        uploadProgress == old(uploadProgress) && isUploading == old(isUploading) &&
        uploadError == old(uploadError) && leaked == old(leaked) &&
        hook.formData == old(hook.formData) && hook.hasUnsavedChanges == old(hook.hasUnsavedChanges)
      ensures files != [] && GuardError(files[0]).Some? ==>
        uploadError == GuardError(files[0]) &&
        uploadProgress == old(uploadProgress) && isUploading == old(isUploading) && leaked == old(leaked) &&
        hook.formData == old(hook.formData) && hook.hasUnsavedChanges == old(hook.hasUnsavedChanges)
      ensures files != [] && GuardError(files[0]).None? && created ==>
        uploadProgress == 100 && isUploading && uploadError == None && leaked == old(leaked) &&
        hook.formData == old(hook.formData).(uploadedFile := Some(UploadedInfo(files[0], now, objectUrl))) &&
        hook.hasUnsavedChanges
      ensures files != [] && GuardError(files[0]).None? && !created ==>
        uploadProgress == 0 && !isUploading && uploadError == Some(UPLOAD_FAILED_ERROR) &&
        leaked == old(leaked) + (if ticks < 10 then 1 else 0) &&
        hook.formData == old(hook.formData) && hook.hasUnsavedChanges == old(hook.hasUnsavedChanges)
      ensures hook.slot == old(hook.slot) && hook.lastSaved == old(hook.lastSaved) && hook.isLoading == old(hook.isLoading)
    {
      var first := FirstFile(files);
      if first.Some? {
        var _ := HandleFileUpload(first.value, hook, ticks, created, now, objectUrl);
      }
    }

    /** `handleRemoveFile`: the record loses its file and the error is cleared. */
    method HandleRemoveFile(hook: FormDataHook)
      modifies this, hook
      ensures hook.formData == old(hook.formData).(uploadedFile := None)
      ensures hook.hasUnsavedChanges && uploadError == None
      ensures uploadProgress == old(uploadProgress) && isUploading == old(isUploading) && isDragOver == old(isDragOver)
      ensures leaked == old(leaked)
      ensures hook.slot == old(hook.slot) && hook.lastSaved == old(hook.lastSaved)
    {
      hook.UpdateFormData(NO_CHANGES.(uploadedFile := Some(None)));
      uploadError := None;
    }
  }
}
