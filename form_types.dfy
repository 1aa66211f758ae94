/** The form record, its schema and the constant tables of `src/types/index.ts`. */
module FormTypes {

  import opened Wrappers
  import opened Text

  // ---------------------------------------------------------------------------
  // Form types and their constant tables
  // ---------------------------------------------------------------------------

  datatype FormType = Tenant | Employment | Nonprofit

  /** The string a form type is stored as. */
  function FormTypeName(t: FormType): string {
    match t
    case Tenant => "tenant"
    case Employment => "employment"
    case Nonprofit => "nonprofit"
  }

  /** The enumeration check `z.enum(['tenant', 'employment', 'nonprofit'])`. */
  function ParseFormType(s: string): (r: Option<FormType>)
    ensures r.Some? ==> FormTypeName(r.value) == s
    ensures r.None? ==> forall t :: FormTypeName(t) != s
  {
    if s == "tenant" then Some(Tenant)
    else if s == "employment" then Some(Employment)
    else if s == "nonprofit" then Some(Nonprofit)
    else None
  }

  lemma ParseFormTypeName(t: FormType)
    ensures ParseFormType(FormTypeName(t)) == Some(t)
  {
  }

  /** The three statuses the schema admits. */
  predicate IsStatus(s: string) {
    s == "cleared" || s == "pending" || s == "denied"
  }

  const OTHER := "Other"

  /** `BACKGROUND_CHECK_OPTIONS[t]` */
  function BackgroundCheckOptions(t: FormType): seq<string> {
    match t
    case Tenant => [
      "Acknowledgement of Background Check",
      "Acknowledgement of Employment",
      "Criminal History Clearance",
      "Reference Check Clearance",
      "Identity Verification",
      "Rental Application Completion",
      "Home Visit Check Completion",
      "Personal Wellness Assessment",
      "Credit Check Assessment",
      OTHER]
    case Employment => [
      "Acknowledgement of Background Check",
      "Acknowledgement of Employment",
      "Criminal History Clearance",
      "Reference Check Clearance",
      "Identity Verification",
      "Employment Application Completion",
      "Personal Wellness Assessment",
      OTHER]
    case Nonprofit => [
      "Acknowledgement of Background Check",
      "Acknowledgement of Employment",
      "Criminal History Clearance",
      "Reference Check Clearance",
      "Identity Verification",
      "Sex Offender Clearance",
      "Youth Protection Policy",
      "Illinois State Murderer and Violent Offender Against Youth",
      "Illinois State Police Clearance",
      "FBI Clearance",
      OTHER]
  }

  /** `FORM_TYPE_INFO[t].title` */
  function Title(t: FormType): string {
    match t
    case Tenant => "Tenant Screening"
    case Employment => "Employment Verification"
    case Nonprofit => "Nonprofit Volunteer"
  }

  /** `FORM_TYPE_INFO[t].description` */
  function Description(t: FormType): string {
    match t
    case Tenant => "Comprehensive background screening for rental applications"
    case Employment => "Professional background verification for employment purposes"
    case Nonprofit => "Volunteer screening for nonprofit organizations"
  }

  /** `FORM_TYPE_INFO[t].requiredChecks` */
  function RequiredChecks(t: FormType): seq<string> {
    match t
    case Tenant => [
      "Acknowledgement of Background Check",
      "Acknowledgement of Employment",
      "Criminal History Clearance",
      "Reference Check Clearance",
      "Identity Verification",
      "Rental Application Completion"]
    case Employment => [
      "Acknowledgement of Background Check",
      "Acknowledgement of Employment",
      "Criminal History Clearance",
      "Reference Check Clearance",
      "Identity Verification",
      "Employment Application Completion"]
    case Nonprofit => [
      "Acknowledgement of Background Check",
      "Acknowledgement of Employment",
      "Criminal History Clearance",
      "Reference Check Clearance",
      "Identity Verification",
      "Sex Offender Clearance",
      "Youth Protection Policy",
      "Illinois State Murderer and Violent Offender Against Youth",
      "Illinois State Police Clearance"]
  }

  /** Every required check of a form type is one of the options offered for it, and the
      option list is strictly longer: it also offers "Other", which is never required. */
  lemma RequiredChecksAreOffered(t: FormType)
    ensures forall c :: c in RequiredChecks(t) ==> c in BackgroundCheckOptions(t)
    ensures OTHER !in RequiredChecks(t)
    ensures |RequiredChecks(t)| < |BackgroundCheckOptions(t)|
  {
  }

  /** Every option list ends with "Other" and mentions it nowhere else. */
  lemma OptionsEndWithOther(t: FormType)
    ensures |BackgroundCheckOptions(t)| > 0
    ensures BackgroundCheckOptions(t)[|BackgroundCheckOptions(t)| - 1] == OTHER
    ensures OTHER !in BackgroundCheckOptions(t)[..|BackgroundCheckOptions(t)| - 1]
  {
  }

  // ---------------------------------------------------------------------------
  // The record
  // ---------------------------------------------------------------------------

  /** A point in time. `DateObject` is a JavaScript `Date`; `DateText` is the ISO string
      that `JSON.stringify` turns a `Date` into. Both carry the instant in milliseconds. */
  datatype Stamp = DateObject(ms: int) | DateText(ms: int)

  datatype FileInfo = FileInfo(
    id: string,
    name: string,
    size: int,
    mimeType: string,
    url: Option<string>,
    uploadedAt: Stamp)

  datatype Identification = Identification(
    firstName: string,
    lastName: string,
    streetAddress: string,
    streetAddress2: Option<string>,
    city: string,
    state: string,
    postalCode: string,
    birthdate: string)

  /** One background-check form record. `formType` and `status` are kept as the strings
      the record carries, so that records that fail the schema can be represented.
      `fileChannelId` is written by the configuration section but is not part of the schema. */
  datatype FormRecord = FormRecord(
    client: string,
    formType: string,
    identification: Identification,
    backgroundChecks: seq<string>,
    status: string,
    memo: Option<string>,
    uploadedFile: Option<FileInfo>,
    fileChannelId: Option<string>)

  /** `DEFAULT_FORM_DATA` */
  const DEFAULT_FORM_DATA := FormRecord(
    "",
    "tenant",
    Identification("", "", "", Some(""), "", "", "", ""),
    [],
    "pending",
    Some(""),
    None,
    None)

  // ---------------------------------------------------------------------------
  // The schema
  // ---------------------------------------------------------------------------

  /** `IdentificationSchema` accepts exactly these identifications. */
  predicate IdentificationValid(i: Identification) {
    && Utf16Length(i.firstName) >= 1
    && Utf16Length(i.lastName) >= 1
    && Utf16Length(i.streetAddress) >= 1
    && Utf16Length(i.city) >= 1
    && Utf16Length(i.state) == 2
    && Utf16Length(i.postalCode) >= 5
    && Utf16Length(i.birthdate) >= 1
  }

  /** The `uploadedFile` object schema: its string and number fields are typed here already,
      so what remains is that `uploadedAt` is a `Date`. */
  predicate FileInfoValid(f: FileInfo) {
    f.uploadedAt.DateObject?
  }

  /** `FormDataSchema` accepts exactly these records. */
  predicate FormDataValid(d: FormRecord) {
    && Utf16Length(d.client) >= 1
    && ParseFormType(d.formType).Some?
    && IdentificationValid(d.identification)
    && |d.backgroundChecks| >= 1
    && IsStatus(d.status)
    && (d.uploadedFile.Some? ==> FileInfoValid(d.uploadedFile.value))
  }

  /** One validation issue: the dotted path of the offending field and its message. */
  datatype Issue = Issue(path: string, message: string)

  function Check(ok: bool, path: string, message: string): seq<Issue> {
    if ok then [] else [Issue(path, message)]
  }

  /** The issues `IdentificationSchema` reports, in field order. */
  function IdentificationIssues(i: Identification): seq<Issue> {
    Check(Utf16Length(i.firstName) >= 1, "identification.firstName", "First name is required")
    + Check(Utf16Length(i.lastName) >= 1, "identification.lastName", "Last name is required")
    + Check(Utf16Length(i.streetAddress) >= 1, "identification.streetAddress", "Street address is required")
    + Check(Utf16Length(i.city) >= 1, "identification.city", "City is required")
    + Check(Utf16Length(i.state) >= 2, "identification.state", "State is required")
    + Check(Utf16Length(i.state) <= 2, "identification.state", "State must be 2 characters")
    + Check(Utf16Length(i.postalCode) >= 5, "identification.postalCode", "Postal code is required")
    + Check(Utf16Length(i.birthdate) >= 1, "identification.birthdate", "Birthdate is required")
  }

  /** The issues `FormDataSchema` reports, in field order. Messages the schema does not
      spell out are the validator's defaults, shortened. */
  function FormDataIssues(d: FormRecord): seq<Issue> {
    Check(Utf16Length(d.client) >= 1, "client", "Client selection is required")
    + Check(ParseFormType(d.formType).Some?, "formType", "Invalid enum value")
    + IdentificationIssues(d.identification)
    + Check(|d.backgroundChecks| >= 1, "backgroundChecks", "At least one background check must be selected")
    + Check(IsStatus(d.status), "status", "Invalid enum value")
    + Check(d.uploadedFile.None? || FileInfoValid(d.uploadedFile.value), "uploadedFile.uploadedAt", "Expected date")
  }

  lemma {:induction false} IdentificationIssuesEmptyIff(i: Identification)
    ensures IdentificationIssues(i) == [] <==> IdentificationValid(i)
  {
  }

  /** The record a successful parse yields: keys outside the schema are stripped. */
  function Strip(d: FormRecord): FormRecord {
    d.(fileChannelId := None)
  }

  datatype ParseResult = Parsed(data: FormRecord) | Rejected(issues: seq<Issue>)

  /** `FormDataSchema.safeParse(d)` */
  function SafeParse(d: FormRecord): (r: ParseResult)
    ensures r.Parsed? <==> FormDataValid(d)
    ensures r.Parsed? ==> r.data == Strip(d) && r.data.fileChannelId.None?
    ensures r.Rejected? ==> |r.issues| > 0 && r.issues == FormDataIssues(d)
  {
    IdentificationIssuesEmptyIff(d.identification);
    var issues := FormDataIssues(d);
    if issues == [] then Parsed(Strip(d)) else Rejected(issues)
  }

  /** Parsing is idempotent: a parsed record parses to itself. */
  lemma SafeParseIdempotent(d: FormRecord)
    requires SafeParse(d).Parsed?
    ensures SafeParse(SafeParse(d).data) == SafeParse(d)
  {
  }

  /** The default record is rejected: client, the seven required identification fields
      and the background checks are all reported, in that order. */
  lemma DefaultRejected()
    ensures !FormDataValid(DEFAULT_FORM_DATA)
    ensures SafeParse(DEFAULT_FORM_DATA) == Rejected([
      Issue("client", "Client selection is required"),
      Issue("identification.firstName", "First name is required"),
      Issue("identification.lastName", "Last name is required"),
      Issue("identification.streetAddress", "Street address is required"),
      Issue("identification.city", "City is required"),
      Issue("identification.state", "State is required"),
      Issue("identification.postalCode", "Postal code is required"),
      Issue("identification.birthdate", "Birthdate is required"),
      Issue("backgroundChecks", "At least one background check must be selected")])
  {
  }

  // ---------------------------------------------------------------------------
  // JSON round trip
  // ---------------------------------------------------------------------------

  function StampToJson(s: Stamp): (r: Stamp)
    ensures r.DateText? && r.ms == s.ms
  {
    DateText(s.ms)
  }

  /** `JSON.parse(JSON.stringify(d))`: a `Date` comes back as its ISO string; everything
      else the record holds comes back as it was. */
  function JsonRoundTrip(d: FormRecord): (r: FormRecord)
    ensures r.uploadedFile.Some? <==> d.uploadedFile.Some?
    ensures d.uploadedFile.None? ==> r == d
    ensures FromJson(r)
  {
    match d.uploadedFile
    case None => d
    case Some(f) => d.(uploadedFile := Some(f.(uploadedAt := StampToJson(f.uploadedAt))))
  }

  /** A record as parsed from JSON text: an uploaded file's `uploadedAt` is a string, since
      JSON has no date type. */
  predicate FromJson(d: FormRecord) {
    d.uploadedFile.Some? ==> d.uploadedFile.value.uploadedAt.DateText?
  }

  /** A record parsed from JSON that carries an uploaded file is refused, and the date issue
      is the last one reported. */
  lemma UploadedFileRejected(d: FormRecord)
    requires FromJson(d) && d.uploadedFile.Some?
    ensures !FormDataValid(d)
    ensures |FormDataIssues(d)| > 0
    ensures FormDataIssues(d)[|FormDataIssues(d)| - 1] == Issue("uploadedFile.uploadedAt", "Expected date")
    ensures Issue("uploadedFile.uploadedAt", "Expected date") in FormDataIssues(d)
  {
  }

  /** A record without an uploaded file survives JSON and parsing unchanged (but for the
      stripped `fileChannelId`) exactly when it is valid; one with an uploaded file never does,
      because its `uploadedAt` comes back as a string, which the schema's date check refuses. */
  lemma JsonThenParse(d: FormRecord)
    ensures d.uploadedFile.None? ==>
      (SafeParse(JsonRoundTrip(d)) == Parsed(Strip(d)) <==> FormDataValid(d))
    ensures d.uploadedFile.Some? ==> SafeParse(JsonRoundTrip(d)).Rejected?
  {
  }
}
