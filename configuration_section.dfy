/** The configuration panel of `src/components/admin/ConfigurationSection.tsx`: choosing a
    client pre-fills the applicant's identification and the client's file channel, and
    choosing a form type clears the selected checks. A client or channel list that the
    response does not carry is the empty list, which `find` and `filter` treat the same way. */
module ConfigurationSection {

  import opened Wrappers
  import opened Text
  import opened FormTypes
  import opened UseFormData

  /** A client as the client list returns it; every field may be missing. The custom fields
      are a string map. */
  datatype Client = Client(
    id: Option<string>,
    givenName: Option<string>,
    familyName: Option<string>,
    customFields: Option<map<string, string>>)

  datatype FileChannel = FileChannel(id: Option<string>, clientId: Option<string>)

  /** `xs.findIndex(p)`, as an option: the first index whose element satisfies `p`. */
  function FirstIndex<T>(xs: seq<T>, p: T -> bool): (r: Option<nat>)
    ensures r.Some? ==> r.value < |xs| && p(xs[r.value]) && forall j :: 0 <= j < r.value ==> !p(xs[j])
    ensures r.None? ==> forall j :: 0 <= j < |xs| ==> !p(xs[j])
    ensures forall k :: (0 <= k < |xs| && p(xs[k]) && forall j :: 0 <= j < k ==> !p(xs[j])) ==> r == Some(k)
  {
    if xs == [] then None
    else if p(xs[0]) then Some(0)
    else
      match FirstIndex(xs[1..], p)
      case None => None
      case Some(k) => Some(k + 1)
  }

  /** `clients.find(client => client.id === value)` */
  function FindClient(clients: seq<Client>, value: string): (r: Option<Client>)
    ensures r.Some? ==> r.value.id == Some(value) && r.value in clients
    ensures r.None? <==> forall j :: 0 <= j < |clients| ==> clients[j].id != Some(value)
    ensures forall k ::
      (0 <= k < |clients| && clients[k].id == Some(value) &&
       (forall j :: 0 <= j < k ==> clients[j].id != Some(value)))
      ==> r == Some(clients[k])
  {
    match FirstIndex(clients, (c: Client) => c.id == Some(value))
    case None => None
    case Some(k) => Some(clients[k])
  }

  /** `channels.find(channel => channel.clientId === clientId)?.id || undefined`: the id of the
      first channel of the client, when it is a non-empty string. */
  function ChannelIdFor(channels: seq<FileChannel>, clientId: string): (r: Option<string>)
    ensures r.Some? ==>
      r.value != "" &&
      exists k :: 0 <= k < |channels| && channels[k].clientId == Some(clientId) && channels[k].id == r &&
        forall j :: 0 <= j < k ==> channels[j].clientId != Some(clientId)
    ensures (forall j :: 0 <= j < |channels| ==> channels[j].clientId != Some(clientId)) ==> r.None?
    ensures forall k ::
      (0 <= k < |channels| && channels[k].clientId == Some(clientId) &&
       (forall j :: 0 <= j < k ==> channels[j].clientId != Some(clientId)))
      ==> r == if Truthy(channels[k].id) then channels[k].id else None
  {
    match FirstIndex(channels, (ch: FileChannel) => ch.clientId == Some(clientId))
    case None => None
    case Some(k) => if Truthy(channels[k].id) then channels[k].id else None
  }

  /** `client.customFields?.[key] || ''` */
  function CustomField(c: Client, key: string): (v: string)
    ensures c.customFields.Some? && key in c.customFields.value ==> v == c.customFields.value[key]
    ensures c.customFields.None? || key !in c.customFields.value ==> v == ""
  {
    if c.customFields.Some? && key in c.customFields.value then c.customFields.value[key] else ""
  }

  /** The identification update a selected client triggers: all eight fields, each from the
      client or `''`. */
  function Prefill(c: Client): (u: IdentificationPatch)
    ensures u.firstName.Some? && u.lastName.Some? && u.streetAddress.Some? && u.streetAddress2.Some?
    ensures u.city.Some? && u.state.Some? && u.postalCode.Some? && u.birthdate.Some?
  {
    IdentificationPatch(
      Some(OrEmpty(c.givenName)),
      Some(OrEmpty(c.familyName)),
      Some(CustomField(c, "streetAddress")),
      Some(Some(CustomField(c, "unitapartment"))),
      Some(CustomField(c, "city")),
      Some(CustomField(c, "state")),
      Some(CustomField(c, "postalCode")),
      Some(CustomField(c, "birthdate")))
  }

  /** The pre-filled identification is the client's: name from the given and family names,
      address from the custom fields, and nothing of what was typed before survives. */
  lemma {:induction false} PrefillReplaces(i: Identification, c: Client)
    ensures MergeIdentification(i, Prefill(c)) == Identification(
      OrEmpty(c.givenName), OrEmpty(c.familyName), CustomField(c, "streetAddress"),
      Some(CustomField(c, "unitapartment")), CustomField(c, "city"), CustomField(c, "state"),
      CustomField(c, "postalCode"), CustomField(c, "birthdate"))
  {
    FullIdentificationPatch(i, DEFAULT_FORM_DATA.identification, Prefill(c));
  }

  /** `clients.filter(client => client.id)`: the clients offered for selection. */
  function OfferedClients(clients: seq<Client>): (r: seq<Client>)
    ensures |r| <= |clients|
    ensures forall k :: 0 <= k < |r| ==> Truthy(r[k].id)
  {
    if clients == [] then []
    else (if Truthy(clients[0].id) then [clients[0]] else []) + OfferedClients(clients[1..])
  }

  /** A client is offered iff it is listed and has an id. */
  lemma {:induction false} OfferedClientsExact(clients: seq<Client>, c: Client)
    ensures c in OfferedClients(clients) <==> c in clients && Truthy(c.id)
  {
    if clients != [] {
      OfferedClientsExact(clients[1..], c);
      assert clients == [clients[0]] + clients[1..];
    }
  }

  /** Filtering distributes over concatenation, so the offered clients keep the list's
      order. */
  lemma {:induction false} OfferedAppend(a: seq<Client>, b: seq<Client>)
    ensures OfferedClients(a + b) == OfferedClients(a) + OfferedClients(b)
  {
    if a != [] {
      assert (a + b)[1..] == a[1..] + b;
      OfferedAppend(a[1..], b);
    } else {
      assert a + b == b;
    }
  }

  /** The select handler: the record's client is always the chosen id; when the id belongs to
      a listed client, the identification is pre-filled from it and the file channel becomes
      the client's first channel (or none); otherwise nothing else changes. */
  method OnClientSelect(hook: FormDataHook, clients: seq<Client>, channels: seq<FileChannel>, value: string)
    modifies hook
    ensures FindClient(clients, value).None? ==> hook.formData == old(hook.formData).(client := value)
    ensures FindClient(clients, value).Some? ==>
      hook.formData == old(hook.formData).(
        client := value,
        identification := MergeIdentification(old(hook.formData).identification, Prefill(FindClient(clients, value).value)),
        fileChannelId := ChannelIdFor(channels, value))
    ensures hook.hasUnsavedChanges
    ensures hook.slot == old(hook.slot) && hook.lastSaved == old(hook.lastSaved) && hook.isLoading == old(hook.isLoading)
  {
    hook.UpdateFormData(NO_CHANGES.(client := Some(value)));
    var selected := FindClient(clients, value);
    if selected.Some? {
      hook.UpdateIdentification(Prefill(selected.value));
      hook.UpdateFormData(NO_CHANGES.(fileChannelId := Some(ChannelIdFor(channels, value))));
    }
  }

  /** The form-type select: the new type, and no checks selected. */
  method OnFormTypeChange(hook: FormDataHook, t: FormType)
    modifies hook
    ensures hook.formData == old(hook.formData).(formType := FormTypeName(t), backgroundChecks := [])
    ensures ParseFormType(hook.formData.formType) == Some(t)
    ensures hook.hasUnsavedChanges
    ensures hook.slot == old(hook.slot) && hook.lastSaved == old(hook.lastSaved) && hook.isLoading == old(hook.isLoading)
  {
    ParseFormTypeName(t);
    hook.UpdateFormData(NO_CHANGES.(formType := Some(FormTypeName(t)), backgroundChecks := Some([])));
  }
}
