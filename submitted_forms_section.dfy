/** The submitted-forms panel of `src/components/admin/SubmittedFormsSection.tsx`: for the
    selected client it lists the form responses the client submitted and the contracts the
    client signed. The remote list calls are results passed in; the per-form response calls,
    which run concurrently, are a function from form to result and are taken in form order. */
module SubmittedFormsSection {

  import opened Wrappers
  import opened Text

  datatype Form = Form(id: Option<string>, name: Option<string>)

  datatype FormResponse = FormResponse(id: Option<string>, clientId: Option<string>, formId: Option<string>)

  datatype Contract = Contract(id: Option<string>, clientId: Option<string>, status: Option<string>)

  /** What `listForms` gives: an object with an `error` key, a thrown exception, or the
      forms (the `data` key may be missing). */
  datatype FormsResult = FormsError | FormsThrew | FormsData(forms: Option<seq<Form>>)

  /** What one form's `listFormResponses` gives: `Responses` when the result has a `data` key
      (whose array may hold nulls, or be missing), `NoResponses` when it has none or the call
      threw. */
  datatype ResponsesResult = Responses(data: Option<seq<Option<FormResponse>>>) | NoResponses

  /** What `listContracts` gives. */
  datatype ContractsResult = ContractsError | ContractsThrew | ContractsData(contracts: Option<seq<Contract>>)

  const FORMS_FAILED := "Failed to load client forms"
  const CONTRACTS_FAILED := "Failed to load client contracts"

  /** The non-null entries of one response array. */
  function NonNull(xs: seq<Option<FormResponse>>): (r: seq<FormResponse>)
    ensures |r| <= |xs|
    ensures forall x :: x in r <==> Some(x) in xs
  {
    if xs == [] then [] else (if xs[0].Some? then [xs[0].value] else []) + NonNull(xs[1..])
  }

  /** The responses one form contributes; a failed or empty call contributes none. */
  function ResponsesOf(result: ResponsesResult): seq<FormResponse> {
    match result
    case Responses(Some(data)) => NonNull(data)
    case _ => []
  }

  /** `flatMap` over the forms, then `filter(response !== null)`: all responses, grouped by
      form in form order. */
  function AllResponses(forms: seq<Form>, fetch: Form -> ResponsesResult): seq<FormResponse> {
    if forms == [] then [] else ResponsesOf(fetch(forms[0])) + AllResponses(forms[1..], fetch)
  }

  /** Responses of earlier forms come before those of later forms. */
  lemma {:induction false} AllResponsesAppend(a: seq<Form>, b: seq<Form>, fetch: Form -> ResponsesResult)
    ensures AllResponses(a + b, fetch) == AllResponses(a, fetch) + AllResponses(b, fetch)
  {
    if a == [] {
      assert a + b == b;
    } else {
      assert (a + b)[1..] == a[1..] + b;
      AllResponsesAppend(a[1..], b, fetch);
    }
  }

  /** A form whose call fails contributes nothing. */
  lemma {:induction false} FailedFormContributesNothing(a: seq<Form>, f: Form, b: seq<Form>, fetch: Form -> ResponsesResult)
    requires fetch(f).NoResponses? || fetch(f) == Responses(None)
    ensures AllResponses(a + [f] + b, fetch) == AllResponses(a + b, fetch)
  {
    assert AllResponses([f], fetch) == [] by {
      assert [f][1..] == [];
    }
    AllResponsesAppend(a + [f], b, fetch);
    AllResponsesAppend(a, [f], fetch);
    AllResponsesAppend(a, b, fetch);
  }

  /** The responses the selected client submitted, in order. */
  function ClientForms(responses: seq<FormResponse>, clientId: string): (r: seq<FormResponse>)
    ensures |r| <= |responses|
    ensures forall x :: x in r <==> x in responses && x.clientId == Some(clientId)
  {
    if responses == [] then []
    else (if responses[0].clientId == Some(clientId) then [responses[0]] else []) + ClientForms(responses[1..], clientId)
  }

  /** Filtering by client keeps the order of the responses. */
  lemma {:induction false} ClientFormsAppend(a: seq<FormResponse>, b: seq<FormResponse>, clientId: string)
    ensures ClientForms(a + b, clientId) == ClientForms(a, clientId) + ClientForms(b, clientId)
  {
    if a == [] {
      assert a + b == b;
    } else {
      assert (a + b)[1..] == a[1..] + b;
      ClientFormsAppend(a[1..], b, clientId);
    }
  }

  /** The contracts with status `signed`, in their original order. */
  function SignedContracts(contracts: seq<Contract>): (r: seq<Contract>)
    ensures |r| <= |contracts|
    ensures forall c :: c in r <==> c in contracts && c.status == Some("signed")
  {
    if contracts == [] then []
    else (if contracts[0].status == Some("signed") then [contracts[0]] else []) + SignedContracts(contracts[1..])
  }

  /** Filtering by status keeps the order of the contracts. */
  lemma {:induction false} SignedContractsAppend(a: seq<Contract>, b: seq<Contract>)
    ensures SignedContracts(a + b) == SignedContracts(a) + SignedContracts(b)
  {
    if a == [] {
      assert a + b == b;
    } else {
      assert (a + b)[1..] == a[1..] + b;
      SignedContractsAppend(a[1..], b);
    }
  }

  /** A contract load that ends on the error path: the call threw, or its result carried no
      contract list. */
  predicate ContractsFail(listed: ContractsResult) {
    listed.ContractsThrew? || listed == ContractsData(None)
  }

  class FormsPanel {
    var forms: seq<FormResponse>
    var contracts: seq<Contract>
    var isLoadingForms: bool
    var isLoadingContracts: bool
    var error: Option<string>

    constructor ()
      ensures forms == [] && contracts == [] && !isLoadingForms && !isLoadingContracts && error == None
    {
      forms := [];
      contracts := [];
      isLoadingForms := false;
      isLoadingContracts := false;
      error := None;
    }

    /** The panel shows its spinner while either list is loading. */
    predicate IsLoading()
      reads this
    {
      isLoadingForms || isLoadingContracts
    }

    /** `loadForms` up to its first `await`: an empty client clears the forms and ends the
        load; otherwise the spinner starts and the error is cleared. */
    method StartLoadForms(clientId: string) returns (started: bool)
      modifies this
      ensures started <==> clientId != ""
      ensures !started ==> forms == [] && isLoadingForms == old(isLoadingForms) && error == old(error)
      ensures started ==> forms == old(forms) && isLoadingForms && error == None
      ensures contracts == old(contracts) && isLoadingContracts == old(isLoadingContracts)
    {
      if clientId == "" {
        forms := [];
        return false;
      }
      isLoadingForms := true;
      error := None;
      return true;
    }

    /** The rest of `loadForms`, once the form list has arrived as `listed`. */
    method FinishLoadForms(clientId: string, listed: FormsResult, fetch: Form -> ResponsesResult)
      modifies this
      ensures !isLoadingForms
      ensures listed.FormsError? ==> forms == old(forms) && error == old(error)
      ensures listed.FormsThrew? ==> forms == old(forms) && error == Some(FORMS_FAILED)
      ensures listed.FormsData? ==>
        forms == ClientForms(AllResponses(listed.forms.GetOr([]), fetch), clientId) && error == old(error)
      ensures contracts == old(contracts) && isLoadingContracts == old(isLoadingContracts)
    {
      match listed {
        case FormsError =>
        case FormsThrew =>
          error := Some(FORMS_FAILED);
        case FormsData(data) =>
          var all := AllResponses(data.GetOr([]), fetch);
          forms := ClientForms(all, clientId);
      }
      isLoadingForms := false;
    }

    /** `loadForms` for `clientId`, run on its own. */
    method LoadForms(clientId: string, listed: FormsResult, fetch: Form -> ResponsesResult)
      modifies this
      ensures clientId == "" ==>
        forms == [] && isLoadingForms == old(isLoadingForms) && error == old(error)
      ensures clientId != "" ==> !isLoadingForms
      ensures clientId != "" && listed.FormsError? ==> forms == old(forms) && error == None
      ensures clientId != "" && listed.FormsThrew? ==> forms == old(forms) && error == Some(FORMS_FAILED)
      ensures clientId != "" && listed.FormsData? ==>
        forms == ClientForms(AllResponses(listed.forms.GetOr([]), fetch), clientId) && error == None
      ensures contracts == old(contracts) && isLoadingContracts == old(isLoadingContracts)
    {
      var started := StartLoadForms(clientId);
      if started {
        FinishLoadForms(clientId, listed, fetch);
      }
    }

    /** `loadContracts` up to its first `await`. */
    method StartLoadContracts(clientId: string) returns (started: bool)
      modifies this
      ensures started <==> clientId != ""
      ensures !started ==> contracts == [] && isLoadingContracts == old(isLoadingContracts) && error == old(error)
      ensures started ==> contracts == old(contracts) && isLoadingContracts && error == None
      ensures forms == old(forms) && isLoadingForms == old(isLoadingForms)
    {
      if clientId == "" {
        contracts := [];
        return false;
      }
      isLoadingContracts := true;
      error := None;
      return true;
    }

    /** The rest of `loadContracts`, once the contract list has arrived as `listed`. A result
        without a contract list makes `filter` throw, which takes the error path. */
    method FinishLoadContracts(listed: ContractsResult)
      modifies this
      ensures !isLoadingContracts
      ensures listed.ContractsError? ==> contracts == old(contracts) && error == old(error)
      ensures ContractsFail(listed) ==> contracts == old(contracts) && error == Some(CONTRACTS_FAILED)
      ensures listed.ContractsData? && listed.contracts.Some? ==>
        contracts == SignedContracts(listed.contracts.value) && error == old(error)
      ensures forms == old(forms) && isLoadingForms == old(isLoadingForms)
    {
      match listed {
        case ContractsError =>
        case ContractsThrew =>
          error := Some(CONTRACTS_FAILED);
        case ContractsData(data) =>
          if data.None? {
            error := Some(CONTRACTS_FAILED);
          } else {
            contracts := SignedContracts(data.value);
          }
      }
      isLoadingContracts := false;
    }

    /** `loadContracts` for `clientId`, run on its own. */
    method LoadContracts(clientId: string, listed: ContractsResult)
      modifies this
      ensures clientId == "" ==>
        contracts == [] && isLoadingContracts == old(isLoadingContracts) && error == old(error)
      ensures clientId != "" ==> !isLoadingContracts
      ensures clientId != "" && listed.ContractsError? ==> contracts == old(contracts) && error == None
      ensures clientId != "" && ContractsFail(listed) ==> contracts == old(contracts) && error == Some(CONTRACTS_FAILED)
      ensures clientId != "" && listed.ContractsData? && listed.contracts.Some? ==>
        contracts == SignedContracts(listed.contracts.value) && error == None
      ensures forms == old(forms) && isLoadingForms == old(isLoadingForms)
    {
      var started := StartLoadContracts(clientId);
      if started {
        FinishLoadContracts(listed);
      }
    }

    /** The effect that runs when the selected client changes. Both loads start before either
        list arrives, so both clear the error first; `formsFirst` says which list arrives
        first. A failure is only ever overwritten by the other load's failure. */
    method Refresh(clientId: string, listedForms: FormsResult, fetch: Form -> ResponsesResult,
                   listedContracts: ContractsResult, formsFirst: bool)
      requires !IsLoading()
      modifies this
      ensures !IsLoading()
      ensures clientId == "" ==> forms == [] && contracts == [] && error == old(error)
      ensures clientId != "" && listedForms.FormsData? ==>
        forms == ClientForms(AllResponses(listedForms.forms.GetOr([]), fetch), clientId)
      ensures clientId != "" && listedContracts.ContractsData? && listedContracts.contracts.Some? ==>
        contracts == SignedContracts(listedContracts.contracts.value)
      ensures clientId != "" && !listedForms.FormsData? ==> forms == old(forms)
      ensures clientId != "" && !(listedContracts.ContractsData? && listedContracts.contracts.Some?) ==>
        contracts == old(contracts)
      ensures clientId != "" && !listedForms.FormsThrew? && !ContractsFail(listedContracts) ==> error == None
      ensures clientId != "" && listedForms.FormsThrew? && !ContractsFail(listedContracts) ==>
        error == Some(FORMS_FAILED)
      ensures clientId != "" && !listedForms.FormsThrew? && ContractsFail(listedContracts) ==>
        error == Some(CONTRACTS_FAILED)
      ensures clientId != "" && listedForms.FormsThrew? && ContractsFail(listedContracts) ==>
        error == Some(if formsFirst then CONTRACTS_FAILED else FORMS_FAILED)
    {
      var formsStarted := StartLoadForms(clientId);
      var contractsStarted := StartLoadContracts(clientId);
      if formsStarted {
        if formsFirst {
          FinishLoadForms(clientId, listedForms, fetch);
          FinishLoadContracts(listedContracts);
        } else {
          FinishLoadContracts(listedContracts);
          FinishLoadForms(clientId, listedForms, fetch);
        }
      }
    }
  }
}
