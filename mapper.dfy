/** The field mapper between the CRM's wire record and the UI's account,
    and the closed status code table (src/services/api.ts). */
module Mapper {
  import opened Wrappers
  import opened Strings
  import opened Types

  // ---------------------------------------------------------------------------
  // Status code table
  // ---------------------------------------------------------------------------

  /** The wire code of each status. */
  function StatusCode(s: Status): string
  {
    match s
    case Active => "ACTIVE"
    case InPreparation => "IN_PREPARATION"
    case Blocked => "BLOCKED"
    case Obsolete => "OBSOLETE"
  }

  /** Reads a status: the input is upper-cased and looked up in the code table;
      an absent, empty or unknown input reads as `Active`. */
  function MapStatusFromApi(apiStatus: Option<string>): (r: Status)
    ensures forall s: Status ::
      apiStatus.Some? && ToUpper(apiStatus.value) == StatusCode(s) ==> r == s
    ensures r != Active ==> apiStatus.Some? && ToUpper(apiStatus.value) == StatusCode(r)
  {
    if apiStatus.None? || apiStatus.value == "" then Active
    else
      var statusUpper := ToUpper(apiStatus.value);
      if statusUpper == "ACTIVE" then Active
      else if statusUpper == "IN_PREPARATION" then InPreparation
      else if statusUpper == "BLOCKED" then Blocked
      else if statusUpper == "OBSOLETE" then Obsolete
      else Active
  }

  /** Writes a status: each of the four UI labels becomes its code, anything
      else (including `undefined`) becomes "ACTIVE". */
  function MapStatusToApi(status: Option<string>): (r: string)
    ensures forall s: Status :: status == Some(s.Label()) ==> r == StatusCode(s)
    ensures (status != Some(InPreparation.Label()) && status != Some(Blocked.Label())
             && status != Some(Obsolete.Label())) ==> r == StatusCode(Active)
  {
    if status == Some("Active") then "ACTIVE"
    else if status == Some("In Preparation") then "IN_PREPARATION"
    else if status == Some("Blocked") then "BLOCKED"
    else if status == Some("Obsolete") then "OBSOLETE"
    else "ACTIVE"
  }

  /** Every wire code is its own upper-case form. */
  lemma CodeIsUpperCase(s: Status)
    ensures ToUpper(StatusCode(s)) == StatusCode(s)
  {
    var c := StatusCode(s);
    assert forall i :: 0 <= i < |c| ==> UpperChar(c[i]) == c[i];
  }

  /** Reading is case-insensitive: a code in any letter case reads like its upper-case form. */
  lemma {:induction false} StatusReadIsCaseInsensitive(apiStatus: string)
    ensures MapStatusFromApi(Some(apiStatus)) == MapStatusFromApi(Some(ToUpper(apiStatus)))
  {
    ToUpperIdempotent(apiStatus);
  }

  /** The two tables invert each other on the four statuses. */
  lemma {:induction false} StatusRoundTrip(s: Status)
    ensures MapStatusFromApi(Some(MapStatusToApi(Some(s.Label())))) == s
  {
    CodeIsUpperCase(s);
  }

  /** The read mapper takes the status DESCRIPTION, and no code contains a space:
      a description with a space, such as "In Preparation" (upper-cased
      "IN PREPARATION", not "IN_PREPARATION"), reads as Active. */
  lemma {:induction false} SpacedDescriptionReadsAsActive(description: string)
    requires ' ' in description
    ensures MapStatusFromApi(Some(description)) == Active
  {
    var i :| 0 <= i < |description| && description[i] == ' ';
    assert ToUpper(description)[i] == ' ';
    CodeHasNoSpace(MapStatusFromApi(Some(description)));
  }

  /** No status code contains a space. */
  lemma CodeHasNoSpace(s: Status)
    ensures forall j :: 0 <= j < |StatusCode(s)| ==> StatusCode(s)[j] != ' '
  {
  }

  // ---------------------------------------------------------------------------
  // Read mapper: wire record to account
  // ---------------------------------------------------------------------------

  /** `o || ''`: a missing or empty wire string reads as the empty string. */
  function OrEmpty(o: Option<string>): string
  {
    if o.Some? then o.value else ""
  }

  /** `v` is what the read mapper gives for the wire value `o`: `''` when missing, the value otherwise. */
  ghost predicate Defaulted(o: Option<string>, v: string)
  {
    (o.None? ==> v == "") && (o.Some? ==> v == o.value)
  }

  function Web(w: ApiAccount): Option<string>
  {
    if w.defaultCommunication.Some? then w.defaultCommunication.value.web else None
  }

  function Country(w: ApiAccount): Option<string>
  {
    if w.defaultAddress.Some? then w.defaultAddress.value.country else None
  }

  function UpdatedOn(w: ApiAccount): Option<string>
  {
    if w.adminData.Some? then w.adminData.value.updatedOn else None
  }

  /** The total, defaulting read: every string field falls back to `''`, the prospect
      flag to `false`; the status is read from the status DESCRIPTION; website and
      country come from the nested objects; the concurrency token passes through. */
  function MapAccountFromApi(w: ApiAccount): (r: Account)
    ensures Defaulted(w.displayId, r.accountId) && Defaulted(w.id, r.id)
    ensures Defaulted(w.formattedName, r.companyName)
    ensures Defaulted(w.primaryContactformattedName, r.contactPerson)
    ensures Defaulted(w.primaryContactId, r.primaryContactId)
    ensures Defaulted(w.ownerFormattedName, r.owner) && Defaulted(w.ownerId, r.ownerId)
    ensures Defaulted(Web(w), r.website) && Defaulted(Country(w), r.country)
    ensures Defaulted(w.industrialSectorDescription, r.industry)
    ensures Defaulted(w.industrialSector, r.industryCode)
    ensures Defaulted(w.customerABCClassification, r.abcClassification)
    ensures Defaulted(w.customerABCClassificationDescription, r.abcClassificationDescription)
    ensures r.prospect <==> w.isProspect == Some(true)
    ensures r.status == MapStatusFromApi(w.lifeCycleStatusDescription)
    ensures Defaulted(w.lifeCycleStatus, r.statusCode)
    ensures r.updatedOn == UpdatedOn(w)
  {
    Account(
      accountId := OrEmpty(w.displayId),
      id := OrEmpty(w.id),
      companyName := OrEmpty(w.formattedName),
      contactPerson := OrEmpty(w.primaryContactformattedName),
      primaryContactId := OrEmpty(w.primaryContactId),
      owner := OrEmpty(w.ownerFormattedName),
      ownerId := OrEmpty(w.ownerId),
      website := OrEmpty(Web(w)),
      industry := OrEmpty(w.industrialSectorDescription),
      industryCode := OrEmpty(w.industrialSector),
      country := OrEmpty(Country(w)),
      prospect := w.isProspect.GetOr(false),
      abcClassification := OrEmpty(w.customerABCClassification),
      abcClassificationDescription := OrEmpty(w.customerABCClassificationDescription),
      status := MapStatusFromApi(w.lifeCycleStatusDescription),
      statusCode := OrEmpty(w.lifeCycleStatus),
      updatedOn := UpdatedOn(w))
  }

  /** `{ value: ApiAccount }` */
  datatype SingleResponse = SingleResponse(value: ApiAccount)
  /** `{ value: ApiAccount[], count?: number }` */
  datatype ListResponse = ListResponse(value: seq<ApiAccount>, count: Option<int>)

  /** Unwraps a single-record response. */
  function MapSingleResponse(response: SingleResponse): (r: Account)
    ensures r == MapAccountFromApi(response.value)
  {
    MapAccountFromApi(response.value)
  }

  /** Unwraps a list response, mapping every record in order. */
  function MapListResponse(response: ListResponse): (r: seq<Account>)
    ensures |r| == |response.value|
    ensures forall i :: 0 <= i < |r| ==> r[i] == MapAccountFromApi(response.value[i])
  {
    MapList(response.value)
  }

  function MapList(ws: seq<ApiAccount>): (r: seq<Account>)
    ensures |r| == |ws|
    ensures forall i :: 0 <= i < |r| ==> r[i] == MapAccountFromApi(ws[i])
  {
    if |ws| == 0 then [] else [MapAccountFromApi(ws[0])] + MapList(ws[1..])
  }

  // ---------------------------------------------------------------------------
  // Write mapper: partial account to wire payload
  // ---------------------------------------------------------------------------

  /** The customer role derived from the prospect flag. */
  function RoleOf(prospect: bool): string
  {
    if prospect then "BUP002" else "CRM000"
  }

  function OptStr(o: Option<string>): Json
  {
    if o.Some? then Str(o.value) else Undefined
  }

  function OptBool(o: Option<bool>): Json
  {
    if o.Some? then Bool(o.value) else Undefined
  }

  function StatusLabel(o: Option<Status>): Option<string>
  {
    if o.Some? then Some(o.value.Label()) else None
  }

  /** `[{ contactId, isDefault: true }]` */
  function ContactList(contactId: string): Json
  {
    Arr([Obj(map["contactId" := Str(contactId), "isDefault" := Bool(true)])])
  }

  /** A request body for the account resource: a JSON object whose keys are the
      eleven wire fields the mapper knows; `None` is a key that is not in the object,
      `Some(Undefined)` a key present with the value `undefined`. */
  datatype Payload = Payload(
    firstLineName: Option<Json>,
    formattedName: Option<Json>,
    isProspect: Option<Json>,
    customerRole: Option<Json>,
    customerABCClassification: Option<Json>,
    lifeCycleStatus: Option<Json>,
    hasContactPersons: Option<Json>,
    ownerId: Option<Json>,
    defaultCommunication: Option<Json>,
    industrialSector: Option<Json>,
    defaultAddress: Option<Json>)
  {
    /** The keys of the object, in the order the mapper writes them. */
    function Entries(): seq<Option<Json>>
    {
      [firstLineName, formattedName, isProspect, customerRole, customerABCClassification,
       lifeCycleStatus, hasContactPersons, ownerId, defaultCommunication, industrialSector,
       defaultAddress]
    }
  }

  /** `{}` */
  const EmptyObject := Payload(None, None, None, None, None, None, None, None, None, None, None)

  /** The key holding `entry` is in the object exactly when `present`, and then holds `value`. */
  predicate Entry(entry: Option<Json>, present: bool, value: Json)
  {
    entry == if present then Some(value) else None
  }

  /** The update (PATCH) payload: a field appears only when the caller set it, and a
      string field only when it is also non-empty; the company name goes to both name
      fields, the prospect flag brings its customer role, the primary contact becomes
      a one-element default-contact list. */
  ghost predicate IsUpdatePayload(p: AccountPatch, payload: Payload)
  {
    UpdatedNames(p, payload) && UpdatedClassification(p, payload) && UpdatedReferences(p, payload)
  }

  /** The name and prospect part of an update payload. */
  ghost predicate UpdatedNames(p: AccountPatch, payload: Payload)
  {
    && Entry(payload.firstLineName, Given(p.companyName), OptStr(p.companyName))
    && Entry(payload.formattedName, Given(p.companyName), OptStr(p.companyName))
    && Entry(payload.isProspect, p.prospect.Some?, OptBool(p.prospect))
    && Entry(payload.customerRole, p.prospect.Some?, Str(RoleOf(p.prospect == Some(true))))
  }

  /** The classification, status and contact part of an update payload. */
  ghost predicate UpdatedClassification(p: AccountPatch, payload: Payload)
  {
    && Entry(payload.customerABCClassification, Given(p.abcClassification), OptStr(p.abcClassification))
    && Entry(payload.lifeCycleStatus, p.status.Some?, Str(MapStatusToApi(StatusLabel(p.status))))
    && Entry(payload.hasContactPersons, Given(p.primaryContactId), ContactList(OrEmpty(p.primaryContactId)))
  }

  /** The owner, website, industry and country part of an update payload. */
  ghost predicate UpdatedReferences(p: AccountPatch, payload: Payload)
  {
    && Entry(payload.ownerId, Given(p.ownerId), OptStr(p.ownerId))
    && Entry(payload.defaultCommunication, Given(p.website), Obj(map["web" := OptStr(p.website)]))
    && Entry(payload.industrialSector, Given(p.industryCode), OptStr(p.industryCode))
    && Entry(payload.defaultAddress, Given(p.country), Obj(map["country" := OptStr(p.country)]))
  }

  /** The create (POST) payload: nine fields always, even when their values are
      `undefined`; the contact list and the industrial sector only when given. */
  ghost predicate IsCreatePayload(p: AccountPatch, payload: Payload)
  {
    && Entry(payload.firstLineName, true, OptStr(p.companyName))
    && Entry(payload.formattedName, true, OptStr(p.companyName))
    && Entry(payload.isProspect, true, OptBool(p.prospect))
    && Entry(payload.customerRole, true, Str(RoleOf(p.prospect == Some(true))))
    && Entry(payload.customerABCClassification, true, OptStr(p.abcClassification))
    && Entry(payload.lifeCycleStatus, true, Str(MapStatusToApi(StatusLabel(p.status))))
    && Entry(payload.ownerId, true, OptStr(p.ownerId))
    && Entry(payload.defaultCommunication, true, Obj(map["web" := OptStr(p.website)]))
    && Entry(payload.defaultAddress, true, Obj(map["country" := OptStr(p.country)]))
    && Entry(payload.hasContactPersons, Given(p.primaryContactId), ContactList(OrEmpty(p.primaryContactId)))
    && Entry(payload.industrialSector, Given(p.industryCode), OptStr(p.industryCode))
  }

  /** Builds the request body for a create (`isUpdate == false`) or an update. */
  method MapAccountToApi(account: AccountPatch, isUpdate: bool) returns (payload: Payload)
    ensures isUpdate ==> IsUpdatePayload(account, payload)
    ensures !isUpdate ==> IsCreatePayload(account, payload)
  {
    if isUpdate {
      payload := UpdatePayload(account);
    } else {
      payload := CreatePayload(account);
    }
  }

  /** Update mode: the payload is built field by field, starting from `{}`. */
  method UpdatePayload(account: AccountPatch) returns (payload: Payload)
    ensures IsUpdatePayload(account, payload)
  {
    payload := EmptyObject;
    payload := PutNames(account, payload);
    payload := PutClassification(account, payload);
    payload := PutReferences(account, payload);
  }

  /** The company name and prospect steps of the update; the other keys are kept. */
  method PutNames(account: AccountPatch, payload: Payload) returns (r: Payload)
    requires payload.firstLineName.None? && payload.formattedName.None?
    requires payload.isProspect.None? && payload.customerRole.None?
    ensures UpdatedNames(account, r)
    ensures r == payload.(firstLineName := r.firstLineName, formattedName := r.formattedName,
                          isProspect := r.isProspect, customerRole := r.customerRole)
  {
    r := payload;
    if account.companyName.Some? && account.companyName.value != "" {
      r := r.(firstLineName := Some(Str(account.companyName.value)));
      r := r.(formattedName := Some(Str(account.companyName.value)));
    }
    if account.prospect.Some? {
      r := r.(isProspect := Some(Bool(account.prospect.value)));
      r := r.(customerRole := Some(Str(if account.prospect.value then "BUP002" else "CRM000")));
    }
  }

  /** The classification, status and contact steps of the update; the other keys are kept. */
  method PutClassification(account: AccountPatch, payload: Payload) returns (r: Payload)
    requires payload.customerABCClassification.None? && payload.lifeCycleStatus.None?
    requires payload.hasContactPersons.None?
    ensures UpdatedClassification(account, r)
    ensures r == payload.(customerABCClassification := r.customerABCClassification,
                          lifeCycleStatus := r.lifeCycleStatus, hasContactPersons := r.hasContactPersons)
  {
    r := payload;
    if account.abcClassification.Some? && account.abcClassification.value != "" {
      r := r.(customerABCClassification := Some(Str(account.abcClassification.value)));
    }
    if account.status.Some? {
      r := r.(lifeCycleStatus := Some(Str(MapStatusToApi(Some(account.status.value.Label())))));
    }
    if account.primaryContactId.Some? && account.primaryContactId.value != "" {
      r := r.(hasContactPersons := Some(ContactList(account.primaryContactId.value)));
    }
  }

  /** The owner, website, industry and country steps of the update; the other keys are kept. */
  method PutReferences(account: AccountPatch, payload: Payload) returns (r: Payload)
    requires payload.ownerId.None? && payload.defaultCommunication.None?
    requires payload.industrialSector.None? && payload.defaultAddress.None?
    ensures UpdatedReferences(account, r)
    ensures r == payload.(ownerId := r.ownerId, defaultCommunication := r.defaultCommunication,
                          industrialSector := r.industrialSector, defaultAddress := r.defaultAddress)
  {
    r := payload;
    if account.ownerId.Some? && account.ownerId.value != "" {
      r := r.(ownerId := Some(Str(account.ownerId.value)));
    }
    if account.website.Some? && account.website.value != "" {
      r := r.(defaultCommunication := Some(Obj(map["web" := Str(account.website.value)])));
    }
    if account.industryCode.Some? && account.industryCode.value != "" {
      r := r.(industrialSector := Some(Str(account.industryCode.value)));
    }
    if account.country.Some? && account.country.value != "" {
      r := r.(defaultAddress := Some(Obj(map["country" := Str(account.country.value)])));
    }
  }

  /** Create mode: a literal with every field, then the two conditional ones. */
  method CreatePayload(account: AccountPatch) returns (payload: Payload)
    ensures IsCreatePayload(account, payload)
  {
    var customerRole := if account.prospect == Some(true) then "BUP002" else "CRM000";
    payload := EmptyObject.(
      firstLineName := Some(OptStr(account.companyName)),
      formattedName := Some(OptStr(account.companyName)),
      isProspect := Some(OptBool(account.prospect)),
      customerRole := Some(Str(customerRole)),
      customerABCClassification := Some(OptStr(account.abcClassification)),
      lifeCycleStatus := Some(Str(MapStatusToApi(StatusLabel(account.status)))),
      ownerId := Some(OptStr(account.ownerId)),
      defaultCommunication := Some(Obj(map["web" := OptStr(account.website)])),
      defaultAddress := Some(Obj(map["country" := OptStr(account.country)])));
    if account.primaryContactId.Some? && account.primaryContactId.value != "" {
      payload := payload.(hasContactPersons := Some(ContactList(account.primaryContactId.value)));
    }
    if account.industryCode.Some? && account.industryCode.value != "" {
      payload := payload.(industrialSector := Some(Str(account.industryCode.value)));
    }
  }

  /** A value with nothing undefined and no empty string anywhere inside it. */
  predicate Filled(j: Json)
  {
    match j
    case Undefined => false
    case Str(s) => s != ""
    case Bool(_) => true
    case Obj(f) => forall k :: k in f ==> Filled(f[k])
    case Arr(xs) => forall i :: 0 <= i < |xs| ==> Filled(xs[i])
  }

  /** An update never sends an undefined or empty-string value: a field set to `''`
      means "no change", never "clear". */
  lemma UpdatePayloadIsFilled(p: AccountPatch, payload: Payload)
    requires IsUpdatePayload(p, payload)
    ensures forall e :: e in payload.Entries() ==> EntryFilled(e)
  {
    if Given(p.primaryContactId) {
      ContactListIsFilled(p.primaryContactId.value);
    }
    assert EntryFilled(payload.firstLineName) && EntryFilled(payload.formattedName);
    assert EntryFilled(payload.isProspect) && EntryFilled(payload.customerRole);
    assert EntryFilled(payload.customerABCClassification) && EntryFilled(payload.lifeCycleStatus);
    assert EntryFilled(payload.hasContactPersons) && EntryFilled(payload.ownerId);
    assert EntryFilled(payload.defaultCommunication) && EntryFilled(payload.industrialSector);
    assert EntryFilled(payload.defaultAddress);
  }

  /** A key that is absent, or present with a filled value. */
  predicate EntryFilled(e: Option<Json>)
  {
    e.Some? ==> Filled(e.value)
  }

  lemma ContactListIsFilled(contactId: string)
    requires contactId != ""
    ensures Filled(ContactList(contactId))
  {
    var entry := map["contactId" := Str(contactId), "isDefault" := Bool(true)];
    assert entry.Keys == {"contactId", "isDefault"};
    assert Filled(Obj(entry));
  }

  /** An update with nothing set, or only empty strings, sends `{}`. */
  lemma EmptyUpdatePayload(p: AccountPatch, payload: Payload)
    requires IsUpdatePayload(p, payload)
    requires p.prospect.None? && p.status.None?
    requires !Given(p.companyName) && !Given(p.abcClassification) && !Given(p.primaryContactId)
    requires !Given(p.ownerId) && !Given(p.website) && !Given(p.industryCode) && !Given(p.country)
    ensures payload == EmptyObject
  {
  }

  /** Create and update agree on the customer role derived from a given prospect flag. */
  lemma CustomerRoleAgrees(p: AccountPatch, created: Payload, updated: Payload)
    requires IsCreatePayload(p, created) && IsUpdatePayload(p, updated)
    requires p.prospect.Some?
    ensures created.customerRole == updated.customerRole
    ensures created.customerRole == Some(Str(if p.prospect.value then "BUP002" else "CRM000"))
  {
  }
}
