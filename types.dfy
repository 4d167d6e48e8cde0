/** The records of the account data path: the domain `Account` the UI works on,
    the CRM's wire record `ApiAccount`, the partial account handed to the
    write mapper, and a small model of the JSON objects that travel on the wire. */
module Types {
  import opened Wrappers

  /** The four lifecycle statuses of an account. */
  datatype Status = Active | InPreparation | Blocked | Obsolete {
    /** The status as the UI spells it (the string literal type `Status`). */
    function Label(): string
    {
      match this
      case Active => "Active"
      case InPreparation => "In Preparation"
      case Blocked => "Blocked"
      case Obsolete => "Obsolete"
    }
  }

  /** A business-partner record as the UI holds it. `industryCode` and `statusCode`
      are optional in the type but every account the read mapper builds has them. */
  datatype Account = Account(
    accountId: string,               // display identifier, used for lookups in the store
    id: string,                      // stable internal identifier
    companyName: string,
    contactPerson: string,
    primaryContactId: string,
    owner: string,
    ownerId: string,
    website: string,
    industry: string,
    industryCode: string,
    country: string,
    prospect: bool,
    abcClassification: string,
    abcClassificationDescription: string,
    status: Status,
    statusCode: string,
    updatedOn: Option<string>)       // the concurrency token

  datatype Communication = Communication(web: Option<string>)
  datatype Address = Address(country: Option<string>)
  datatype AdminData = AdminData(updatedOn: Option<string>)

  /** The CRM's account record as it arrives in JSON; any field may be missing. */
  datatype ApiAccount = ApiAccount(
    id: Option<string>,
    displayId: Option<string>,
    formattedName: Option<string>,
    isProspect: Option<bool>,
    customerABCClassification: Option<string>,
    customerABCClassificationDescription: Option<string>,
    lifeCycleStatus: Option<string>,
    lifeCycleStatusDescription: Option<string>,
    primaryContactId: Option<string>,
    primaryContactformattedName: Option<string>,
    ownerId: Option<string>,
    ownerFormattedName: Option<string>,
    industrialSector: Option<string>,
    industrialSectorDescription: Option<string>,
    defaultCommunication: Option<Communication>,
    defaultAddress: Option<Address>,
    adminData: Option<AdminData>)

  /** `Partial<Account>` restricted to the fields the write mapper reads; `None` is `undefined`. */
  datatype AccountPatch = AccountPatch(
    companyName: Option<string>,
    prospect: Option<bool>,
    abcClassification: Option<string>,
    status: Option<Status>,
    primaryContactId: Option<string>,
    ownerId: Option<string>,
    website: Option<string>,
    industryCode: Option<string>,
    country: Option<string>)

  /** A JavaScript value as it is put into a request body. `Undefined` is a key
      that is present with the value `undefined`. */
  datatype Json =
    | Undefined
    | Str(s: string)
    | Bool(b: bool)
    | Obj(fields: map<string, Json>)
    | Arr(items: seq<Json>)

  /** A JSON object is a map from keys to values. */
  type JsonObject = map<string, Json>
}
