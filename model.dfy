/** Shared values of the Pipedrive plugin: the records the tasks send and receive
    (models/Deal.java, models/Person.java, models/Note.java,
    models/PipedriveResponse.java), the task properties they are configured
    with, and the request a task hands to the HTTP client. */
module Model {

  datatype Option<+T> = None | Some(value: T)

  datatype Result<+T, +E> = Ok(value: T) | Err(error: E)

  /** A task property (`Property<T>` field): either never configured (the field
      is null) or configured, in which case rendering it yields a value or
      nothing (`render(p).as(...)` is an empty Optional). */
  datatype Prop<+T> = Unset | Set(rendered: Option<T>)

  /** An opaque numeric payload (`BigDecimal`, `Double`), kept as its text. */
  datatype Decimal = Decimal(text: string)

  /** A value inside a rendered `Map<String, Object>`. */
  datatype Scalar = JString(s: string) | JBool(b: bool) | JNumber(n: Decimal) | JNull | JOther

  type Fields = map<string, Scalar>

  /** `Person.EmailInfo` and `Person.PhoneInfo`, which have the same three fields
      (`labelName` is the JSON field `label`; `label` is a Dafny keyword). */
  datatype ContactInfo = ContactInfo(value: Option<string>, primary: Option<bool>, labelName: Option<string>)

  /** The fields of `Deal` that a task sets or reads; every field is nullable. */
  datatype Deal = Deal(
    id: Option<int>,
    title: Option<string>,
    value: Option<Decimal>,
    currency: Option<string>,
    userId: Option<int>,
    personId: Option<int>,
    orgId: Option<int>,
    stageId: Option<int>,
    status: Option<string>,
    probability: Option<Decimal>,
    expectedCloseDate: Option<string>,
    lostReason: Option<string>,
    visibleTo: Option<string>,
    addTime: Option<string>,
    updateTime: Option<string>,
    customFields: Option<Fields>)

  /** `Deal.builder().build()`: every field null. */
  const EmptyDeal := Deal(None, None, None, None, None, None, None, None, None, None, None, None, None, None, None, None)

  datatype Person = Person(
    id: Option<int>,
    name: Option<string>,
    firstName: Option<string>,
    lastName: Option<string>,
    emails: Option<seq<ContactInfo>>,
    phones: Option<seq<ContactInfo>>,
    orgId: Option<int>,
    ownerId: Option<int>,
    visibleTo: Option<string>,
    addTime: Option<string>,
    updateTime: Option<string>,
    customFields: Option<Fields>)

  /** `Person.builder().build()`: every field null. */
  const EmptyPerson := Person(None, None, None, None, None, None, None, None, None, None, None, None)

  datatype Note = Note(
    id: Option<int>,
    content: Option<string>,
    dealId: Option<int>,
    personId: Option<int>,
    orgId: Option<int>,
    leadId: Option<string>,
    userId: Option<int>,
    addTime: Option<string>,
    updateTime: Option<string>,
    activeFlag: Option<bool>,
    pinnedToDealFlag: Option<bool>,
    pinnedToPersonFlag: Option<bool>,
    pinnedToOrganizationFlag: Option<bool>)

  /** `Note.builder().build()`: every field null. */
  const EmptyNote := Note(None, None, None, None, None, None, None, None, None, None, None, None, None)

  /** The serialised fields of the three records, by the record field they
      come from; `JsonKey` gives the snake_case key Jackson writes. */
  datatype Field =
    | Id | Title | Value | Currency | UserId | PersonId | OrgId | StageId | Status | Probability
    | ExpectedCloseDate | LostReason | VisibleTo | AddTime | UpdateTime | CustomFields
    | Name | FirstName | LastName | Emails | Phones | OwnerId
    | Content | DealId | LeadId | ActiveFlag | PinnedToDealFlag | PinnedToPersonFlag | PinnedToOrganizationFlag

  function JsonKey(f: Field): string
  {
    match f
    case Id => "id"                    case Title => "title"
    case Value => "value"              case Currency => "currency"
    case UserId => "user_id"           case PersonId => "person_id"
    case OrgId => "org_id"             case StageId => "stage_id"
    case Status => "status"            case Probability => "probability"
    case ExpectedCloseDate => "expected_close_date"
    case LostReason => "lost_reason"   case VisibleTo => "visible_to"
    case AddTime => "add_time"         case UpdateTime => "update_time"
    case CustomFields => "custom_fields"
    case Name => "name"                case FirstName => "first_name"
    case LastName => "last_name"       case Emails => "emails"
    case Phones => "phones"            case OwnerId => "owner_id"
    case Content => "content"          case DealId => "deal_id"
    case LeadId => "lead_id"           case ActiveFlag => "active_flag"
    case PinnedToDealFlag => "pinned_to_deal_flag"
    case PinnedToPersonFlag => "pinned_to_person_flag"
    case PinnedToOrganizationFlag => "pinned_to_organization_flag"
  }

  /** Whether a field of a deal is non-null. The DTOs are annotated
      `@JsonInclude(NON_NULL)`, so these are the keys the JSON carries. */
  predicate DealHas(d: Deal, f: Field)
  {
    match f
    case Id => d.id.Some?
    case Title => d.title.Some?
    case Value => d.value.Some?
    case Currency => d.currency.Some?
    case UserId => d.userId.Some?
    case PersonId => d.personId.Some?
    case OrgId => d.orgId.Some?
    case StageId => d.stageId.Some?
    case Status => d.status.Some?
    case Probability => d.probability.Some?
    case ExpectedCloseDate => d.expectedCloseDate.Some?
    case LostReason => d.lostReason.Some?
    case VisibleTo => d.visibleTo.Some?
    case AddTime => d.addTime.Some?
    case UpdateTime => d.updateTime.Some?
    case CustomFields => d.customFields.Some?
    case _ => false
  }

  const DealFields := {Id, Title, Value, Currency, UserId, PersonId, OrgId, StageId, Status, Probability,
                       ExpectedCloseDate, LostReason, VisibleTo, AddTime, UpdateTime, CustomFields}

  /** The keys a serialised deal carries. */
  function DealKeys(d: Deal): set<Field>
  {
    set f | f in DealFields && DealHas(d, f)
  }

  predicate PersonHas(p: Person, f: Field)
  {
    match f
    case Id => p.id.Some?
    case Name => p.name.Some?
    case FirstName => p.firstName.Some?
    case LastName => p.lastName.Some?
    case Emails => p.emails.Some?
    case Phones => p.phones.Some?
    case OrgId => p.orgId.Some?
    case OwnerId => p.ownerId.Some?
    case VisibleTo => p.visibleTo.Some?
    case AddTime => p.addTime.Some?
    case UpdateTime => p.updateTime.Some?
    case CustomFields => p.customFields.Some?
    case _ => false
  }

  const PersonFields := {Id, Name, FirstName, LastName, Emails, Phones, OrgId, OwnerId, VisibleTo,
                         AddTime, UpdateTime, CustomFields}

  function PersonKeys(p: Person): set<Field>
  {
    set f | f in PersonFields && PersonHas(p, f)
  }

  predicate NoteHas(n: Note, f: Field)
  {
    match f
    case Id => n.id.Some?
    case Content => n.content.Some?
    case DealId => n.dealId.Some?
    case PersonId => n.personId.Some?
    case OrgId => n.orgId.Some?
    case LeadId => n.leadId.Some?
    case UserId => n.userId.Some?
    case AddTime => n.addTime.Some?
    case UpdateTime => n.updateTime.Some?
    case ActiveFlag => n.activeFlag.Some?
    case PinnedToDealFlag => n.pinnedToDealFlag.Some?
    case PinnedToPersonFlag => n.pinnedToPersonFlag.Some?
    case PinnedToOrganizationFlag => n.pinnedToOrganizationFlag.Some?
    case _ => false
  }

  const NoteFields := {Id, Content, DealId, PersonId, OrgId, LeadId, UserId, AddTime, UpdateTime,
                       ActiveFlag, PinnedToDealFlag, PinnedToPersonFlag, PinnedToOrganizationFlag}

  function NoteKeys(n: Note): set<Field>
  {
    set f | f in NoteFields && NoteHas(n, f)
  }

  /** A decoded `PipedriveResponse<T>`; `success` is a nullable `Boolean`. */
  datatype Envelope<+T> = Envelope(success: Option<bool>, data: Option<T>, error: Option<string>, errorInfo: Option<string>)

  datatype HttpMethod = GET | POST | PUT | DELETE

  /** One call of `client.get/post/put(path, body, ...)` made by a task. */
  datatype ApiCall<+B> = ApiCall(verb: HttpMethod, path: string, body: Option<B>)
}
