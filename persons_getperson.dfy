/** persons/GetPerson.java: the legacy person lookup. It sends the request
    of persons/Get.java to the default base URL, unboxes `success`, and
    flattens the person into the output. */
module GetPerson {
  import opened Model
  import opened Text
  import opened Client
  import opened TaskCommon
  import opened Contacts
  import PersonsGet

  datatype Config = Config(apiToken: Prop<string>, personId: Prop<int>)

  datatype Output = Output(personId: Option<int>, name: Option<string>, firstName: Option<string>,
                           lastName: Option<string>, email: Option<string>, phone: Option<string>,
                           orgId: Option<int>, ownerId: Option<int>)

  const FailurePrefix := "Failed to get person: "

  /** The output copy: the scalar fields as they came, and the value of the
      first email and of the first phone, null for a missing or empty list. */
  function Flatten(p: Person): (out: Output)
    ensures out.personId == p.id && out.name == p.name && out.firstName == p.firstName
    ensures out.lastName == p.lastName && out.orgId == p.orgId && out.ownerId == p.ownerId
    ensures p.emails.Some? && |p.emails.value| > 0 ==> out.email == p.emails.value[0].value
    ensures p.emails.None? || p.emails.value == [] ==> out.email.None?
    ensures p.phones.Some? && |p.phones.value| > 0 ==> out.phone == p.phones.value[0].value
    ensures p.phones.None? || p.phones.value == [] ==> out.phone.None?
  {
    Output(p.id, p.name, p.firstName, p.lastName, FirstValue(p.emails), FirstValue(p.phones), p.orgId, p.ownerId)
  }

  function Finish(reply: Reply<Person>): (r: Result<Output, TaskError>)
    ensures r.Ok? <==> CheckUnboxed(reply, FailurePrefix).Ok?
    ensures r.Err? ==> r.error == CheckUnboxed(reply, FailurePrefix).error
    ensures r.Ok? ==> r.value == Flatten(reply.value.data.value)
  {
    match CheckUnboxed(reply, FailurePrefix)
    case Err(e) => Err(e)
    case Ok(p) => Ok(Flatten(p))
  }

  predicate Accepted(cfg: Config)
  {
    Rendered(cfg.apiToken).Some? && Rendered(cfg.personId).Some?
  }

  /** `run`, given what `client.get` returns. The client is built once the
      token and the id are there, and `finally` closes it after that. */
  method Run(cfg: Config, reply: Reply<Person>)
    returns (dispatch: Option<Dispatch<Person>>, closed: bool, r: Result<Output, TaskError>)
    ensures Rendered(cfg.apiToken).None? ==> r == Err(IllegalArgument(TokenRequired))
    ensures Rendered(cfg.apiToken).Some? && Rendered(cfg.personId).None?
            ==> r == Err(IllegalArgument(PersonsGet.PersonIdRequired))
    ensures closed <==> Accepted(cfg)
    ensures dispatch.Some? <==> Accepted(cfg)
    ensures Accepted(cfg) ==>
              && dispatch.value == Dispatch(BaseUrl, Rendered(cfg.apiToken).value,
                                            ApiCall(GET, PersonsGet.PersonPath(Rendered(cfg.personId).value), None))
              && r == Finish(reply)
  {
    dispatch, closed := None, false;
    var token := Require(cfg.apiToken, TokenRequired);
    if token.Err? {
      return dispatch, closed, Err(token.error);
    }
    var id := Require(cfg.personId, PersonsGet.PersonIdRequired);
    if id.Err? {
      return dispatch, closed, Err(id.error);
    }
    dispatch := Some(Dispatch(BaseUrl, token.value, ApiCall(GET, PersonsGet.PersonPath(id.value), None)));
    r := Finish(reply);
    closed := true;
  }

  /** Both generations accept the same responses; on success the legacy
      output carries the person that persons/Get.java returns under
      FETCH_ONE, flattened. */
  lemma SameAcceptedPerson(reply: Reply<Person>, stored: PersonsGet.Stored)
    ensures Finish(reply).Ok? <==> PersonsGet.Finish(reply, PersonsGet.FetchOne, stored).Ok?
    ensures Finish(reply).Ok? ==> PersonsGet.Finish(reply, PersonsGet.FetchOne, stored).value.person
                                  == Some(reply.value.data.value)
                                  && Finish(reply).value == Flatten(reply.value.data.value)
  {
    SuccessChecksCompared(reply, FailurePrefix);
  }
}
