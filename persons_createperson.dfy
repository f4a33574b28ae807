/** persons/CreatePerson.java: the legacy person creation. It builds the
    body of persons/Create.java, unboxes `success`, and echoes the name and
    the first email of the created person. */
module CreatePerson {
  import opened Model
  import opened Text
  import opened Client
  import opened TaskCommon
  import opened Contacts
  import PersonsCreate

  datatype Config = Config(apiToken: Prop<string>, name: Prop<string>, extras: PersonsCreate.Extras)

  datatype Output = Output(personId: Option<int>, name: Option<string>, email: Option<string>)

  const FailurePrefix := "Failed to create person: "

  /** The builder: the name, a setter per configured id called with its
      rendering or null, and one conversion loop per configured list. It
      gives the body of the new task. */
  method AssembleBody(personName: string, x: PersonsCreate.Extras) returns (r: Result<Person, TaskError>)
    ensures r == PersonsCreate.Body(personName, x)
  {
    // `Person.builder().name(personName)`: the name slot set, every other one null
    var name: Option<string> := Some(personName);
    var orgId: Option<int>, ownerId: Option<int>, visibleTo: Option<string> := None, None, None;
    var emails: Option<seq<ContactInfo>>, phones: Option<seq<ContactInfo>> := None, None;
    var customFields: Option<Fields> := None;
    orgId := SetIfConfigured(orgId, x.orgId);
    ownerId := SetIfConfigured(ownerId, x.ownerId);
    visibleTo := SetIfConfigured(visibleTo, x.visibleTo);
    if x.emails.Some? {
      var infos := MapContacts(x.emails.value);
      if infos.Err? {
        return Err(ClassCast);
      }
      emails := Some(infos.value);
    }
    if x.phones.Some? {
      var infos := MapContacts(x.phones.value);
      if infos.Err? {
        return Err(ClassCast);
      }
      phones := Some(infos.value);
    }
    customFields := SetIfPresent(customFields, x.customFields);
    // `build()`
    r := Ok(Person(None, name, None, None, emails, phones, orgId, ownerId, visibleTo, None, None, customFields));
  }

  function Finish(reply: Reply<Person>): (r: Result<Output, TaskError>)
    ensures r.Ok? <==> CheckUnboxed(reply, FailurePrefix).Ok?
    ensures r.Err? ==> r.error == CheckUnboxed(reply, FailurePrefix).error
    ensures r.Ok? ==> var p := reply.value.data.value;
                      && r.value.personId == p.id && r.value.name == p.name
                      && (p.emails.Some? && |p.emails.value| > 0 ==> r.value.email == p.emails.value[0].value)
                      && (p.emails.None? || p.emails.value == [] ==> r.value.email.None?)
  {
    match CheckUnboxed(reply, FailurePrefix)
    case Err(e) => Err(e)
    case Ok(p) => Ok(Output(p.id, p.name, FirstValue(p.emails)))
  }

  predicate Accepted(cfg: Config)
  {
    Rendered(cfg.apiToken).Some? && Rendered(cfg.name).Some?
  }

  /** `run`, given what `client.post` returns. The client is built once the
      token and the name are there, and `finally` closes it after that. */
  method Run(cfg: Config, reply: Reply<Person>)
    returns (dispatch: Option<Dispatch<Person>>, closed: bool, r: Result<Output, TaskError>)
    ensures Rendered(cfg.apiToken).None? ==> r == Err(IllegalArgument(TokenRequired))
    ensures Rendered(cfg.apiToken).Some? && Rendered(cfg.name).None?
            ==> r == Err(IllegalArgument(PersonsCreate.NameRequired))
    ensures closed <==> Accepted(cfg)
    ensures dispatch.Some? <==> Accepted(cfg) && PersonsCreate.Body(Rendered(cfg.name).value, cfg.extras).Ok?
    ensures Accepted(cfg) && PersonsCreate.Body(Rendered(cfg.name).value, cfg.extras).Err? ==> r == Err(ClassCast)
    ensures Accepted(cfg) && PersonsCreate.Body(Rendered(cfg.name).value, cfg.extras).Ok? ==>
              && dispatch.value == Dispatch(BaseUrl, Rendered(cfg.apiToken).value,
                                            ApiCall(POST, "/persons",
                                                    Some(PersonsCreate.Body(Rendered(cfg.name).value, cfg.extras).value)))
              && r == Finish(reply)
  {
    dispatch, closed := None, false;
    var token := Require(cfg.apiToken, TokenRequired);
    if token.Err? {
      return dispatch, closed, Err(token.error);
    }
    var name := Require(cfg.name, PersonsCreate.NameRequired);
    if name.Err? {
      return dispatch, closed, Err(name.error);
    }
    closed := true;
    var person := AssembleBody(name.value, cfg.extras);
    if person.Err? {
      return dispatch, closed, Err(person.error);
    }
    dispatch := Some(Dispatch(BaseUrl, token.value, ApiCall(POST, "/persons", Some(person.value))));
    r := Finish(reply);
  }

  /** The output's email is the first entry's value when the created person
      comes back with emails, and null when it comes back without. */
  lemma EchoedEmail(p: Person, info: ContactInfo, rest: seq<ContactInfo>)
    ensures Finish(Ok(Envelope(Some(true), Some(p.(emails := Some([info] + rest))), None, None)))
            == Ok(Output(p.id, p.name, info.value))
    ensures Finish(Ok(Envelope(Some(true), Some(p.(emails := None)), None, None)))
            == Ok(Output(p.id, p.name, None))
  {
  }
}
