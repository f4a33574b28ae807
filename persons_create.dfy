/** persons/Create.java: create a person from a required name, optional
    ids, and email and phone lists given as maps (new-style task). */
module PersonsCreate {
  import opened Model
  import opened Text
  import opened Client
  import opened TaskCommon
  import opened Contacts

  /** The optional fields; the legacy persons/CreatePerson.java has the same
      list. A configured email or phone list, or custom-field map, always
      renders to a value. */
  datatype Extras = Extras(
    orgId: Prop<int>,
    ownerId: Prop<int>,
    visibleTo: Prop<string>,
    emails: Option<seq<Fields>>,
    phones: Option<seq<Fields>>,
    customFields: Option<Fields>)

  const NoExtras := Extras(Unset, Unset, Unset, None, None, None)

  datatype Config = Config(apiToken: Prop<string>, apiUrl: Prop<string>, name: Prop<string>, extras: Extras)

  datatype Output = Output(personId: Option<int>, addTime: Option<string>, updateTime: Option<string>)

  const NameRequired := "Person name is required"
  const FailurePrefix := "Failed to create person: "

  /** The JSON keys a creation body may carry. */
  const CreatableKeys := {Name, OrgId, OwnerId, VisibleTo, Emails, Phones, CustomFields}

  /** The request body, or the ClassCastException of an email or phone
      entry whose value, primary flag or label has the wrong type. */
  function Body(name: string, x: Extras): (r: Result<Person, TaskError>)
    ensures r.Ok? <==> OptionalConverts(x.emails) && OptionalConverts(x.phones)
    ensures r.Err? ==> r.error == ClassCast
    ensures r.Ok? ==> r.value.name == Some(name) && r.value.id.None?
  {
    var emails := ConvertOptional(x.emails);
    var phones := ConvertOptional(x.phones);
    if emails.Err? || phones.Err? then Err(ClassCast)
    else Ok(Person(id := None, name := Some(name), firstName := None, lastName := None,
                   emails := emails.value, phones := phones.value,
                   orgId := Rendered(x.orgId), ownerId := Rendered(x.ownerId),
                   visibleTo := Rendered(x.visibleTo), addTime := None, updateTime := None,
                   customFields := x.customFields))
  }

  /** The keys of the body: the name always, an id or the visibility exactly
      when it renders to a value, a list or the custom fields exactly when
      configured (an empty list is still sent), and nothing else. */
  lemma BodyKeys(name: string, x: Extras)
    requires Body(name, x).Ok?
    ensures var keys := PersonKeys(Body(name, x).value);
            && keys <= CreatableKeys
            && Name in keys
            && (OrgId in keys <==> Rendered(x.orgId).Some?)
            && (OwnerId in keys <==> Rendered(x.ownerId).Some?)
            && (VisibleTo in keys <==> Rendered(x.visibleTo).Some?)
            && (Emails in keys <==> x.emails.Some?)
            && (Phones in keys <==> x.phones.Some?)
            && (CustomFields in keys <==> x.customFields.Some?)
  {
  }

  /** The ids, the visibility and the custom fields the body carries are the
      configured properties' renderings, each in its own field. */
  lemma BodyValues(name: string, x: Extras)
    requires Body(name, x).Ok?
    ensures var p := Body(name, x).value;
            && p.orgId == Rendered(x.orgId)
            && p.ownerId == Rendered(x.ownerId)
            && p.visibleTo == Rendered(x.visibleTo)
            && p.customFields == x.customFields
  {
  }

  /** The lists the body carries are the configured ones converted entry by
      entry, in order. */
  lemma BodyContacts(name: string, x: Extras)
    requires Body(name, x).Ok?
    ensures var p := Body(name, x).value;
            && (x.emails.Some? ==> p.emails == Some(Converted(x.emails.value))
                                   && |p.emails.value| == |x.emails.value|)
            && (x.phones.Some? ==> p.phones == Some(Converted(x.phones.value))
                                   && |p.phones.value| == |x.phones.value|)
  {
  }

  /** The builder: the name, a setter per rendered id, and one conversion
      loop per configured list; a failed cast abandons the body. */
  method AssembleBody(personName: string, x: Extras) returns (r: Result<Person, TaskError>)
    ensures r == Body(personName, x)
  {
    var rOrgId := Rendered(x.orgId);
    var rOwnerId := Rendered(x.ownerId);
    var rVisibleTo := Rendered(x.visibleTo);
    // `Person.builder().name(personName)`: the name slot set, every other one null
    var name: Option<string> := Some(personName);
    var orgId: Option<int>, ownerId: Option<int>, visibleTo: Option<string> := None, None, None;
    var emails: Option<seq<ContactInfo>>, phones: Option<seq<ContactInfo>> := None, None;
    var customFields: Option<Fields> := None;
    orgId := SetIfPresent(orgId, rOrgId);
    ownerId := SetIfPresent(ownerId, rOwnerId);
    visibleTo := SetIfPresent(visibleTo, rVisibleTo);
    if x.emails.Some? {
      var infos := MapContacts(x.emails.value);
      if infos.Err? {
        return Err(ClassCast);
      }
      emails := Some(infos.value);
    }
    if x.phones.Some? {
      var infos := MapContacts(x.phones.value);
      if infos.Err? {
        return Err(ClassCast);
      }
      phones := Some(infos.value);
    }
    customFields := SetIfPresent(customFields, x.customFields);
    // `build()`
    r := Ok(Person(None, name, None, None, emails, phones, orgId, ownerId, visibleTo, None, None, customFields));
  }

  function Finish(reply: Reply<Person>): (r: Result<Output, TaskError>)
    ensures r.Ok? <==> CheckStrict(reply, FailurePrefix).Ok?
    ensures r.Err? ==> r.error == CheckStrict(reply, FailurePrefix).error
    ensures r.Ok? ==> var p := reply.value.data.value;
                      r.value == Output(p.id, p.addTime, p.updateTime)
  {
    match CheckStrict(reply, FailurePrefix)
    case Err(e) => Err(e)
    case Ok(p) => Ok(Output(p.id, p.addTime, p.updateTime))
  }

  predicate Accepted(cfg: Config)
  {
    Rendered(cfg.apiToken).Some? && Rendered(cfg.name).Some?
  }

  /** `run`, given what `client.post` returns. The client is built once the
      token and the name are there, and try-with-resources closes it on
      every path after that, a failed cast in the builder included; the
      request goes out only when the body could be built. */
  method Run(cfg: Config, reply: Reply<Person>)
    returns (dispatch: Option<Dispatch<Person>>, closed: bool, r: Result<Output, TaskError>)
    ensures Rendered(cfg.apiToken).None? ==> r == Err(IllegalArgument(TokenRequired))
    ensures Rendered(cfg.apiToken).Some? && Rendered(cfg.name).None? ==> r == Err(IllegalArgument(NameRequired))
    ensures closed <==> Accepted(cfg)
    ensures dispatch.Some? <==> Accepted(cfg) && Body(Rendered(cfg.name).value, cfg.extras).Ok?
    ensures Accepted(cfg) && Body(Rendered(cfg.name).value, cfg.extras).Err? ==> r == Err(ClassCast)
    ensures Accepted(cfg) && Body(Rendered(cfg.name).value, cfg.extras).Ok? ==>
              && dispatch.value == Dispatch(RenderApiUrl(cfg.apiUrl), Rendered(cfg.apiToken).value,
                                            ApiCall(POST, "/persons", Some(Body(Rendered(cfg.name).value, cfg.extras).value)))
              && r == Finish(reply)
  {
    dispatch, closed := None, false;
    var token := Require(cfg.apiToken, TokenRequired);
    if token.Err? {
      return dispatch, closed, Err(token.error);
    }
    var base := RenderApiUrl(cfg.apiUrl);
    var name := Require(cfg.name, NameRequired);
    if name.Err? {
      return dispatch, closed, Err(name.error);
    }
    closed := true;
    var person := AssembleBody(name.value, cfg.extras);
    if person.Err? {
      return dispatch, closed, Err(person.error);
    }
    dispatch := Some(Dispatch(base, token.value, ApiCall(POST, "/persons", Some(person.value))));
    r := Finish(reply);
  }

  /** The creation test: organisation 123, visibility "3", one email and one
      phone, each with every key given. */
  lemma CreateScenario(reply: Reply<Person>)
    requires reply == Ok(Envelope(Some(true), Some(EmptyPerson.(id := Some(55), name := Some("Jane Doe"),
                                                                firstName := Some("Jane"), lastName := Some("Doe"),
                                                                addTime := Some("2024-03-01T00:00:00Z"),
                                                                updateTime := Some("2024-03-01T00:00:00Z"))), None, None))
    ensures var email := map["value" := JString("jane.doe@example.com"), "primary" := JBool(true), "label" := JString("work")];
            var phone := map["value" := JString("+1234567890"), "primary" := JBool(true), "label" := JString("mobile")];
            var x := NoExtras.(orgId := Set(Some(123)), visibleTo := Set(Some("3")),
                               emails := Some([email]), phones := Some([phone]));
            var body := Body("Jane Doe", x);
            && body.Ok?
            && PersonKeys(body.value) == {Name, OrgId, VisibleTo, Emails, Phones}
            && body.value.orgId == Some(123)
            && body.value.visibleTo == Some("3")
            && body.value.ownerId.None?
            && body.value.emails == Some([ContactInfo(Some("jane.doe@example.com"), Some(true), Some("work"))])
            && body.value.phones == Some([ContactInfo(Some("+1234567890"), Some(true), Some("mobile"))])
            && Finish(reply) == Ok(Output(Some(55), Some("2024-03-01T00:00:00Z"), Some("2024-03-01T00:00:00Z")))
  {
    ScenarioContacts();
  }

  /** The conversions of the creation test's two contact entries. */
  lemma ScenarioContacts()
    ensures var email := map["value" := JString("jane.doe@example.com"), "primary" := JBool(true), "label" := JString("work")];
            var phone := map["value" := JString("+1234567890"), "primary" := JBool(true), "label" := JString("mobile")];
            && OptionalConverts(Some([email])) && OptionalConverts(Some([phone]))
            && Converted([email]) == [ContactInfo(Some("jane.doe@example.com"), Some(true), Some("work"))]
            && Converted([phone]) == [ContactInfo(Some("+1234567890"), Some(true), Some("mobile"))]
  {
    var email := map["value" := JString("jane.doe@example.com"), "primary" := JBool(true), "label" := JString("work")];
    var phone := map["value" := JString("+1234567890"), "primary" := JBool(true), "label" := JString("mobile")];
    WorkEmailEntry();
    assert ToContact(phone) == Ok(ContactInfo(Some("+1234567890"), Some(true), Some("mobile")));
    assert [email][0] == email && [phone][0] == phone;
    assert Converted([email]) == [ContactInfo(Some("jane.doe@example.com"), Some(true), Some("work"))];
    assert Converted([phone]) == [ContactInfo(Some("+1234567890"), Some(true), Some("mobile"))];
  }

  /** An email entry whose `primary` is not a boolean fails the whole body. */
  lemma WrongPrimaryFails(name: string, v: string)
    ensures Body(name, NoExtras.(emails := Some([map["value" := JString(v), "primary" := JString("yes")]])))
            == Err(ClassCast)
  {
    var entry := map["value" := JString(v), "primary" := JString("yes")];
    assert [entry][0] == entry;
    assert ToContact(entry).Err?;
  }
}
