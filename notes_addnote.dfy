/** notes/AddNote.java: add a note, with required content and optional
    attachments and pin flags (legacy task). */
module AddNote {
  import opened Model
  import opened Text
  import opened Client
  import opened TaskCommon

  /** The attachments and pin flags. */
  datatype Attachments = Attachments(
    dealId: Prop<int>,
    personId: Prop<int>,
    orgId: Prop<int>,
    pinnedToDealFlag: Prop<bool>,
    pinnedToPersonFlag: Prop<bool>,
    pinnedToOrganizationFlag: Prop<bool>)

  const NoAttachments := Attachments(Unset, Unset, Unset, Unset, Unset, Unset)

  datatype Config = Config(apiToken: Prop<string>, content: Prop<string>, attachments: Attachments)

  datatype Output = Output(noteId: Option<int>, content: Option<string>, dealId: Option<int>,
                           personId: Option<int>, orgId: Option<int>)

  const ContentRequired := "Note content is required"
  const FailurePrefix := "Failed to add note: "

  /** The JSON keys a note body may carry. */
  const AddableKeys := {Content, DealId, PersonId, OrgId, PinnedToDealFlag, PinnedToPersonFlag,
                        PinnedToOrganizationFlag}

  /** The request body: the content, the rendered attachments, and each
      configured pin flag with false for one that renders to nothing. */
  function Body(content: string, a: Attachments): (n: Note)
    ensures n.content == Some(content)
    ensures n.id.None? && n.userId.None? && n.leadId.None? && n.activeFlag.None?
  {
    Note(id := None, content := Some(content), dealId := Rendered(a.dealId),
         personId := Rendered(a.personId), orgId := Rendered(a.orgId), leadId := None, userId := None,
         addTime := None, updateTime := None, activeFlag := None,
         pinnedToDealFlag := RenderedElse(a.pinnedToDealFlag, false),
         pinnedToPersonFlag := RenderedElse(a.pinnedToPersonFlag, false),
         pinnedToOrganizationFlag := RenderedElse(a.pinnedToOrganizationFlag, false))
  }

  /** The keys of the body: the content always, an attachment exactly when it
      renders to an id, a pin flag exactly when it is configured, and never
      a server-set field. */
  lemma BodyKeys(content: string, a: Attachments)
    ensures var keys := NoteKeys(Body(content, a));
            && keys <= AddableKeys
            && Content in keys
            && (DealId in keys <==> Rendered(a.dealId).Some?)
            && (PersonId in keys <==> Rendered(a.personId).Some?)
            && (OrgId in keys <==> Rendered(a.orgId).Some?)
            && (PinnedToDealFlag in keys <==> a.pinnedToDealFlag.Set?)
            && (PinnedToPersonFlag in keys <==> a.pinnedToPersonFlag.Set?)
            && (PinnedToOrganizationFlag in keys <==> a.pinnedToOrganizationFlag.Set?)
  {
  }

  /** Each attachment in the body is its property's rendering, and each pin
      flag its rendering with `orElse(false)`. */
  lemma BodyValues(content: string, a: Attachments)
    ensures var n := Body(content, a);
            && n.dealId == Rendered(a.dealId)
            && n.personId == Rendered(a.personId)
            && n.orgId == Rendered(a.orgId)
            && n.pinnedToDealFlag == RenderedElse(a.pinnedToDealFlag, false)
            && n.pinnedToPersonFlag == RenderedElse(a.pinnedToPersonFlag, false)
            && n.pinnedToOrganizationFlag == RenderedElse(a.pinnedToOrganizationFlag, false)
  {
  }

  /** A configured pin flag that renders to nothing is sent as false, not
      left out; one that renders is sent as rendered. */
  lemma EmptyPinIsFalse(content: string, a: Attachments)
    ensures var n := Body(content, a);
            && (a.pinnedToDealFlag == Set(None) ==> n.pinnedToDealFlag == Some(false))
            && (a.pinnedToPersonFlag == Set(None) ==> n.pinnedToPersonFlag == Some(false))
            && (a.pinnedToOrganizationFlag == Set(None) ==> n.pinnedToOrganizationFlag == Some(false))
            && (a.pinnedToDealFlag.Set? && a.pinnedToDealFlag.rendered.Some? ==>
                  n.pinnedToDealFlag == a.pinnedToDealFlag.rendered)
            && (a.pinnedToPersonFlag.Set? && a.pinnedToPersonFlag.rendered.Some? ==>
                  n.pinnedToPersonFlag == a.pinnedToPersonFlag.rendered)
            && (a.pinnedToOrganizationFlag.Set? && a.pinnedToOrganizationFlag.rendered.Some? ==>
                  n.pinnedToOrganizationFlag == a.pinnedToOrganizationFlag.rendered)
  {
  }

  /** The builder: the content, then a setter for each configured property. */
  method AssembleBody(noteContent: string, a: Attachments) returns (note: Note)
    ensures note == Body(noteContent, a)
  {
    // `Note.builder().content(noteContent)`: the content slot set, every other one null
    var content: Option<string> := Some(noteContent);
    var dealId: Option<int>, personId: Option<int>, orgId: Option<int> := None, None, None;
    var pinnedToDealFlag: Option<bool>, pinnedToPersonFlag: Option<bool> := None, None;
    var pinnedToOrganizationFlag: Option<bool> := None;
    dealId := SetIfConfigured(dealId, a.dealId);
    personId := SetIfConfigured(personId, a.personId);
    orgId := SetIfConfigured(orgId, a.orgId);
    pinnedToDealFlag := SetIfConfiguredElse(pinnedToDealFlag, a.pinnedToDealFlag, false);
    pinnedToPersonFlag := SetIfConfiguredElse(pinnedToPersonFlag, a.pinnedToPersonFlag, false);
    pinnedToOrganizationFlag := SetIfConfiguredElse(pinnedToOrganizationFlag, a.pinnedToOrganizationFlag, false);
    // `build()`
    note := Note(None, content, dealId, personId, orgId, None, None, None, None, None,
                 pinnedToDealFlag, pinnedToPersonFlag, pinnedToOrganizationFlag);
  }

  /** Everything after the response: the unboxed success check and the
      output copy. */
  function Finish(reply: Reply<Note>): (r: Result<Output, TaskError>)
    ensures r.Ok? <==> CheckUnboxed(reply, FailurePrefix).Ok?
    ensures r.Err? ==> r.error == CheckUnboxed(reply, FailurePrefix).error
    ensures r.Ok? ==> var n := reply.value.data.value;
                      r.value == Output(n.id, n.content, n.dealId, n.personId, n.orgId)
  {
    match CheckUnboxed(reply, FailurePrefix)
    case Err(e) => Err(e)
    case Ok(n) => Ok(Output(n.id, n.content, n.dealId, n.personId, n.orgId))
  }

  predicate Accepted(cfg: Config)
  {
    Rendered(cfg.apiToken).Some? && Rendered(cfg.content).Some?
  }

  /** `run`, given what `client.post` returns. The token and the content are
      checked before the client is built; `finally` closes it after that. */
  method Run(cfg: Config, reply: Reply<Note>)
    returns (dispatch: Option<Dispatch<Note>>, closed: bool, r: Result<Output, TaskError>)
    ensures Rendered(cfg.apiToken).None? ==> r == Err(IllegalArgument(TokenRequired))
    ensures Rendered(cfg.apiToken).Some? && Rendered(cfg.content).None? ==> r == Err(IllegalArgument(ContentRequired))
    ensures closed <==> Accepted(cfg)
    ensures dispatch.Some? <==> Accepted(cfg)
    ensures Accepted(cfg) ==>
              && dispatch.value == Dispatch(BaseUrl, Rendered(cfg.apiToken).value,
                                            ApiCall(POST, "/notes", Some(Body(Rendered(cfg.content).value, cfg.attachments))))
              && r == Finish(reply)
  {
    dispatch, closed := None, false;
    var token := Require(cfg.apiToken, TokenRequired);
    if token.Err? {
      return dispatch, closed, Err(token.error);
    }
    var content := Require(cfg.content, ContentRequired);
    if content.Err? {
      return dispatch, closed, Err(content.error);
    }
    var note := AssembleBody(content.value, cfg.attachments);
    dispatch := Some(Dispatch(BaseUrl, token.value, ApiCall(POST, "/notes", Some(note))));
    r := Finish(reply);
    closed := true;
  }

  /** A note attached to one deal: the body carries the content and the deal
      id only, and the output echoes the created note. */
  lemma NoteOnDeal(reply: Reply<Note>)
    requires reply == Ok(Envelope(Some(true), Some(EmptyNote.(id := Some(555), content := Some("Test note"),
                                                              dealId := Some(123))), None, None))
    ensures var a := NoAttachments.(dealId := Set(Some(123)));
            && NoteKeys(Body("Test note", a)) == {Content, DealId}
            && Finish(reply) == Ok(Output(Some(555), Some("Test note"), Some(123), None, None))
  {
  }
}
