/** The conversion of the configured email and phone maps into
    `Person.EmailInfo` / `Person.PhoneInfo` entries, written out identically
    in persons/Create.java and persons/CreatePerson.java, and the
    first-entry lookup of the legacy person outputs. */
module Contacts {
  import opened Model
  import opened TaskCommon

  /** A `(String)` cast of a map value: null stays null, a string passes, and
      any other value throws ClassCastException. */
  function CastString(v: Scalar): (r: Result<Option<string>, TaskError>)
    ensures r.Ok? <==> v.JString? || v.JNull?
    ensures r.Ok? ==> (r.value.Some? <==> v.JString?)
    ensures v.JString? ==> r == Ok(Some(v.s))
    ensures r.Err? ==> r.error == ClassCast
  {
    match v
    case JString(s) => Ok(Some(s))
    case JNull => Ok(None)
    case _ => Err(ClassCast)
  }

  /** A `(Boolean)` cast of a map value. */
  function CastBool(v: Scalar): (r: Result<Option<bool>, TaskError>)
    ensures r.Ok? <==> v.JBool? || v.JNull?
    ensures r.Ok? ==> (r.value.Some? <==> v.JBool?)
    ensures v.JBool? ==> r == Ok(Some(v.b))
    ensures r.Err? ==> r.error == ClassCast
  {
    match v
    case JBool(b) => Ok(Some(b))
    case JNull => Ok(None)
    case _ => Err(ClassCast)
  }

  /** `m.getOrDefault(key, fallback)`: a key present with a null value yields
      that null, not the fallback. */
  function GetOrDefault(m: Fields, key: string, fallback: Scalar): Scalar
  {
    if key in m then m[key] else fallback
  }

  /** One entry of the email or phone loop: `value` is `get("value")`,
      `primary` defaults to false and `label` to "work" when their key is
      absent. */
  function ToContact(m: Fields): (r: Result<ContactInfo, TaskError>)
    ensures r.Ok? <==> && ("value" in m ==> m["value"].JString? || m["value"].JNull?)
                       && ("primary" in m ==> m["primary"].JBool? || m["primary"].JNull?)
                       && ("label" in m ==> m["label"].JString? || m["label"].JNull?)
    ensures r.Err? ==> r.error == ClassCast
    ensures r.Ok? ==> r.value.value == (if "value" in m && m["value"].JString? then Some(m["value"].s) else None)
    ensures r.Ok? && "primary" !in m ==> r.value.primary == Some(false)
    ensures r.Ok? && "label" !in m ==> r.value.labelName == Some("work")
    ensures r.Ok? && "primary" in m ==> r.value.primary == (if m["primary"].JBool? then Some(m["primary"].b) else None)
    ensures r.Ok? && "label" in m ==> r.value.labelName == (if m["label"].JString? then Some(m["label"].s) else None)
  {
    var value := CastString(if "value" in m then m["value"] else JNull);
    var primary := CastBool(GetOrDefault(m, "primary", JBool(false)));
    var labelName := CastString(GetOrDefault(m, "label", JString("work")));
    if value.Err? || primary.Err? || labelName.Err? then Err(ClassCast)
    else Ok(ContactInfo(value.value, primary.value, labelName.value))
  }

  /** Every entry of the list converts without a cast failure. */
  predicate AllConvert(entries: seq<Fields>)
  {
    forall i :: 0 <= i < |entries| ==> ToContact(entries[i]).Ok?
  }

  /** The converted list, entry by entry and in order. */
  function Converted(entries: seq<Fields>): (infos: seq<ContactInfo>)
    requires AllConvert(entries)
    ensures |infos| == |entries|
    ensures forall i :: 0 <= i < |entries| ==> Ok(infos[i]) == ToContact(entries[i])
  {
    seq(|entries|, i requires 0 <= i < |entries| => ToContact(entries[i]).value)
  }

  /** The `for` loop that appends one converted entry per map to a new
      `ArrayList`; the first failing cast ends it. */
  method MapContacts(entries: seq<Fields>) returns (r: Result<seq<ContactInfo>, TaskError>)
    ensures r.Ok? <==> AllConvert(entries)
    ensures r.Ok? ==> |r.value| == |entries| && r.value == Converted(entries)
    ensures r.Err? ==> r == Err(ClassCast)
  {
    var infos: seq<ContactInfo> := [];
    var i := 0;
    while i < |entries|
      invariant 0 <= i <= |entries|
      invariant |infos| == i
      invariant forall j :: 0 <= j < i ==> Ok(infos[j]) == ToContact(entries[j])
    {
      var info := ToContact(entries[i]);
      if info.Err? {
        return Err(ClassCast);
      }
      infos := infos + [info.value];
      i := i + 1;
    }
    r := Ok(infos);
  }

  /** A list that is not configured, or one whose every entry converts. */
  predicate OptionalConverts(entries: Option<seq<Fields>>)
  {
    entries.Some? ==> AllConvert(entries.value)
  }

  /** `entries` configured or not: a list not configured stays null, a
      configured one is converted. */
  function ConvertOptional(entries: Option<seq<Fields>>): (r: Result<Option<seq<ContactInfo>>, TaskError>)
    ensures entries.None? ==> r == Ok(None)
    ensures r.Ok? <==> OptionalConverts(entries)
    ensures entries.Some? && r.Ok? ==> r.value == Some(Converted(entries.value))
    ensures r.Err? ==> r.error == ClassCast
  {
    match entries
    case None => Ok(None)
    case Some(list) => if AllConvert(list) then Ok(Some(Converted(list))) else Err(ClassCast)
  }

  /** `list != null && !list.isEmpty() ? list.get(0).getValue() : null`. */
  function FirstValue(list: Option<seq<ContactInfo>>): (v: Option<string>)
    ensures list.Some? && |list.value| > 0 ==> v == list.value[0].value
    ensures list.None? || list.value == [] ==> v.None?
  {
    match list
    case Some(infos) => if |infos| > 0 then infos[0].value else None
    case None => None
  }

  /** The entry of the person tests: every key given, so no default applies. */
  lemma WorkEmailEntry()
    ensures ToContact(map["value" := JString("jane.doe@example.com"), "primary" := JBool(true), "label" := JString("work")])
            == Ok(ContactInfo(Some("jane.doe@example.com"), Some(true), Some("work")))
  {
  }

  /** An entry with only a value gets the two defaults. */
  lemma BareValueEntry(v: string)
    ensures ToContact(map["value" := JString(v)]) == Ok(ContactInfo(Some(v), Some(false), Some("work")))
  {
  }

  /** A key present with a null value is not replaced by the default. */
  lemma NullPrimaryIsKept(v: string)
    ensures ToContact(map["value" := JString(v), "primary" := JNull]) == Ok(ContactInfo(Some(v), None, Some("work")))
  {
  }
}
