// What a reader who sees roles still reads: the projection keeps the shape of a
// response and all of it that is no person's, at every depth.
module ReaderShape {
  import opened Common
  import opened ReaderProjection
  import opened ReaderHiding
  import Text

  // ------------------------------------------------------------ what is kept

  // A known id or name is said by its own stand-in, any other id stays, and any
  // other text is what `say` makes of it.
  ghost predicate KeepsString(name: string, s: string, p: string, siblings: map<string, Value>, words: Words) {
    if IsIdField(name) then
      && (s != "" && s in words.labels ==> p == words.labels[s])
      && (s == "" || (s !in words.labels && s !in words.byName) ==> p == s)
    else if IsNameField(name) then SaidByName(PairId(name, siblings), s, p, words)
    else p == words.say(s)
  }

  // The person the id names, else the person the name names, else nobody.
  ghost predicate SaidByName(id: Option<string>, s: string, p: string, words: Words) {
    var known := id.Some? && id.value != "" && id.value in words.labels;
    var named := s != "" && Text.Clean(s) in words.byName;
    && (known ==> p == words.labels[id.value])
    && (!known && named ==> p == words.byName[Text.Clean(s)])
    && (!known && !named && (id.None? || Text.Clean(id.value) !in words.byName) ==> p == "a team member")
  }

  ghost predicate KeepsEntry(id: string, v: Value, p: Value, words: Words) {
    if id != "" && id in words.labels then p == Str(words.labels[id])
    else if id == "" || id !in words.byName then p == if v.Str? then Str(words.say(v.s)) else v
    else p.Str?
  }

  ghost predicate Keeps(name: string, v: Value, p: Value, siblings: map<string, Value>, words: Words)
    decreases v, 2
  {
    if IsLeftOut(name) then p == Null
    else
      match v
      case Model(_, _) => p.Model? && KeepsModel(v, p, words)
      case List(items) =>
        && p.List? && |p.items| == |items|
        && forall i :: 0 <= i < |items| ==> Keeps(name, items[i], p.items[i], siblings, words)
      case Dict(entries) =>
        && p.Dict? && p.entries.Keys == entries.Keys
        && forall k :: k in entries ==>
             if IsNameMap(name) then KeepsEntry(k, entries[k], p.entries[k], words)
             else Keeps(name, entries[k], p.entries[k], siblings, words)
      case Str(s) => p.Str? && KeepsString(name, s, p.s, siblings, words)
      case _ => p == v
  }

  // An event whose subject is a developer.
  predicate AboutADeveloper(fields: map<string, Value>) {
    && "entity_ref" in fields && fields["entity_ref"].Model?
    && "kind" in fields["entity_ref"].fields && fields["entity_ref"].fields["kind"] == EnumStr("developer")
  }

  predicate IsSmallCount(kind: Kind, name: string, v: Value) {
    kind.FlowScope? && name == "member_count" && v.Number? && v.n < 5
  }

  ghost predicate KeepsModel(v: Value, p: Value, words: Words)
    requires v.Model? && p.Model?
    decreases v, 1
  {
    && p.kind == v.kind
    && if v.kind.DirectoryItem? then KeepsDirectory(v.fields, p.fields, words)
       else
         && p.fields.Keys == v.fields.Keys
         && forall k :: k in v.fields ==>
              if IsSmallCount(v.kind, k, v.fields[k]) then p.fields[k] == Null
              else if v.kind.FeedItem? && k == "entity_ref" && AboutADeveloper(v.fields) then p.fields[k] == Null
              else if v.kind.FeedItem? && k == "details" && v.fields[k].Dict? then KeepsDetails(v, p.fields[k], words)
              else Keeps(k, v.fields[k], p.fields[k], v.fields, words)
  }

  const PERSON_DETAILS := {"reporter_id", "reporter_name", "referenced_person_id", "referenced_person_name"}

  ghost predicate KeepsDetails(v: Value, p: Value, words: Words)
    requires v.Model? && "details" in v.fields && v.fields["details"].Dict?
    decreases v, 0
  {
    var details := v.fields["details"].entries;
    && p.Dict? && p.entries.Keys == details.Keys
    && forall d :: d in details ==>
         if details[d].Str? then
           && p.entries[d].Str?
           && (d !in PERSON_DETAILS ==> p.entries[d].s == words.say(details[d].s))
           && (d == "reporter_id" || d == "reporter_name" ==>
                 SaidInDetail(details, "reporter_id", p.entries[d].s, words))
           && (d == "referenced_person_id" || d == "referenced_person_name" ==>
                 SaidInDetail(details, "referenced_person_id", p.entries[d].s, words))
         else Keeps("details", details[d], p.entries[d], v.fields, words)
  }

  // The person whose id is under the key, said.
  ghost predicate SaidInDetail(details: map<string, Value>, idKey: string, p: string, words: Words) {
    var id := Get(details, idKey);
    id.Some? && id.value != "" && id.value in words.labels ==> p == words.say(words.labels[id.value])
  }

  const PERSON_METADATA := {
    "owner_id", "tpm_id", "sm_id",
    "escalation_sm_chat_external_id", "escalation_sm_member_id",
    "escalation_manager_chat_external_id", "escalation_manager_member_id"}

  const CONTACT_NAMES := {"escalation_sm_display_name", "escalation_manager_display_name"}

  // All of a directory item but its people: its metadata keeps every entry
  // that is under no person's key and names nobody.
  ghost predicate KeepsDirectory(f: map<string, Value>, p: map<string, Value>, words: Words) {
    && p.Keys == f.Keys + {"description", "metadata", "member_ids", "people"}
    && (forall k :: k in f && k !in {"description", "metadata", "member_ids", "people"} ==> p[k] == f[k])
    && p["member_ids"] == List([]) && p["people"] == List([])
    && p["description"] == (if "description" in f && f["description"].Str? then Str(words.say(f["description"].s))
                            else Null)
    && p["metadata"].Dict?
    && KeepsMetadata(Metadata(f), p["metadata"].entries, words)
  }

  ghost predicate KeepsMetadata(m: map<string, Value>, p: map<string, Value>, words: Words) {
    && (forall key :: key in p ==> key !in PERSON_METADATA && (key in m || key in CONTACT_NAMES))
    && (forall key :: key in m && key !in PERSON_METADATA + CONTACT_NAMES && !NamesAPerson(m[key], words) ==>
          && key in p
          && p[key] == if key != "description" then m[key]
                       else if m[key].Str? then Str(words.say(m[key].s)) else Null)
    && (forall key :: key in m && key !in CONTACT_NAMES && NamesAPerson(m[key], words) ==> key !in p)
    && KeepsContact(m, p, "escalation_sm_display_name", "escalation_sm_chat_external_id", "escalation_sm_member_id",
                    "the scrum master", words)
    && KeepsContact(m, p, "escalation_manager_display_name", "escalation_manager_chat_external_id",
                    "escalation_manager_member_id", "the manager", words)
  }

  // A text with something other than space in it.
  ghost predicate IsGiven(m: map<string, Value>, key: string) {
    key in m && m[key].Str? && exists i :: 0 <= i < |m[key].s| && !Text.IsSpace(m[key].s[i])
  }

  lemma GivenIsSet(m: map<string, Value>, key: string)
    ensures IsGiven(m, key) <==> IsSet(m, key)
  {
    if key in m && m[key].Str? {
      NotBlank(m[key].s);
    }
  }

  lemma NotBlank(s: string)
    ensures Text.Strip(s) != "" <==> exists i :: 0 <= i < |s| && !Text.IsSpace(s[i])
  {
    var left := Text.LStrip(s);
    if left != "" {
      assert left[0] == s[|s| - |left|];
    }
  }

  // A contact that is set stays, by role; one that is not leaves its name key alone.
  ghost predicate KeepsContact(m: map<string, Value>, p: map<string, Value>, nameKey: string, chatKey: string,
      memberKey: string, role: string, words: Words)
  {
    if IsGiven(m, chatKey) || IsGiven(m, nameKey) || IsGiven(m, memberKey) then
      !NamesAPerson(Str(role), words) ==> nameKey in p && p[nameKey] == Str(role)
    else
      && (nameKey in m && !NamesAPerson(m[nameKey], words) ==> nameKey in p && p[nameKey] == m[nameKey])
      && (nameKey !in m ==> nameKey !in p)
  }

  // ------------------------------------------------------------ strings and entries

  lemma StringIsKept(name: string, s: string, siblings: map<string, Value>, words: Words)
    ensures KeepsString(name, s, StringField(name, s, siblings, words), siblings, words)
  {
    hide IsIdField, IsNameField, IdBeside, Text.Clean;
  }

  lemma EntryIsKept(id: string, v: Value, words: Words)
    ensures KeepsEntry(id, v, MapEntry(id, v, words), words)
  {
  }

  // ------------------------------------------------------------ directory items

  lemma MetadataIsKept(m: map<string, Value>, words: Words)
    ensures KeepsMetadata(m, SeenMetadata(m, words), words)
  {
    hide NamesAPerson, IsSet, WithContacts;
    var p := SeenMetadata(m, words);
    assert CONTACTS[0] in CONTACTS && CONTACTS[1] in CONTACTS;
    forall key
      ensures key in p ==> key !in PERSON_METADATA && (key in m || key in CONTACT_NAMES)
      ensures key in m && key !in PERSON_METADATA + CONTACT_NAMES && !NamesAPerson(m[key], words) ==>
                && key in p
                && p[key] == if key != "description" then m[key]
                             else if m[key].Str? then Str(words.say(m[key].s)) else Null
      ensures key in m && key !in CONTACT_NAMES && NamesAPerson(m[key], words) ==> key !in p
    {
      OnlyKnownKeys(m, key);
      BothContacts(m, key);
    }
    ContactIsKept(m, words, 0);
    ContactIsKept(m, words, 1);
  }

  lemma ContactIsKept(m: map<string, Value>, words: Words, i: nat)
    requires i < 2
    ensures var c := CONTACTS[i];
            KeepsContact(m, SeenMetadata(m, words), c.nameKey, c.chatKey, c.memberKey, c.role, words)
  {
    hide NamesAPerson, IsSet, IsGiven, WithContacts;
    var c := CONTACTS[i];
    assert c in CONTACTS;
    GivenIsSet(m, c.chatKey);
    GivenIsSet(m, c.nameKey);
    GivenIsSet(m, c.memberKey);
    OnlyKnownKeys(m, c.nameKey);
    BothContacts(m, c.nameKey);
  }

  lemma DirectoryIsKept(fields: map<string, Value>, words: Words)
    ensures KeepsDirectory(fields, DirectoryFields(fields, words), words)
  {
    hide SeenMetadata, KeepsMetadata;
    MetadataIsKept(Metadata(fields), words);
  }

  // ------------------------------------------------------------ every depth

  // Whatever is projected keeps its shape and all that names nobody.
  lemma {:induction false} ProjectionKeeps(name: string, v: Value, siblings: map<string, Value>, words: Words)
    ensures Keeps(name, v, Field(name, v, siblings, words), siblings, words)
    decreases v, 3
  {
    hide IsIdField, IsNameField, IdBeside, IsNameMap, IsLeftOut, Label, ProjectModel, StringField, MapEntry;
    hide KeepsString, KeepsEntry, KeepsModel;
    if !IsLeftOut(name) {
      match v
      case Model(_, _) => ModelIsKept(v, words);
      case List(items) =>
        forall i | 0 <= i < |items|
          ensures Keeps(name, items[i], Field(name, items[i], siblings, words), siblings, words)
        {
          ProjectionKeeps(name, items[i], siblings, words);
        }
      case Dict(entries) =>
        forall k | k in entries
          ensures KeepsEntry(k, entries[k], MapEntry(k, entries[k], words), words)
          ensures Keeps(name, entries[k], Field(name, entries[k], siblings, words), siblings, words)
        {
          EntryIsKept(k, entries[k], words);
          ProjectionKeeps(name, entries[k], siblings, words);
        }
      case Str(s) => StringIsKept(name, s, siblings, words);
      case _ =>
    }
  }

  lemma {:induction false} ModelIsKept(v: Value, words: Words)
    requires v.Model?
    ensures ProjectModel(v, words).Model? && KeepsModel(v, ProjectModel(v, words), words)
    decreases v, 2
  {
    hide IsIdField, IsNameField, IdBeside, IsNameMap, IsLeftOut, Label, Field, Keeps, EventField, KeepsDirectory;
    hide KeepsDetails, DirectoryFields;
    if v.kind.DirectoryItem? {
      DirectoryIsKept(v.fields, words);
    } else if v.kind.FeedItem? {
      forall k | k in v.fields
        ensures EventFieldKept(v, k, EventField(v, k, words), words)
      {
        EventFieldIsKept(v, k, words);
      }
    } else {
      forall k | k in v.fields
        ensures Keeps(k, v.fields[k], Field(k, v.fields[k], v.fields, words), v.fields, words)
      {
        ProjectionKeeps(k, v.fields[k], v.fields, words);
      }
      if "member_count" in v.fields {
        CountPasses(v.fields["member_count"], v.fields, words);
      }
    }
  }

  lemma CountPasses(v: Value, siblings: map<string, Value>, words: Words)
    ensures var p := Field("member_count", v, siblings, words);
            (v.Number? ==> p == v) && (p.Number? ==> v == p)
  {
    hide DirectoryFields, EventField, ProjectFields, StringField, SmallCountHidden;
  }

  ghost predicate EventFieldKept(v: Value, k: string, p: Value, words: Words)
    requires v.Model? && k in v.fields
    decreases v, 2
  {
    if k == "entity_ref" && AboutADeveloper(v.fields) then p == Null
    else if k == "details" && v.fields[k].Dict? then KeepsDetails(v, p, words)
    else Keeps(k, v.fields[k], p, v.fields, words)
  }

  lemma {:induction false} EventFieldIsKept(v: Value, k: string, words: Words)
    requires v.Model? && k in v.fields
    ensures EventFieldKept(v, k, EventField(v, k, words), words)
    decreases v, 1
  {
    hide Field, Keeps, FeedFields, KeepsDetails;
    if k == "details" && v.fields[k].Dict? {
      DetailsAreKept(v, words);
    } else {
      EventKeepsPairs(v.fields, words);
      OnlyPairsMatter(k, v.fields[k], FeedFields(v.fields, words), v.fields, words);
      ProjectionKeeps(k, v.fields[k], v.fields, words);
    }
  }

  lemma {:induction false} DetailsAreKept(v: Value, words: Words)
    requires v.Model? && "details" in v.fields && v.fields["details"].Dict?
    ensures KeepsDetails(v, EventField(v, "details", words), words)
    decreases v, 0
  {
    hide Field, Keeps, FeedFields;
    var details, event := v.fields["details"].entries, FeedFields(v.fields, words);
    forall d | d in details && !details[d].Str?
      ensures Keeps("details", details[d], Field("details", details[d], event, words), v.fields, words)
    {
      EventKeepsPairs(v.fields, words);
      OnlyPairsMatter("details", details[d], event, v.fields, words);
      ProjectionKeeps("details", details[d], v.fields, words);
    }
  }

  // A response keeps all that when it is sent to a reader who sees roles, and
  // is sent as it is to any other.
  lemma ResponseIsKept(model: Value, words: Option<Words>)
    requires model.Model?
    ensures words.None? ==> ForReader(model, words) == model
    ensures words.Some? ==> ForReader(model, words).Model? && KeepsModel(model, ForReader(model, words), words.value)
  {
    hide KeepsModel, ProjectModel;
    if words.Some? {
      ModelIsKept(model, words.value);
    }
  }

  // ------------------------------------------------------------ nothing to hide

  // No field is left out, no string is a person's and `say` has nothing to say.
  ghost predicate NamesNobody(name: string, v: Value, words: Words)
    decreases v, 1
  {
    && !IsLeftOut(name)
    && match v
       case Model(_, _) => ModelNamesNobody(v, words)
       case List(items) => forall i :: 0 <= i < |items| ==> NamesNobody(name, items[i], words)
       case Dict(entries) =>
         forall k :: k in entries ==>
           if IsNameMap(name) then !IsPerson(words, k) && IsSaidAlready(entries[k], words)
           else NamesNobody(name, entries[k], words)
       case Str(s) => if IsIdField(name) then !IsPerson(words, s) else !IsNameField(name) && words.say(s) == s
       case _ => true
  }

  ghost predicate IsSaidAlready(v: Value, words: Words) {
    v.Str? ==> words.say(v.s) == v.s
  }

  ghost predicate ModelNamesNobody(v: Value, words: Words)
    requires v.Model?
    decreases v, 0
  {
    if v.kind.DirectoryItem? then DirectoryNamesNobody(v.fields, words)
    else
      && (forall k :: k in v.fields ==> NamesNobody(k, v.fields[k], words) && !IsSmallCount(v.kind, k, v.fields[k]))
      && (v.kind.FeedItem? ==>
            && !AboutADeveloper(v.fields)
            && ("details" in v.fields && v.fields["details"].Dict? ==>
                  forall d :: d in v.fields["details"].entries && v.fields["details"].entries[d].Str? ==>
                    d !in PERSON_DETAILS))
  }

  ghost predicate DirectoryNamesNobody(fields: map<string, Value>, words: Words) {
    && {"description", "metadata", "member_ids", "people"} <= fields.Keys
    && fields["member_ids"] == List([]) && fields["people"] == List([])
    && (fields["description"].Str? || fields["description"].Null?) && IsSaidAlready(fields["description"], words)
    && fields["metadata"].Dict?
    && forall key :: key in fields["metadata"].entries ==>
         && key !in PERSON_METADATA + CONTACT_NAMES
         && !NamesAPerson(fields["metadata"].entries[key], words)
         && (key == "description" ==>
               && (fields["metadata"].entries[key].Str? || fields["metadata"].entries[key].Null?)
               && IsSaidAlready(fields["metadata"].entries[key], words))
  }

  lemma KeptDirectoryIsSame(f: map<string, Value>, p: map<string, Value>, words: Words)
    requires KeepsDirectory(f, p, words) && DirectoryNamesNobody(f, words)
    ensures p == f
  {
    hide NamesAPerson;
    var m, q := f["metadata"].entries, p["metadata"].entries;
    assert m == Metadata(f);
    forall c | c in CONTACT_NAMES
      ensures c !in q
    {
      assert !IsGiven(m, c);
    }
    assert q.Keys == m.Keys;
    assert q == m;
    assert p.Keys == f.Keys;
  }

  // A response that names nobody and has nothing to leave out is read as it is.
  lemma {:induction false} KeptIsSame(name: string, v: Value, p: Value, siblings: map<string, Value>, words: Words)
    requires Keeps(name, v, p, siblings, words) && NamesNobody(name, v, words)
    ensures p == v
    decreases v, 2
  {
    hide IsIdField, IsNameField, IdBeside, IsNameMap, IsLeftOut, Text.Clean, KeepsModel, ModelNamesNobody;
    match v
    case Model(_, _) => KeptModelIsSame(v, p, words);
    case List(items) =>
      forall i | 0 <= i < |items|
        ensures p.items[i] == items[i]
      {
        KeptIsSame(name, items[i], p.items[i], siblings, words);
      }
    case Dict(entries) =>
      forall k | k in entries
        ensures p.entries[k] == entries[k]
      {
        if !IsNameMap(name) {
          KeptIsSame(name, entries[k], p.entries[k], siblings, words);
        }
      }
    case _ =>
  }

  lemma {:induction false} KeptModelIsSame(v: Value, p: Value, words: Words)
    requires v.Model? && p.Model? && KeepsModel(v, p, words) && ModelNamesNobody(v, words)
    ensures p == v
    decreases v, 1
  {
    hide KeepsDirectory, DirectoryNamesNobody, Keeps, NamesNobody, KeepsDetails;
    if v.kind.DirectoryItem? {
      KeptDirectoryIsSame(v.fields, p.fields, words);
    } else {
      forall k | k in v.fields
        ensures p.fields[k] == v.fields[k]
      {
        if v.kind.FeedItem? && k == "details" && v.fields[k].Dict? {
          KeptDetailsAreSame(v, p.fields[k], words);
        } else {
          KeptIsSame(k, v.fields[k], p.fields[k], v.fields, words);
        }
      }
    }
  }

  lemma {:induction false} KeptDetailsAreSame(v: Value, p: Value, words: Words)
    requires v.Model? && v.kind.FeedItem? && ModelNamesNobody(v, words)
    requires "details" in v.fields && v.fields["details"].Dict? && KeepsDetails(v, p, words)
    ensures p == v.fields["details"]
    decreases v, 0
  {
    hide Keeps;
    var details := v.fields["details"].entries;
    assert !IsNameMap("details") && !IsIdField("details") && !IsNameField("details");
    assert NamesNobody("details", v.fields["details"], words);
    forall d | d in details
      ensures p.entries[d] == details[d]
    {
      if !details[d].Str? {
        KeptIsSame("details", details[d], p.entries[d], v.fields, words);
      }
    }
  }

  lemma NobodysResponseIsReadAsItIs(name: string, v: Value, siblings: map<string, Value>, words: Words)
    requires NamesNobody(name, v, words)
    ensures Field(name, v, siblings, words) == v
  {
    ProjectionKeeps(name, v, siblings, words);
    hide *;
    KeptIsSame(name, v, Field(name, v, siblings, words), siblings, words);
  }

  // ------------------------------------------------------------ the fields that hold people

  // Which field names the person a name field shows.
  const NAMED_BY: map<string, string> := map[
    "changed_by_name" := "changed_by", "set_by_name" := "set_by", "asked_by_name" := "asked_by",
    "asked_to_name" := "asked_to", "by_name" := "by", "created_by_name" := "created_by",
    "updated_by_name" := "updated_by", "assignee_name" := "assignee_id", "owner_name" := "owner_id",
    "developer_name" := "developer_id"]

  lemma OwnStatusIsLeftOut(name: string, v: Value, siblings: map<string, Value>, words: Words)
    requires name in {"owner_status_summary", "owner_status_source", "owner_status_as_of", "owner_says"}
    ensures Field(name, v, siblings, words) == Null
  {
  }

  // A member's id is said by the member's stand-in wherever an id is shown.
  lemma MembersAreSaid(name: string, id: string, siblings: map<string, Value>, words: Words)
    requires name in {"changed_by", "set_by", "asked_by", "asked_to", "by", "created_by", "signed_by", "owner_id",
                      "dismissed_by", "decided_by", "updated_by"}
    requires id != "" && id in words.labels
    ensures Field(name, Str(id), siblings, words) == Str(words.labels[id])
  {
  }

  // A name is said by the stand-in of the person whose id is beside it.
  lemma NamesAreSaidById(name: string, shown: string, id: string, siblings: map<string, Value>, words: Words)
    requires name in NAMED_BY && NAMED_BY[name] in siblings && siblings[NAMED_BY[name]] == Str(id)
    requires id != "" && id in words.labels
    ensures Field(name, Str(shown), siblings, words) == Str(words.labels[id])
  {
    assert !IsIdField(name) && !IsLeftOut(name) && IsNameField(name) && PairId(name, siblings) == Some(id);
  }

  // Where no id is beside it, by the name itself, however it is spaced.
  lemma NamesAreSaidByName(name: string, shown: string, siblings: map<string, Value>, words: Words)
    requires name in {"person_name", "author_name"} && shown != ""
    ensures Text.Clean(shown) in words.byName ==>
              Field(name, Str(shown), siblings, words) == Str(words.byName[Text.Clean(shown)])
    ensures Text.Clean(shown) !in words.byName ==> Field(name, Str(shown), siblings, words) == Str("a team member")
  {
    hide Text.Clean;
    assert !IsIdField(name) && !IsLeftOut(name) && IsNameField(name) && PairId(name, siblings) == None;
  }

  lemma NameMapsAreSaid(name: string, entries: map<string, Value>, id: string, siblings: map<string, Value>,
      words: Words)
    requires name in {"actor_names", "source_names"} && id in entries && id != "" && id in words.labels
    ensures var p := Field(name, Dict(entries), siblings, words);
            p.Dict? && id in p.entries && p.entries[id] == Str(words.labels[id])
  {
    assert IsNameMap(name) && !IsLeftOut(name);
  }
}
