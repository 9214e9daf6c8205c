// A response as a reader who sees no names may read it.
module ReaderProjection {
  import opened Common
  import Text

  // Which response classes the projection treats on their own.
  datatype Kind = Plain | DirectoryItem | FeedItem | FlowScope

  datatype Value =
    | Null
    | Str(s: string)
    | EnumStr(s: string)
    | Number(n: int)
    | Flag(b: bool)
    | List(items: seq<Value>)
    | Dict(entries: map<string, Value>)
    | Model(kind: Kind, fields: map<string, Value>)

  // The members' stand-ins, by id and by display name, and the rewriting of
  // free text, of which nothing is assumed.
  datatype Words = Words(labels: map<string, string>, byName: map<string, string>, say: string -> string)

  const UNKNOWN_PERSON := "a team member"
  const SMALL_GROUP := 5

  predicate IsIdField(name: string) {
    name in {"changed_by", "set_by", "asked_by", "asked_to", "by", "created_by", "signed_by",
             "owner_id", "dismissed_by", "decided_by", "updated_by"}
  }

  predicate IsNameField(name: string) {
    name in {"changed_by_name", "set_by_name", "asked_by_name", "asked_to_name", "by_name", "created_by_name",
             "updated_by_name", "person_name", "assignee_name", "owner_name", "author_name", "developer_name"}
  }

  // The field that holds the id of the person a name field names.
  function IdBeside(name: string): Option<string> {
    match name
    case "changed_by_name" => Some("changed_by")
    case "set_by_name" => Some("set_by")
    case "asked_by_name" => Some("asked_by")
    case "asked_to_name" => Some("asked_to")
    case "by_name" => Some("by")
    case "created_by_name" => Some("created_by")
    case "updated_by_name" => Some("updated_by")
    case "assignee_name" => Some("assignee_id")
    case "owner_name" => Some("owner_id")
    case "developer_name" => Some("developer_id")
    case _ => None
  }

  predicate IsNameMap(name: string) {
    name in {"actor_names", "source_names"}
  }

  predicate IsLeftOut(name: string) {
    name in {"owner_status_summary", "owner_status_source", "owner_status_as_of", "owner_says"}
  }

  // ------------------------------------------------------------ words

  predicate IsPerson(words: Words, s: string) {
    s != "" && (s in words.labels || s in words.byName)
  }

  function NameLabel(words: Words, candidate: Option<string>): Option<string> {
    if candidate.Some? && candidate.value != "" && Text.Clean(candidate.value) in words.byName
    then Some(words.byName[Text.Clean(candidate.value)]) else None
  }

  function Label(words: Words, person: Option<string>, name: Option<string>): string {
    if person.Some? && person.value != "" && person.value in words.labels then words.labels[person.value]
    else if NameLabel(words, name).Some? then NameLabel(words, name).value
    else if NameLabel(words, person).Some? then NameLabel(words, person).value
    else UNKNOWN_PERSON
  }

  function StandIns(words: Words): set<string> {
    words.labels.Values + words.byName.Values + {UNKNOWN_PERSON}
  }

  lemma LabelIsStandIn(words: Words, person: Option<string>, name: Option<string>)
    ensures Label(words, person, name) in StandIns(words)
  {
  }

  function AsStr(v: Value): Option<string> {
    if v.Str? then Some(v.s) else None
  }

  function Get(fields: map<string, Value>, key: string): Option<string> {
    if key in fields then AsStr(fields[key]) else None
  }

  // ------------------------------------------------------------ one field

  function PairId(name: string, siblings: map<string, Value>): Option<string> {
    if IdBeside(name).Some? then Get(siblings, IdBeside(name).value) else None
  }

  // A string under a field name.
  function StringField(name: string, s: string, siblings: map<string, Value>, words: Words): string {
    if IsIdField(name) then (if IsPerson(words, s) then Label(words, Some(s), None) else s)
    else if IsNameField(name) then Label(words, PairId(name, siblings), Some(s))
    else words.say(s)
  }

  function MapEntry(key: string, item: Value, words: Words): Value {
    if IsPerson(words, key) then Str(Label(words, Some(key), AsStr(item)))
    else if item.Str? then Str(words.say(item.s))
    else item
  }

  function Field(name: string, value: Value, siblings: map<string, Value>, words: Words): Value
    decreases value, 2
  {
    if IsLeftOut(name) then Null
    else
      match value
      case Model(_, _) => ProjectModel(value, words)
      case List(_) => ProjectList(name, value, siblings, words)
      case Dict(_) => ProjectDict(name, value, siblings, words)
      case Str(s) => Str(StringField(name, s, siblings, words))
      case _ => value
  }

  function ProjectList(name: string, value: Value, siblings: map<string, Value>, words: Words): Value
    requires value.List?
    decreases value, 0
  {
    List(seq(|value.items|, i requires 0 <= i < |value.items| => Field(name, value.items[i], siblings, words)))
  }

  function ProjectDict(name: string, value: Value, siblings: map<string, Value>, words: Words): Value
    requires value.Dict?
    decreases value, 0
  {
    Dict(map k | k in value.entries ::
      if IsNameMap(name) then MapEntry(k, value.entries[k], words) else Field(name, value.entries[k], siblings, words))
  }

  function ProjectModel(value: Value, words: Words): Value
    requires value.Model?
    decreases value, 1
  {
    match value.kind
    case DirectoryItem => Model(DirectoryItem, DirectoryFields(value.fields, words))
    case FeedItem => Model(FeedItem, map k | k in value.fields :: EventField(value, k, words))
    case FlowScope => Model(FlowScope, SmallCountHidden(ProjectFields(value, words)))
    case Plain => Model(Plain, ProjectFields(value, words))
  }

  function ProjectFields(value: Value, words: Words): map<string, Value>
    requires value.Model?
    decreases value, 0
  {
    map k | k in value.fields :: Field(k, value.fields[k], value.fields, words)
  }

  // A feed event's field, once _feed_item has said its people and dropped a
  // person's reference.
  function EventField(item: Value, k: string, words: Words): Value
    requires item.Model? && k in item.fields
    decreases item, 0
  {
    var fields, event := item.fields, FeedFields(item.fields, words);
    if k == "details" && fields[k].Dict? then
      var details := FeedDetails(fields[k].entries, words);
      Dict(map d | d in fields[k].entries ::
        if fields[k].entries[d].Str? then Str(words.say(details[d].s))
        else Field(k, fields[k].entries[d], event, words))
    else if k == "entity_ref" && AboutAPerson(fields) then Null
    else Field(k, fields[k], event, words)
  }

  // That is the plain projection of the copied item's fields.
  lemma EventFieldIsFieldOfTheCopy(item: Value, k: string, words: Words)
    requires item.Model? && k in item.fields
    ensures var event := FeedFields(item.fields, words);
            && event.Keys == item.fields.Keys
            && EventField(item, k, words) == Field(k, event[k], event, words)
  {
    hide Label, IsIdField, IsNameField, IdBeside, SaidFor;
    var fields, event := item.fields, FeedFields(item.fields, words);
    if k == "details" && fields[k].Dict? {
      assert !IsNameMap(k) && !IsLeftOut(k);
      DetailsOfTheCopy(fields[k].entries, event, words);
    }
  }

  lemma DetailsOfTheCopy(entries: map<string, Value>, event: map<string, Value>, words: Words)
    ensures var details := FeedDetails(entries, words);
            forall d :: d in entries ==>
              Field("details", details[d], event, words)
              == if entries[d].Str? then Str(words.say(details[d].s)) else Field("details", entries[d], event, words)
  {
    hide Label, IdBeside, SaidFor;
  }

  function ForReader(model: Value, words: Option<Words>): Value
    requires model.Model?
  {
    if words.None? then model else Field("", model, map[], words.value)
  }

  // ------------------------------------------------------------ feed events

  const FEED_PEOPLE: seq<(string, string)> :=
    [("reporter_id", "reporter_name"), ("referenced_person_id", "referenced_person_name")]

  // Which of those people a detail key belongs to; 2 for none.
  function PersonOf(key: string): nat {
    if key == "reporter_id" || key == "reporter_name" then 0
    else if key == "referenced_person_id" || key == "referenced_person_name" then 1
    else 2
  }

  function SaidFor(details: map<string, Value>, words: Words, key: string): Option<string> {
    var i := PersonOf(key);
    if i < 2 then Some(Label(words, Get(details, FEED_PEOPLE[i].0), Get(details, FEED_PEOPLE[i].1))) else None
  }

  lemma PeopleAreSaid(details: map<string, Value>, words: Words, key: string)
    ensures SaidFor(details, words, key).Some? <==> PersonOf(key) < 2
  {
  }

  function FeedDetails(details: map<string, Value>, words: Words): (r: map<string, Value>)
    ensures r.Keys == details.Keys
    ensures forall k :: k in details ==> (details[k].Str? <==> r[k].Str?) && (!details[k].Str? ==> r[k] == details[k])
  {
    map k | k in details ::
      if details[k].Str? && SaidFor(details, words, k).Some? then Str(SaidFor(details, words, k).value) else details[k]
  }

  predicate AboutAPerson(fields: map<string, Value>) {
    && "entity_ref" in fields && fields["entity_ref"].Model?
    && "kind" in fields["entity_ref"].fields && fields["entity_ref"].fields["kind"] == EnumStr("developer")
  }

  // _feed_item, as a copy of the item's fields
  function FeedFields(fields: map<string, Value>, words: Words): map<string, Value> {
    var details := if "details" in fields && fields["details"].Dict?
                   then fields["details" := Dict(FeedDetails(fields["details"].entries, words))]
                   else fields;
    if AboutAPerson(fields) then details["entity_ref" := Null] else details
  }

  function SmallCountHidden(fields: map<string, Value>): map<string, Value> {
    if "member_count" in fields && fields["member_count"].Number? && fields["member_count"].n < SMALL_GROUP
    then fields["member_count" := Null] else fields
  }

  // ------------------------------------------------------------ directory items

  datatype Contact = Contact(chatKey: string, nameKey: string, memberKey: string, role: string)

  const CONTACTS: seq<Contact> := [
    Contact("escalation_sm_chat_external_id", "escalation_sm_display_name", "escalation_sm_member_id",
            "the scrum master"),
    Contact("escalation_manager_chat_external_id", "escalation_manager_display_name", "escalation_manager_member_id",
            "the manager")]

  const PERSON_METADATA_KEYS := ["owner_id", "tpm_id", "sm_id"]

  predicate IsSet(metadata: map<string, Value>, key: string) {
    key in metadata && metadata[key].Str? && Text.Strip(metadata[key].s) != ""
  }

  predicate HasContact(metadata: map<string, Value>, c: Contact) {
    IsSet(metadata, c.chatKey) || IsSet(metadata, c.nameKey) || IsSet(metadata, c.memberKey)
  }

  function Said(v: Value, words: Words): Value {
    if v.Str? then Str(words.say(v.s)) else Null
  }

  predicate NamesAPerson(v: Value, words: Words) {
    v.Str? && IsPerson(words, Text.Clean(v.s))
  }

  function Lookup(metadata: map<string, Value>, key: string): Option<Value> {
    if key in metadata then Some(metadata[key]) else None
  }

  // What the first n contacts leave under a key: the ids go, and the name is
  // the role when there is such a contact.
  function WithContacts(metadata: map<string, Value>, n: nat, key: string): Option<Value>
    requires n <= |CONTACTS|
  {
    if n == 0 then Lookup(metadata, key)
    else
      var c := CONTACTS[n - 1];
      if key == c.chatKey || key == c.memberKey then None
      else if key == c.nameKey && HasContact(metadata, c) then Some(Str(c.role))
      else WithContacts(metadata, n - 1, key)
  }

  function WithoutPeople(metadata: map<string, Value>, key: string): Option<Value> {
    if key in PERSON_METADATA_KEYS then None else WithContacts(metadata, |CONTACTS|, key)
  }

  function Seen(v: Value, words: Words, key: string): Option<Value> {
    if NamesAPerson(v, words) then None
    else if key == "description" then Some(Said(v, words))
    else Some(v)
  }

  function SeenAt(metadata: map<string, Value>, words: Words, key: string): Option<Value> {
    var kept := WithoutPeople(metadata, key);
    if kept.Some? then Seen(kept.value, words, key) else None
  }

  function SeenMetadata(metadata: map<string, Value>, words: Words): map<string, Value> {
    map key | key in metadata.Keys + {CONTACTS[0].nameKey, CONTACTS[1].nameKey} && SeenAt(metadata, words, key).Some?
      :: SeenAt(metadata, words, key).value
  }

  function DirectoryFields(fields: map<string, Value>, words: Words): map<string, Value> {
    var metadata := if "metadata" in fields && fields["metadata"].Dict? then fields["metadata"].entries else map[];
    fields["description" := if "description" in fields then Said(fields["description"], words) else Null]
          ["metadata" := Dict(SeenMetadata(metadata, words))]
          ["member_ids" := List([])]
          ["people" := List([])]
  }

  // ------------------------------------------------------------ the loops

  method FeedDetailsOf(item: map<string, Value>, words: Words) returns (details: map<string, Value>)
    ensures details == FeedDetails(item, words)
  {
    hide Label, PersonOf;
    EveryPersonSaid();
    details := item;
    for i := 0 to |FEED_PEOPLE|
      invariant details.Keys == item.Keys
      invariant forall k :: k in item ==>
                  details[k] == if PersonOf(k) < i then FeedDetails(item, words)[k] else item[k]
    {
      var idKey, nameKey := FEED_PEOPLE[i].0, FEED_PEOPLE[i].1;
      ghost var before := details;
      OnlyTheirKeys(i, idKey, nameKey);
      var person, named := Get(details, idKey), Get(details, nameKey);
      var said := Label(words, person, named);
      assert person == Get(item, idKey) && named == Get(item, nameKey);
      if person.Some? {
        details := details[idKey := Str(said)];
      }
      if named.Some? {
        details := details[nameKey := Str(said)];
      }
      forall k | k in item
        ensures details[k] == if PersonOf(k) < i + 1 then FeedDetails(item, words)[k] else item[k]
      {
        assert k == idKey || k == nameKey || (PersonOf(k) != i && details[k] == before[k]);
      }
    }
  }

  lemma EveryPersonSaid()
    ensures forall k :: 0 <= PersonOf(k) <= |FEED_PEOPLE|
  {
  }

  lemma OnlyTheirKeys(i: nat, idKey: string, nameKey: string)
    requires i < |FEED_PEOPLE| && FEED_PEOPLE[i] == (idKey, nameKey)
    ensures idKey != nameKey
    ensures forall k :: PersonOf(k) == i <==> k == idKey || k == nameKey
  {
  }

  method DirectoryMetadata(metadata: map<string, Value>, words: Words) returns (kept: map<string, Value>)
    ensures kept == SeenMetadata(metadata, words)
  {
    hide WithContacts, HasContact, NamesAPerson, Seen, Said, SeenMetadata;
    kept := metadata;
    NoContactsYet(metadata);
    for i := 0 to |CONTACTS|
      invariant forall key :: Lookup(kept, key) == WithContacts(metadata, i, key)
    {
      var c := CONTACTS[i];
      var hasContact := HasContact(kept, c);
      OneMoreContact(metadata, kept, i);
      kept := kept - {c.chatKey, c.memberKey};
      if hasContact {
        kept := kept[c.nameKey := Str(c.role)];
      }
    }
    for i := 0 to |PERSON_METADATA_KEYS|
      invariant forall key :: Lookup(kept, key) ==
                  if key in PERSON_METADATA_KEYS[..i] then None else WithContacts(metadata, |CONTACTS|, key)
    {
      ghost var before := kept;
      kept := kept - {PERSON_METADATA_KEYS[i]};
      assert PERSON_METADATA_KEYS[..i + 1] == PERSON_METADATA_KEYS[..i] + [PERSON_METADATA_KEYS[i]];
      assert forall key :: Lookup(kept, key) == if key == PERSON_METADATA_KEYS[i] then None else Lookup(before, key);
    }
    kept := LastLoop(kept, metadata, words);
  }

  // The last loop: a person under any key goes, and a description is said.
  method LastLoop(people: map<string, Value>, ghost metadata: map<string, Value>, words: Words)
    returns (kept: map<string, Value>)
    requires forall key :: Lookup(people, key) == WithoutPeople(metadata, key)
    ensures kept == SeenMetadata(metadata, words)
  {
    hide WithoutPeople, NamesAPerson, Said, SeenMetadata;
    kept := people;
    var todo := kept.Keys;
    while todo != {}
      invariant todo <= people.Keys
      invariant forall key :: Lookup(kept, key) ==
                  if key in people && key !in todo then Seen(people[key], words, key) else Lookup(people, key)
      decreases todo
    {
      var key :| key in todo;
      todo := todo - {key};
      assert Lookup(kept, key) == Lookup(people, key);
      var value := kept[key];
      if NamesAPerson(value, words) {
        kept := kept - {key};
      } else if key == "description" {
        kept := kept[key := Said(value, words)];
      }
    }
    forall key
      ensures Lookup(kept, key) == SeenAt(metadata, words, key)
    {
      assert Lookup(people, key) == WithoutPeople(metadata, key);
    }
    SameLookups(kept, metadata, words);
  }

  lemma NoContactsYet(metadata: map<string, Value>)
    ensures forall key :: WithContacts(metadata, 0, key) == Lookup(metadata, key)
  {
  }

  lemma OneMoreContact(metadata: map<string, Value>, kept: map<string, Value>, i: nat)
    requires i < |CONTACTS|
    requires forall key :: Lookup(kept, key) == WithContacts(metadata, i, key)
    ensures var c := CONTACTS[i];
            var without := kept - {c.chatKey, c.memberKey};
            var after := if HasContact(kept, c) then without[c.nameKey := Str(c.role)] else without;
            forall key :: Lookup(after, key) == WithContacts(metadata, i + 1, key)
  {
    ContactKeysApart(metadata, kept, i);
    hide HasContact;
    var c := CONTACTS[i];
    var without := kept - {c.chatKey, c.memberKey};
    var after := if HasContact(kept, c) then without[c.nameKey := Str(c.role)] else without;
    forall key
      ensures Lookup(after, key) == WithContacts(metadata, i + 1, key)
    {
      assert Lookup(kept, key) == WithContacts(metadata, i, key);
    }
  }

  // No contact's keys are another's, so each is judged on the metadata given.
  lemma ContactKeysApart(metadata: map<string, Value>, kept: map<string, Value>, i: nat)
    requires i < |CONTACTS|
    requires forall key :: Lookup(kept, key) == WithContacts(metadata, i, key)
    ensures HasContact(kept, CONTACTS[i]) == HasContact(metadata, CONTACTS[i])
  {
    var c := CONTACTS[i];
    forall key | key == c.chatKey || key == c.nameKey || key == c.memberKey
      ensures IsSet(kept, key) == IsSet(metadata, key)
    {
      assert Lookup(kept, key) == WithContacts(metadata, i, key) == Lookup(metadata, key);
    }
  }

  lemma OnlyKnownKeys(metadata: map<string, Value>, key: string)
    ensures WithContacts(metadata, 2, key).Some? ==> key in metadata.Keys + {CONTACTS[0].nameKey, CONTACTS[1].nameKey}
  {
    assert WithContacts(metadata, 0, key).Some? ==> key in metadata;
    assert WithContacts(metadata, 1, key).Some? ==> key in metadata || key == CONTACTS[0].nameKey;
  }

  lemma SameLookups(kept: map<string, Value>, metadata: map<string, Value>, words: Words)
    requires forall key :: Lookup(kept, key) == SeenAt(metadata, words, key)
    ensures kept == SeenMetadata(metadata, words)
  {
    var seen := SeenMetadata(metadata, words);
    forall key
      ensures Lookup(kept, key) == Lookup(seen, key)
    {
      OnlyKnownKeys(metadata, key);
      assert Lookup(kept, key) == SeenAt(metadata, words, key);
    }
    assert forall key :: key in kept <==> Lookup(kept, key).Some?;
    assert forall key :: key in seen <==> Lookup(seen, key).Some?;
  }
}
