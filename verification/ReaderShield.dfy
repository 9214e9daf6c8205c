// What no projected response holds, at any depth.
module ReaderShield {
  import opened Common
  import opened ReaderProjection
  import opened ReaderHiding
  import Text

  // Left-out fields are null; an id or name field holds a stand-in or nobody;
  // any other text has been said; a map of names says its people; an event
  // about a person has no reference and says the people in its details; a
  // small scope has no count; a directory item lists nobody and its metadata
  // names nobody.
  ghost predicate Shielded(name: string, v: Value, words: Words)
    decreases v, 1
  {
    if IsLeftOut(name) then v.Null?
    else
      match v
      case Model(_, _) => ShieldedModel(v, words)
      case List(items) => forall i :: 0 <= i < |items| ==> Shielded(name, items[i], words)
      case Dict(entries) =>
        forall k :: k in entries ==>
          if IsNameMap(name) then
            if IsPerson(words, k) then entries[k].Str? && entries[k].s in StandIns(words)
            else entries[k].Str? ==> IsSpoken(entries[k].s, words)
          else Shielded(name, entries[k], words)
      case Str(s) =>
        && (IsIdField(name) ==> !IsPerson(words, s) || s in StandIns(words))
        && (IsNameField(name) && !IsIdField(name) ==> s in StandIns(words))
        && (!IsNameField(name) && !IsIdField(name) ==> IsSpoken(s, words))
      case _ => true
  }

  ghost predicate ShieldedModel(v: Value, words: Words)
    requires v.Model?
    decreases v, 0
  {
    if v.kind.DirectoryItem? then ShieldedDirectory(v.fields, words)
    else
      && (forall k :: k in v.fields ==> Shielded(k, v.fields[k], words))
      && (v.kind.FlowScope? && "member_count" in v.fields && v.fields["member_count"].Number? ==>
            v.fields["member_count"].n >= SMALL_GROUP)
      && (v.kind.FeedItem? ==> ShieldedEvent(v.fields, words))
  }

  ghost predicate ShieldedEvent(fields: map<string, Value>, words: Words) {
    && !AboutAPerson(fields)
    && ("details" in fields && fields["details"].Dict? ==>
          forall d :: d in fields["details"].entries && PersonOf(d) < 2 && fields["details"].entries[d].Str? ==>
            IsSaid(fields["details"].entries[d].s, words))
  }

  // What `say` makes of some text.
  ghost predicate IsSpoken(s: string, words: Words) {
    exists t :: words.say(t) == s
  }

  ghost predicate IsSaid(s: string, words: Words) {
    exists w :: w in StandIns(words) && s == words.say(w)
  }

  ghost predicate ShieldedDirectory(fields: map<string, Value>, words: Words) {
    && {"member_ids", "people", "metadata", "description"} <= fields.Keys
    && fields["member_ids"] == List([]) && fields["people"] == List([])
    && (fields["description"].Str? ==> IsSpoken(fields["description"].s, words))
    && fields["metadata"].Dict?
    && var metadata := fields["metadata"].entries;
    && (forall key :: key in metadata && key != "description" ==> !NamesAPerson(metadata[key], words))
    && ("description" in metadata && metadata["description"].Str? ==> IsSpoken(metadata["description"].s, words))
    && (forall c :: c in CONTACTS ==> c.chatKey !in metadata && c.memberKey !in metadata)
    && (forall key :: key in PERSON_METADATA_KEYS ==> key !in metadata)
  }

  lemma DirectoryShielded(fields: map<string, Value>, words: Words)
    ensures ShieldedDirectory(DirectoryFields(fields, words), words)
  {
    var metadata := Metadata(fields);
    var seen := SeenMetadata(metadata, words);
    forall key
      ensures key in seen ==> SeenAt(metadata, words, key) == Some(seen[key])
      ensures key in seen && key != "description" ==> !NamesAPerson(seen[key], words)
    {
    }
    forall c | c in CONTACTS
      ensures c.chatKey !in seen && c.memberKey !in seen
    {
      BothContacts(metadata, c.chatKey);
      BothContacts(metadata, c.memberKey);
    }
  }

  // A contact's name key holds its role exactly when one of the contact's
  // three keys was set (and no member goes by the role's own words).
  lemma ContactIsNamedByRole(metadata: map<string, Value>, words: Words, c: Contact)
    requires c in CONTACTS
    ensures var seen := SeenMetadata(metadata, words);
            (c.nameKey in seen && seen[c.nameKey] == Str(c.role))
            <==> HasContact(metadata, c) && !IsPerson(words, Text.Clean(c.role))
  {
    hide Text.Strip, Text.Clean, IsPerson, WithContacts;
    var seen := SeenMetadata(metadata, words);
    RolesAreTrimmed(c);
    assert c == CONTACTS[0] || c == CONTACTS[1];
    BothContacts(metadata, c.nameKey);
    OnlyKnownKeys(metadata, c.nameKey);
  }

  lemma RolesAreTrimmed(c: Contact)
    requires c in CONTACTS
    ensures Text.Strip(c.role) == c.role && c.role != ""
  {
    hide Text.Strip;
    assert c == CONTACTS[0] || c == CONTACTS[1];
    assert Text.Trimmed("the scrum master") && Text.Trimmed("the manager");
  }

  // ------------------------------------------------------------ every depth

  lemma {:induction false} ProjectionShields(name: string, v: Value, siblings: map<string, Value>, words: Words)
    ensures Shielded(name, Field(name, v, siblings, words), words)
    decreases v, 2
  {
    hide IsIdField, IsNameField, IdBeside, IsNameMap, IsLeftOut, Label, StandIns, ProjectModel, IsPerson;
    if !IsLeftOut(name) {
      match v
      case Model(_, _) => ModelShielded(v, words);
      case List(items) =>
        forall i | 0 <= i < |items|
          ensures Shielded(name, Field(name, items[i], siblings, words), words)
        {
          ProjectionShields(name, items[i], siblings, words);
        }
      case Dict(entries) =>
        forall k | k in entries && !IsNameMap(name)
          ensures Shielded(name, Field(name, entries[k], siblings, words), words)
        {
          ProjectionShields(name, entries[k], siblings, words);
        }
        forall k | k in entries && IsNameMap(name) && IsPerson(words, k)
          ensures MapEntry(k, entries[k], words).Str? && MapEntry(k, entries[k], words).s in StandIns(words)
        {
          LabelIsStandIn(words, Some(k), AsStr(entries[k]));
        }
        forall k | k in entries && IsNameMap(name) && !IsPerson(words, k) && MapEntry(k, entries[k], words).Str?
          ensures IsSpoken(MapEntry(k, entries[k], words).s, words)
        {
        }
        assert Field(name, v, siblings, words) == ProjectDict(name, v, siblings, words);
      case Str(s) =>
        LabelIsStandIn(words, Some(s), None);
        LabelIsStandIn(words, PairId(name, siblings), Some(s));
      case _ =>
    }
  }

  lemma {:induction false} ModelShielded(v: Value, words: Words)
    requires v.Model?
    ensures ProjectModel(v, words).Model? && ShieldedModel(ProjectModel(v, words), words)
    decreases v, 1
  {
    hide IsIdField, IsNameField, IdBeside, IsNameMap, IsLeftOut, Label, StandIns, IsPerson;
    var fields := v.fields;
    if v.kind.DirectoryItem? {
      DirectoryShielded(fields, words);
    } else if v.kind.FeedItem? {
      forall k | k in fields
        ensures Shielded(k, EventField(v, k, words), words)
      {
        EventFieldShielded(v, k, words);
      }
      EventShielded(v, words);
    } else {
      forall k | k in fields
        ensures Shielded(k, Field(k, fields[k], fields, words), words)
      {
        ProjectionShields(k, fields[k], fields, words);
      }
    }
  }

  lemma {:induction false} EventFieldShielded(v: Value, k: string, words: Words)
    requires v.Model? && k in v.fields
    ensures Shielded(k, EventField(v, k, words), words)
    decreases v, 0
  {
    var fields, event := v.fields, FeedFields(v.fields, words);
    if k == "details" && fields[k].Dict? {
      assert !IsLeftOut(k) && !IsIdField(k) && !IsNameField(k) && !IsNameMap(k);
      hide IsIdField, IsNameField, IdBeside, IsNameMap, IsLeftOut, Label, StandIns, IsPerson, Field, FeedFields;
      var entries := fields[k].entries;
      forall d | d in entries && !entries[d].Str?
        ensures Shielded(k, Field(k, entries[d], event, words), words)
      {
        ProjectionShields(k, entries[d], event, words);
      }
    } else if !(k == "entity_ref" && AboutAPerson(fields)) {
      hide Field, Shielded;
      ProjectionShields(k, fields[k], event, words);
    }
  }

  // What the projection cannot turn a value into.
  lemma ShapesPass(name: string, v: Value, siblings: map<string, Value>, words: Words)
    ensures var p := Field(name, v, siblings, words);
            && (p.EnumStr? ==> v == p) && (p.Str? ==> v.Str?) && (p.Model? ==> v.Model? && p == ProjectModel(v, words))
            && (p.Dict? ==> v.Dict?)
  {
    hide DirectoryFields, EventField, ProjectFields, StringField, SmallCountHidden;
  }

  // A reference's kind is an enum, and enums pass unchanged.
  lemma KindPasses(e: Value, words: Words, x: string)
    requires e.Model? && "kind" in ProjectModel(e, words).fields && ProjectModel(e, words).fields["kind"] == EnumStr(x)
    ensures "kind" in e.fields && e.fields["kind"] == EnumStr(x)
  {
    hide Field, SeenMetadata, FeedFields;
    if "kind" in e.fields {
      ShapesPass("kind", e.fields["kind"], e.fields, words);
      ShapesPass("kind", e.fields["kind"], FeedFields(e.fields, words), words);
    }
  }

  lemma EventShielded(v: Value, words: Words)
    requires v.Model? && v.kind.FeedItem?
    ensures ShieldedEvent(ProjectModel(v, words).fields, words)
  {
    hide Field, FeedFields, StandIns, Label;
    var fields, event := v.fields, FeedFields(v.fields, words);
    var out := ProjectModel(v, words).fields;
    if "entity_ref" in fields && !AboutAPerson(fields) {
      ShapesPass("entity_ref", fields["entity_ref"], event, words);
      assert out["entity_ref"] == EventField(v, "entity_ref", words);
      assert out["entity_ref"] == Field("entity_ref", fields["entity_ref"], event, words);
      if AboutAPerson(out) {
        KindPasses(fields["entity_ref"], words, "developer");
      }
    }
    if "details" in fields {
      DetailsShielded(v, words);
    }
  }

  lemma DetailsShielded(v: Value, words: Words)
    requires v.Model? && "details" in v.fields
    ensures var p := EventField(v, "details", words);
            p.Dict? ==> forall d :: d in p.entries && PersonOf(d) < 2 && p.entries[d].Str? ==>
                          IsSaid(p.entries[d].s, words)
  {
    hide Field, FeedFields, StandIns, Label, FeedDetails;
    var fields, event := v.fields, FeedFields(v.fields, words);
    ShapesPass("details", fields["details"], event, words);
    var p := EventField(v, "details", words);
    if p.Dict? {
      var entries := fields["details"].entries;
      forall d | d in p.entries && PersonOf(d) < 2 && p.entries[d].Str?
        ensures IsSaid(p.entries[d].s, words)
      {
        ShapesPass("details", entries[d], event, words);
        PersonSaid(entries, words, d);
      }
    }
  }

  lemma PersonSaid(entries: map<string, Value>, words: Words, d: string)
    requires d in entries && entries[d].Str? && PersonOf(d) < 2
    ensures FeedDetails(entries, words)[d].Str? && FeedDetails(entries, words)[d].s in StandIns(words)
  {
    var i := PersonOf(d);
    LabelIsStandIn(words, Get(entries, FEED_PEOPLE[i].0), Get(entries, FEED_PEOPLE[i].1));
  }

  // No named id field in v, at any depth, holds a member's id or name.
  ghost predicate NoMember(name: string, v: Value, words: Words)
    decreases v
  {
    IsLeftOut(name) ||
    match v
    case Model(kind, fields) =>
      if kind.DirectoryItem? then ShieldedDirectory(fields, words)
      else forall k :: k in fields ==> NoMember(k, fields[k], words)
    case List(items) => forall i :: 0 <= i < |items| ==> NoMember(name, items[i], words)
    case Dict(entries) => IsNameMap(name) || forall k :: k in entries ==> NoMember(name, entries[k], words)
    case Str(s) => IsIdField(name) ==> !IsPerson(words, s)
    case _ => true
  }

  lemma {:induction false} ShieldedHoldsNoMember(name: string, v: Value, words: Words)
    requires Shielded(name, v, words)
    requires forall w :: w in StandIns(words) ==> !IsPerson(words, w)
    ensures NoMember(name, v, words)
    decreases v
  {
    hide IsIdField, IsNameField, IsNameMap, IsLeftOut, StandIns, IsPerson, ShieldedDirectory, ShieldedEvent, IsSpoken;
    if !IsLeftOut(name) {
      match v
      case Model(kind, fields) =>
        if !kind.DirectoryItem? {
          forall k | k in fields
            ensures NoMember(k, fields[k], words)
          {
            ShieldedHoldsNoMember(k, fields[k], words);
          }
        }
      case List(items) =>
        forall i | 0 <= i < |items|
          ensures NoMember(name, items[i], words)
        {
          ShieldedHoldsNoMember(name, items[i], words);
        }
      case Dict(entries) =>
        if !IsNameMap(name) {
          forall k | k in entries
            ensures NoMember(name, entries[k], words)
          {
            ShieldedHoldsNoMember(name, entries[k], words);
          }
        }
      case _ =>
    }
  }

  // When no stand-in is itself a member's id or name, no named id field of a
  // projected response holds one, wherever it sits.
  lemma NoIdSurvives(name: string, v: Value, siblings: map<string, Value>, words: Words)
    requires forall w :: w in StandIns(words) ==> !IsPerson(words, w)
    ensures NoMember(name, Field(name, v, siblings, words), words)
  {
    hide Field, Shielded, NoMember, StandIns, IsPerson;
    ProjectionShields(name, v, siblings, words);
    ShieldedHoldsNoMember(name, Field(name, v, siblings, words), words);
  }
}
