// What the projection promises of two responses: which differences between
// them a reader cannot see.
module ReaderHiding {
  import opened Common
  import opened ReaderProjection

  // ------------------------------------------------------------ indistinguishable responses

  // Two strings under one field: the same id, or two members with one
  // stand-in; two names whose people have one stand-in; or two texts that
  // say the same.
  ghost predicate SameString(name: string, s: string, t: string, sa: map<string, Value>,
      sb: map<string, Value>, words: Words) {
    if IsIdField(name) then
      || s == t
      || (IsPerson(words, s) && IsPerson(words, t) && Label(words, Some(s), None) == Label(words, Some(t), None))
    else if IsNameField(name) then
      Label(words, PairId(name, sa), Some(s)) == Label(words, PairId(name, sb), Some(t))
    else words.say(s) == words.say(t)
  }

  // Two entries of a map of ids to names, under one id.
  ghost predicate SameNamed(id: string, a: Value, b: Value, words: Words) {
    if IsPerson(words, id) then Label(words, Some(id), AsStr(a)) == Label(words, Some(id), AsStr(b))
    else if a.Str? then b.Str? && words.say(a.s) == words.say(b.s)
    else a == b
  }

  predicate NoCount(v: Value) {
    v.Null? || (v.Number? && v.n < SMALL_GROUP)
  }

  // A metadata value that is passed on as it is.
  predicate Shows(metadata: map<string, Value>, words: Words, key: string) {
    && key in metadata
    && key !in PERSON_METADATA_KEYS
    && !NamesAPerson(metadata[key], words)
    && forall c :: c in CONTACTS ==>
         key != c.chatKey && key != c.memberKey && (key == c.nameKey ==> !HasContact(metadata, c))
  }

  ghost predicate SameSaid(a: Value, b: Value, words: Words) {
    if a.Str? then b.Str? && words.say(a.s) == words.say(b.s) else !b.Str?
  }

  ghost predicate SameMetadata(a: map<string, Value>, b: map<string, Value>, words: Words) {
    && (forall c :: c in CONTACTS ==> HasContact(a, c) == HasContact(b, c))
    && (forall key :: Shows(a, words, key) <==> Shows(b, words, key))
    && (forall key :: Shows(a, words, key) ==>
          if key == "description" then SameSaid(a[key], b[key], words) else a[key] == b[key])
  }

  function Metadata(fields: map<string, Value>): map<string, Value> {
    if "metadata" in fields && fields["metadata"].Dict? then fields["metadata"].entries else map[]
  }

  const PEOPLE_FIELDS := {"description", "metadata", "member_ids", "people"}

  // Members, people and whatever else its metadata names may all differ.
  ghost predicate SameDirectory(a: map<string, Value>, b: map<string, Value>, words: Words) {
    && (forall k :: k !in PEOPLE_FIELDS ==> Lookup(a, k) == Lookup(b, k))
    && SameSaid(if "description" in a then a["description"] else Null,
                if "description" in b then b["description"] else Null, words)
    && SameMetadata(Metadata(a), Metadata(b), words)
  }

  ghost predicate Same(name: string, a: Value, b: Value, sa: map<string, Value>, sb: map<string, Value>, words: Words)
    decreases a, 2
  {
    || IsLeftOut(name)
    || match a
       case Model(_, _) => b.Model? && SameModel(a, b, words)
       case List(xs) =>
         b.List? && |xs| == |b.items| && forall i :: 0 <= i < |xs| ==> Same(name, xs[i], b.items[i], sa, sb, words)
       case Dict(ea) =>
         && b.Dict? && ea.Keys == b.entries.Keys
         && forall k :: k in ea ==>
              if IsNameMap(name) then SameNamed(k, ea[k], b.entries[k], words)
              else Same(name, ea[k], b.entries[k], sa, sb, words)
       case Str(s) => b.Str? && SameString(name, s, b.s, sa, sb, words)
       case _ => a == b
  }

  ghost predicate SameModel(a: Value, b: Value, words: Words)
    requires a.Model? && b.Model?
    decreases a, 1
  {
    var fa, fb := a.fields, b.fields;
    && a.kind == b.kind
    && if a.kind.DirectoryItem? then SameDirectory(fa, fb, words)
       else
         && fa.Keys == fb.Keys
         && (a.kind.FeedItem? ==> AboutAPerson(fa) == AboutAPerson(fb))
         && forall k :: k in fa ==>
              || (a.kind.FlowScope? && k == "member_count" && NoCount(fa[k]) && NoCount(fb[k]))
              || (a.kind.FeedItem? && k == "entity_ref" && AboutAPerson(fa))
              || if a.kind.FeedItem? && k == "details" && fa[k].Dict? then SameDetails(a, b, words)
                 else Same(k, fa[k], fb[k], fa, fb, words)
  }

  ghost predicate SameDetails(a: Value, b: Value, words: Words)
    requires a.Model? && b.Model? && "details" in a.fields && "details" in b.fields && a.fields["details"].Dict?
    decreases a, 0
  {
    var fa, fb := a.fields, b.fields;
    && fb["details"].Dict?
    && var da, db := fa["details"].entries, fb["details"].entries;
    && da.Keys == db.Keys
    && forall d :: d in da ==>
         if da[d].Str? then SameDetail(da, db, d, words) else Same("details", da[d], db[d], fa, fb, words)
  }

  // Two details under one key: the same person in effect, or the same said.
  ghost predicate SameDetail(a: map<string, Value>, b: map<string, Value>, d: string, words: Words)
    requires d in a && d in b && a[d].Str?
  {
    && b[d].Str?
    && if PersonOf(d) < 2 then SaidFor(a, words, d) == SaidFor(b, words, d) else words.say(a[d].s) == words.say(b[d].s)
  }

  // ------------------------------------------------------------ what is looked up beside a field

  ghost predicate SamePairs(sa: map<string, Value>, sb: map<string, Value>) {
    forall name :: PairId(name, sa) == PairId(name, sb)
  }

  lemma {:induction false} OnlyPairsMatter(name: string, v: Value, sa: map<string, Value>,
      sb: map<string, Value>, words: Words)
    requires SamePairs(sa, sb)
    ensures Field(name, v, sa, words) == Field(name, v, sb, words)
    decreases v
  {
    hide IsIdField, IsNameField, IdBeside, IsNameMap, IsLeftOut, Label;
    match v
    case List(items) =>
      forall i | 0 <= i < |items|
        ensures Field(name, items[i], sa, words) == Field(name, items[i], sb, words)
      {
        OnlyPairsMatter(name, items[i], sa, sb, words);
      }
    case Dict(entries) =>
      forall k | k in entries
        ensures Field(name, entries[k], sa, words) == Field(name, entries[k], sb, words)
      {
        OnlyPairsMatter(name, entries[k], sa, sb, words);
      }
    case Str(s) => assert PairId(name, sa) == PairId(name, sb);
    case _ =>
  }

  lemma EventKeepsPairs(fields: map<string, Value>, words: Words)
    ensures SamePairs(FeedFields(fields, words), fields)
  {
  }

  // ------------------------------------------------------------ directory items

  lemma BothContacts(m: map<string, Value>, key: string)
    ensures WithContacts(m, |CONTACTS|, key) ==
            if exists c :: c in CONTACTS && (key == c.chatKey || key == c.memberKey) then None
            else if key == CONTACTS[0].nameKey && HasContact(m, CONTACTS[0]) then Some(Str(CONTACTS[0].role))
            else if key == CONTACTS[1].nameKey && HasContact(m, CONTACTS[1]) then Some(Str(CONTACTS[1].role))
            else Lookup(m, key)
  {
    assert CONTACTS[0] in CONTACTS && CONTACTS[1] in CONTACTS;
    assert forall c :: c in CONTACTS ==> c == CONTACTS[0] || c == CONTACTS[1];
    assert WithContacts(m, 0, key) == Lookup(m, key);
    assert WithContacts(m, 1, key) ==
           if key == CONTACTS[0].chatKey || key == CONTACTS[0].memberKey then None
           else if key == CONTACTS[0].nameKey && HasContact(m, CONTACTS[0]) then Some(Str(CONTACTS[0].role))
           else Lookup(m, key);
  }

  lemma SeenAtShown(m: map<string, Value>, words: Words, key: string)
    ensures SeenAt(m, words, key) ==
            if Shows(m, words, key) then Some(if key == "description" then Said(m[key], words) else m[key])
            else if key == CONTACTS[0].nameKey && HasContact(m, CONTACTS[0]) then
              Seen(Str(CONTACTS[0].role), words, key)
            else if key == CONTACTS[1].nameKey && HasContact(m, CONTACTS[1]) then
              Seen(Str(CONTACTS[1].role), words, key)
            else None
  {
    BothContacts(m, key);
    hide WithContacts, HasContact, NamesAPerson;
    assert CONTACTS[0] in CONTACTS && CONTACTS[1] in CONTACTS;
    assert forall c :: c in CONTACTS ==> c == CONTACTS[0] || c == CONTACTS[1];
  }

  lemma SameMetadataSeenAlike(a: map<string, Value>, b: map<string, Value>, words: Words)
    requires SameMetadata(a, b, words)
    ensures SeenMetadata(a, words) == SeenMetadata(b, words)
  {
    var sa, sb := SeenMetadata(a, words), SeenMetadata(b, words);
    assert CONTACTS[0] in CONTACTS && CONTACTS[1] in CONTACTS;
    forall key
      ensures Lookup(sa, key) == Lookup(sb, key)
    {
      SeenAtShown(a, words, key);
      SeenAtShown(b, words, key);
      OnlyKnownKeys(a, key);
      OnlyKnownKeys(b, key);
    }
    assert forall key :: key in sa <==> Lookup(sa, key).Some?;
    assert forall key :: key in sb <==> Lookup(sb, key).Some?;
    assert forall key :: key in sa ==> sa[key] == Lookup(sa, key).value;
  }

  lemma SameDirectorySeenAlike(a: map<string, Value>, b: map<string, Value>, words: Words)
    requires SameDirectory(a, b, words)
    ensures DirectoryFields(a, words) == DirectoryFields(b, words)
  {
    SameMetadataSeenAlike(Metadata(a), Metadata(b), words);
    var da, db := DirectoryFields(a, words), DirectoryFields(b, words);
    forall k
      ensures Lookup(da, k) == Lookup(db, k)
    {
      assert k !in PEOPLE_FIELDS ==> Lookup(da, k) == Lookup(a, k) && Lookup(db, k) == Lookup(b, k);
    }
    assert forall k :: k in da <==> Lookup(da, k).Some?;
    assert forall k :: k in db <==> Lookup(db, k).Some?;
    assert forall k :: k in da ==> da[k] == Lookup(da, k).value;
  }

  // ------------------------------------------------------------ hiding

  // The reader cannot tell such responses apart, whatever the members'
  // stand-ins are and whatever the rewriting of text does.
  lemma {:induction false} ReaderCannotTell(
    name: string, a: Value, b: Value, sa: map<string, Value>, sb: map<string, Value>, words: Words)
    requires Same(name, a, b, sa, sb, words)
    ensures Field(name, a, sa, words) == Field(name, b, sb, words)
    decreases a, 3
  {
    hide IsIdField, IsNameField, IdBeside, IsNameMap, IsLeftOut, Label, ProjectModel, ProjectList, ProjectDict;
    if !IsLeftOut(name) {
      match a
      case Model(_, _) => ModelsCannotBeTold(a, b, words);
      case List(_) => ListsCannotBeTold(name, a, b, sa, sb, words);
      case Dict(_) => DictsCannotBeTold(name, a, b, sa, sb, words);
      case Str(s) =>
      case _ =>
    }
  }

  lemma {:induction false} ListsCannotBeTold(
    name: string, a: Value, b: Value, sa: map<string, Value>, sb: map<string, Value>, words: Words)
    requires a.List? && !IsLeftOut(name) && Same(name, a, b, sa, sb, words)
    ensures ProjectList(name, a, sa, words) == ProjectList(name, b, sb, words)
    decreases a, 2
  {
    hide IsIdField, IsNameField, IdBeside, IsNameMap, IsLeftOut, Label, Field;
    forall i | 0 <= i < |a.items|
      ensures Field(name, a.items[i], sa, words) == Field(name, b.items[i], sb, words)
    {
      ReaderCannotTell(name, a.items[i], b.items[i], sa, sb, words);
    }
  }

  lemma {:induction false} DictsCannotBeTold(
    name: string, a: Value, b: Value, sa: map<string, Value>, sb: map<string, Value>, words: Words)
    requires a.Dict? && !IsLeftOut(name) && Same(name, a, b, sa, sb, words)
    ensures ProjectDict(name, a, sa, words) == ProjectDict(name, b, sb, words)
    decreases a, 1
  {
    hide IsIdField, IsNameField, IdBeside, IsNameMap, IsLeftOut, Label, Field;
    forall k | k in a.entries && !IsNameMap(name)
      ensures Field(name, a.entries[k], sa, words) == Field(name, b.entries[k], sb, words)
    {
      ReaderCannotTell(name, a.entries[k], b.entries[k], sa, sb, words);
    }
  }

  lemma {:induction false} ModelsCannotBeTold(a: Value, b: Value, words: Words)
    requires a.Model? && b.Model? && SameModel(a, b, words)
    ensures ProjectModel(a, words) == ProjectModel(b, words)
    decreases a, 2
  {
    hide IsIdField, IsNameField, IdBeside, IsNameMap, IsLeftOut, Label, Field, EventField, FeedFields;
    var fa, fb := a.fields, b.fields;
    if a.kind.DirectoryItem? {
      SameDirectorySeenAlike(fa, fb, words);
    } else if a.kind.FeedItem? {
      forall k | k in fa
        ensures EventField(a, k, words) == EventField(b, k, words)
      {
        EventCannotTell(a, b, k, words);
      }
    } else {
      forall k | k in fa && Same(k, fa[k], fb[k], fa, fb, words)
        ensures Field(k, fa[k], fa, words) == Field(k, fb[k], fb, words)
      {
        ReaderCannotTell(k, fa[k], fb[k], fa, fb, words);
      }
      CountsHiddenAlike(a, b, words);
    }
  }

  // Two responses as one reader gets them: as they are, or through the words.
  ghost predicate SameFor(a: Value, b: Value, words: Option<Words>)
    requires a.Model? && b.Model?
  {
    if words.None? then a == b else SameModel(a, b, words.value)
  }

  lemma ResponsesCannotBeTold(a: Value, b: Value, words: Option<Words>)
    requires a.Model? && b.Model? && SameFor(a, b, words)
    ensures ForReader(a, words) == ForReader(b, words)
  {
    hide ProjectModel, SameModel;
    if words.Some? {
      ModelsCannotBeTold(a, b, words.value);
    }
  }

  lemma SameEventAt(a: Value, b: Value, k: string, words: Words)
    requires a.Model? && b.Model? && a.kind.FeedItem? && SameModel(a, b, words) && k in a.fields
    ensures k in b.fields && AboutAPerson(a.fields) == AboutAPerson(b.fields)
    ensures (k == "entity_ref" && AboutAPerson(a.fields))
            || if k == "details" && a.fields[k].Dict? then SameDetails(a, b, words)
               else && Same(k, a.fields[k], b.fields[k], a.fields, b.fields, words)
                    && (k == "details" ==> !b.fields[k].Dict?)
  {
    hide SameDetails, Field;
  }

  lemma {:induction false} EventCannotTell(a: Value, b: Value, k: string, words: Words)
    requires a.Model? && b.Model? && a.kind.FeedItem? && SameModel(a, b, words) && k in a.fields
    ensures k in b.fields && EventField(a, k, words) == EventField(b, k, words)
    decreases a, 1
  {
    SameEventAt(a, b, k, words);
    var fa, fb := a.fields, b.fields;
    EventKeepsPairs(fa, words);
    EventKeepsPairs(fb, words);
    var ea, eb := FeedFields(fa, words), FeedFields(fb, words);
    if k == "entity_ref" && AboutAPerson(fa) {
    } else if k == "details" && fa[k].Dict? {
      hide FeedFields, SameModel, Label, Field, SamePairs, Same, SameModel, AboutAPerson;
      DetailsCannotTell(a, b, ea, eb, words);
      DetailsProjectedAlike(a, b, words);
    } else {
      hide FeedFields, SameModel, Label, Field, SamePairs, Same, SameModel, FeedDetails;
      ReaderCannotTell(k, fa[k], fb[k], fa, fb, words);
      OnlyPairsMatter(k, fa[k], ea, fa, words);
      OnlyPairsMatter(k, fb[k], eb, fb, words);
    }
  }

  lemma DetailsProjectedAlike(a: Value, b: Value, words: Words)
    requires a.Model? && b.Model? && "details" in a.fields && "details" in b.fields
    requires a.fields["details"].Dict? && b.fields["details"].Dict?
    requires var da, db := a.fields["details"].entries, b.fields["details"].entries;
             && da.Keys == db.Keys
             && forall d :: d in da ==>
                  if da[d].Str? then
                    db[d].Str? && words.say(FeedDetails(da, words)[d].s) == words.say(FeedDetails(db, words)[d].s)
                  else !db[d].Str? && Field("details", da[d], FeedFields(a.fields, words), words)
                                      == Field("details", db[d], FeedFields(b.fields, words), words)
    ensures EventField(a, "details", words) == EventField(b, "details", words)
  {
    hide Field, FeedFields, FeedDetails;
  }

  lemma {:induction false} DetailsCannotTell(a: Value, b: Value, ea: map<string, Value>,
      eb: map<string, Value>, words: Words)
    requires a.Model? && b.Model? && "details" in a.fields && "details" in b.fields && a.fields["details"].Dict?
    requires SameDetails(a, b, words)
    requires SamePairs(ea, a.fields) && SamePairs(eb, b.fields)
    ensures var da, db := a.fields["details"].entries, b.fields["details"].entries;
            forall d :: d in da ==>
              if da[d].Str? then
                db[d].Str? && words.say(FeedDetails(da, words)[d].s) == words.say(FeedDetails(db, words)[d].s)
              else !db[d].Str? && Field("details", da[d], ea, words) == Field("details", db[d], eb, words)
    decreases a, 0
  {
    var da, db := a.fields["details"].entries, b.fields["details"].entries;
    assert !IsLeftOut("details");
    hide IsIdField, IsNameField, IdBeside, IsNameMap, IsLeftOut, Label, Field, SamePairs;
    forall d | d in da && !da[d].Str?
      ensures !db[d].Str? && Field("details", da[d], ea, words) == Field("details", db[d], eb, words)
    {
      assert Same("details", da[d], db[d], a.fields, b.fields, words);
      ReaderCannotTell("details", da[d], db[d], a.fields, b.fields, words);
      OnlyPairsMatter("details", da[d], ea, a.fields, words);
      OnlyPairsMatter("details", db[d], eb, b.fields, words);
    }
    forall d | d in da && da[d].Str?
      ensures db[d].Str? && words.say(FeedDetails(da, words)[d].s) == words.say(FeedDetails(db, words)[d].s)
    {
      assert SameDetail(da, db, d, words);
      DetailSaidAlike(da, db, d, words);
    }
  }

  lemma DetailSaidAlike(da: map<string, Value>, db: map<string, Value>, d: string, words: Words)
    requires d in da && d in db && da[d].Str? && SameDetail(da, db, d, words)
    ensures words.say(FeedDetails(da, words)[d].s) == words.say(FeedDetails(db, words)[d].s)
  {
    PeopleAreSaid(da, words, d);
    PeopleAreSaid(db, words, d);
    hide PersonOf, SaidFor;
  }

  lemma NoCountStays(v: Value, siblings: map<string, Value>, words: Words)
    requires NoCount(v)
    ensures Field("member_count", v, siblings, words) == v
  {
  }

  lemma CountsHiddenAlike(a: Value, b: Value, words: Words)
    requires a.Model? && b.Model? && a.kind == b.kind && a.fields.Keys == b.fields.Keys
    requires forall k :: k in a.fields ==>
               || (a.kind.FlowScope? && k == "member_count" && NoCount(a.fields[k]) && NoCount(b.fields[k]))
               || Field(k, a.fields[k], a.fields, words) == Field(k, b.fields[k], b.fields, words)
    ensures if a.kind.FlowScope?
            then SmallCountHidden(ProjectFields(a, words)) == SmallCountHidden(ProjectFields(b, words))
            else ProjectFields(a, words) == ProjectFields(b, words)
  {
    if && a.kind.FlowScope? && "member_count" in a.fields
       && NoCount(a.fields["member_count"]) && NoCount(b.fields["member_count"]) {
      NoCountStays(a.fields["member_count"], a.fields, words);
      NoCountStays(b.fields["member_count"], b.fields, words);
    }
    hide Field, SmallCountHidden;
    var pa, pb := ProjectFields(a, words), ProjectFields(b, words);
    if a.kind.FlowScope? {
      HideCounts(pa, pb);
    }
  }

  lemma HideCounts(a: map<string, Value>, b: map<string, Value>)
    requires a.Keys == b.Keys
    requires forall k :: k in a ==> a[k] == b[k] || (k == "member_count" && NoCount(a[k]) && NoCount(b[k]))
    ensures SmallCountHidden(a) == SmallCountHidden(b)
  {
    var ha, hb := SmallCountHidden(a), SmallCountHidden(b);
    assert ha.Keys == hb.Keys;
    assert forall k :: k in ha ==> ha[k] == hb[k];
  }
}
