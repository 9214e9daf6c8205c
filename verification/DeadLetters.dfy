// Grouping the exhausted events of a sweep into dead letters, one row per
// conversation and first-seen time.
module DeadLetters {
  import opened Common
  import opened InboundStore

  // f"{conversation_key}:{first_seen_at}" within a tenant
  datatype LetterId = LetterId(tenant: string, conversation: string, firstSeenAt: int)

  datatype LetterStatus = Open | Rearmed

  datatype Letter = Letter(eventIds: seq<nat>, attempts: nat, deadLetteredAt: int, status: LetterStatus)

  type Letters = map<LetterId, Letter>

  function Exhausted(stuck: seq<Event>, deadBefore: int, maxRetries: int): (r: seq<Event>)
    ensures forall e :: e in r <==> e in stuck && IsExhausted(e, deadBefore, maxRetries)
  {
    Filter(ExhaustedAt(deadBefore, maxRetries), stuck)
  }

  // By age or by attempts, and in the order listed.
  lemma {:induction false} ExhaustedIff(stuck: seq<Event>, deadBefore: int, maxRetries: int, e: Event)
    ensures multiset(Exhausted(stuck, deadBefore, maxRetries))[e] ==
              if e.receivedAt < deadBefore || e.attempts >= maxRetries then multiset(stuck)[e] else 0
  {
    FilterCounts(ExhaustedAt(deadBefore, maxRetries), stuck, e);
  }

  function Conversations(events: seq<Event>): set<string> {
    set e | e in events :: e.conversation
  }

  function Group(events: seq<Event>, conversation: string): (r: seq<Event>)
    ensures forall e :: e in r <==> e in events && e.conversation == conversation
  {
    if events == [] then []
    else
      var front, last := events[..|events| - 1], events[|events| - 1];
      Group(front, conversation) + if last.conversation == conversation then [last] else []
  }

  function FirstSeen(group: seq<Event>): (t: int)
    requires group != []
    ensures exists e :: e in group && e.receivedAt == t
    ensures forall e :: e in group ==> t <= e.receivedAt
  {
    if |group| == 1 then group[0].receivedAt
    else
      var rest := FirstSeen(group[1..]);
      assert forall e :: e in group ==> e == group[0] || e in group[1..];
      if rest < group[0].receivedAt then rest else group[0].receivedAt
  }

  function MostAttempts(group: seq<Event>): (n: nat)
    requires group != []
    ensures exists e :: e in group && e.attempts == n
    ensures forall e :: e in group ==> e.attempts <= n
  {
    if |group| == 1 then group[0].attempts
    else
      var rest := MostAttempts(group[1..]);
      assert forall e :: e in group ==> e == group[0] || e in group[1..];
      if rest > group[0].attempts then rest else group[0].attempts
  }

  function IdOf(tenant: string, exhausted: seq<Event>, conversation: string): LetterId
    requires conversation in Conversations(exhausted)
  {
    LetterId(tenant, conversation, FirstSeen(Group(exhausted, conversation)))
  }

  // INSERT ... ON CONFLICT (tenant, id) DO UPDATE: status and re-arm time stay.
  function Upserted(letters: Letters, id: LetterId, letter: Letter): Letter {
    if id in letters then letter.(status := letters[id].status) else letter
  }

  function LetterFor(group: seq<Event>, now: int): Letter
    requires group != []
  {
    Letter(Ids(group), MostAttempts(group), now, Open)
  }

  function Lookup(letters: Letters, id: LetterId): Option<Letter> {
    if id in letters then Some(letters[id]) else None
  }

  // The row a sweep leaves at id once it has recorded some conversations.
  function RowAfter(before: Letters, tenant: string, exhausted: seq<Event>, recorded: set<string>, now: int,
                    id: LetterId): Option<Letter>
    requires recorded <= Conversations(exhausted)
  {
    if id.conversation in recorded && id == IdOf(tenant, exhausted, id.conversation)
    then Some(Upserted(before, id, LetterFor(Group(exhausted, id.conversation), now)))
    else Lookup(before, id)
  }

  ghost predicate Recorded(before: Letters, after: Letters, tenant: string, exhausted: seq<Event>,
                           recorded: set<string>, now: int)
    requires recorded <= Conversations(exhausted)
  {
    forall id :: Lookup(after, id) == RowAfter(before, tenant, exhausted, recorded, now, id)
  }

  lemma NothingRecordedYet(letters: Letters, tenant: string, exhausted: seq<Event>, now: int)
    ensures Recorded(letters, letters, tenant, exhausted, {}, now)
  {
  }

  lemma RecordOneMore(before: Letters, mid: Letters, tenant: string, exhausted: seq<Event>,
                      done: set<string>, c: string, now: int)
    requires done <= Conversations(exhausted) && c in Conversations(exhausted) && c !in done
    requires Recorded(before, mid, tenant, exhausted, done, now)
    ensures var id := IdOf(tenant, exhausted, c);
            Recorded(before, mid[id := Upserted(mid, id, LetterFor(Group(exhausted, c), now))],
                     tenant, exhausted, done + {c}, now)
  {
    hide IdOf, LetterFor, Group, FirstSeen;
    var added := IdOf(tenant, exhausted, c);
    var after := mid[added := Upserted(mid, added, LetterFor(Group(exhausted, c), now))];
    IdNames(tenant, exhausted, c);
    forall id
      ensures Lookup(after, id) == RowAfter(before, tenant, exhausted, done + {c}, now, id)
    {
      assert Lookup(mid, id) == RowAfter(before, tenant, exhausted, done, now, id);
    }
  }

  lemma LetterOfGroup(tenant: string, exhausted: seq<Event>, c: string, now: int)
    requires c in Conversations(exhausted)
    ensures var group := Group(exhausted, c);
            && group != []
            && IdOf(tenant, exhausted, c) == LetterId(tenant, c, FirstSeen(group))
            && LetterFor(group, now) == Letter(Ids(group), MostAttempts(group), now, Open)
  {
  }

  lemma IdNames(tenant: string, exhausted: seq<Event>, c: string)
    requires c in Conversations(exhausted)
    ensures IdOf(tenant, exhausted, c).conversation == c
  {
  }

  // Each exhausted event is in the record of its own conversation; the record
  // carries the group's earliest time and highest attempt count.
  lemma RecordCoversItsGroup(before: Letters, after: Letters, tenant: string, exhausted: seq<Event>, now: int, e: Event)
    requires Recorded(before, after, tenant, exhausted, Conversations(exhausted), now)
    requires e in exhausted
    ensures var id := IdOf(tenant, exhausted, e.conversation);
            && id in after && e.id in after[id].eventIds
            && id.firstSeenAt <= e.receivedAt && e.attempts <= after[id].attempts
            && after[id].deadLetteredAt == now
            && (forall n :: n in after[id].eventIds ==>
                  exists x :: x in exhausted && x.conversation == e.conversation && x.id == n)
            && id.tenant == tenant && id.conversation == e.conversation
            && (exists x :: x in exhausted && x.conversation == e.conversation && x.receivedAt == id.firstSeenAt)
            && (exists x :: x in exhausted && x.conversation == e.conversation && x.attempts == after[id].attempts)
  {
    var c := e.conversation;
    var group := Group(exhausted, c);
    var id := IdOf(tenant, exhausted, c);
    assert Lookup(after, id) == RowAfter(before, tenant, exhausted, Conversations(exhausted), now, id);
    assert e in group;
    var i :| 0 <= i < |group| && group[i] == e;
    assert Ids(group)[i] == e.id;
    forall n | n in Ids(group)
      ensures exists x :: x in exhausted && x.conversation == c && x.id == n
    {
      var k :| 0 <= k < |group| && Ids(group)[k] == n;
      assert group[k] in group;
    }
    var x :| x in group && x.receivedAt == FirstSeen(group);
    var y :| y in group && y.attempts == MostAttempts(group);
  }

  // No other record written now names it.
  lemma RecordsAreDisjoint(before: Letters, after: Letters, tenant: string, exhausted: seq<Event>, now: int,
                           e: Event, c: string)
    requires Recorded(before, after, tenant, exhausted, Conversations(exhausted), now)
    requires e in exhausted && c in Conversations(exhausted)
    requires forall x, y :: x in exhausted && y in exhausted && x.id == y.id ==> x == y
    ensures var id := IdOf(tenant, exhausted, c);
            id in after && (e.id in after[id].eventIds <==> c == e.conversation)
  {
    hide LetterFor, FirstSeen, MostAttempts;
    var id := IdOf(tenant, exhausted, c);
    var group := Group(exhausted, c);
    assert Lookup(after, id) == RowAfter(before, tenant, exhausted, Conversations(exhausted), now, id);
    if c == e.conversation {
      RecordCoversItsGroup(before, after, tenant, exhausted, now, e);
    } else {
      LetterNames(group, now);
      assert forall j :: 0 <= j < |group| ==> group[j] in group;
    }
  }

  // A letter that was there keeps its status, so one that was re-armed is not
  // opened again; a new one is open; and no other letter changes.
  lemma StatusesStay(before: Letters, after: Letters, tenant: string, exhausted: seq<Event>, now: int, id: LetterId)
    requires Recorded(before, after, tenant, exhausted, Conversations(exhausted), now)
    ensures id in before ==> id in after && after[id].status == before[id].status
    ensures id !in before && id in after ==> after[id].status == Open
    ensures var c := id.conversation;
            (forall e :: e in exhausted && e.conversation == c ==> IdOf(tenant, exhausted, c) != id) ==>
              Lookup(after, id) == Lookup(before, id)
  {
    hide IdOf, FirstSeen, MostAttempts, Group;
    assert Lookup(after, id) == RowAfter(before, tenant, exhausted, Conversations(exhausted), now, id);
  }

  lemma LetterNames(group: seq<Event>, now: int)
    requires group != []
    ensures LetterFor(group, now).eventIds == Ids(group)
  {
  }

  // The event of the conversation that came in first.
  ghost predicate IsFirstOf(events: seq<Event>, c: string, e: Event) {
    && e in events && e.conversation == c
    && forall x :: x in events && x.conversation == c ==> e.receivedAt <= x.receivedAt
  }

  lemma FirstOfNamesTheRow(tenant: string, events: seq<Event>, c: string)
    requires c in Conversations(events)
    ensures exists e :: IsFirstOf(events, c, e)
    ensures forall e :: IsFirstOf(events, c, e) ==> IdOf(tenant, events, c) == LetterId(tenant, c, e.receivedAt)
  {
    var group := Group(events, c);
    LetterOfGroup(tenant, events, c, 0);
    var t := FirstSeen(group);
    var e :| e in group && e.receivedAt == t;
    hide FirstSeen, Group, IdOf;
    assert IsFirstOf(events, c, e);
    forall x | IsFirstOf(events, c, x)
      ensures x.receivedAt == t
    {
      assert x in group;
    }
  }

  // A later sweep writes the row of an earlier one exactly when the earliest
  // exhausted event it sees in the conversation came in at the same time.
  lemma SameRowIff(tenant: string, first: seq<Event>, second: seq<Event>, c: string)
    requires c in Conversations(first) && c in Conversations(second)
    ensures IdOf(tenant, first, c) == IdOf(tenant, second, c)
            <==> exists a, b :: IsFirstOf(first, c, a) && IsFirstOf(second, c, b) && a.receivedAt == b.receivedAt
  {
    hide IsFirstOf, IdOf, Conversations;
    FirstOfNamesTheRow(tenant, first, c);
    FirstOfNamesTheRow(tenant, second, c);
    var a :| IsFirstOf(first, c, a);
    var b :| IsFirstOf(second, c, b);
  }

  // The comment on the sweep names two reasons to give up on an event, its age
  // or its attempt count. An attempt is only ever counted by the update that
  // processes the row, so an event that is still stuck is given up on by age.
  lemma StuckEventsExhaustByAgeOnly(store: Store, tenant: string, cutoff: int, deadBefore: int,
      maxRetries: int, e: Event)
    requires StoreOk(store) && maxRetries > 0
    requires e in ListStuck(store.rows, tenant, cutoff)
    ensures e in Exhausted(ListStuck(store.rows, tenant, cutoff), deadBefore, maxRetries) <==> e.receivedAt < deadBefore
  {
    assert e in store.rows;
    var i :| 0 <= i < |store.rows| && store.rows[i] == e;
    assert RowOk(store.rows[i], store.nextId);
  }
}
