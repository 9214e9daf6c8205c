// The durable buffer of inbound chat events, and the pure parts of reply
// ingestion: coalescing a burst into one reply and naming a burst.
module InboundStore {
  import opened Common
  import opened Ordering
  import Text

  datatype Event = Event(
    id: nat, tenant: string, provider: string, eventId: string, conversation: string, thread: string,
    messageRef: string, text: string, receivedAt: int, processedAt: Option<int>, attempts: nat)

  // A mapped provider message; payloadEventId is the envelope's own "event_id".
  datatype Incoming = Incoming(
    tenant: string, provider: string, payloadEventId: Option<string>, thread: string,
    messageRef: string, text: string, receivedAt: int)

  // nextId stands for the database's id generator.
  datatype Store = Store(rows: seq<Event>, nextId: nat)

  function ExtractEventId(m: Incoming): string {
    if m.payloadEventId.Some? && m.payloadEventId.value != "" then m.payloadEventId.value else m.messageRef
  }

  function ConversationKey(m: Incoming): string {
    m.tenant + ":" + m.thread
  }

  function NewEvent(id: nat, m: Incoming): Event {
    Event(id, m.tenant, m.provider, ExtractEventId(m), ConversationKey(m), m.thread, m.messageRef, m.text,
          m.receivedAt, None, 0)
  }

  // Within a tenant two messages are of one conversation exactly when they are
  // of one thread; and no tenant without a colon shares a key with another.
  lemma ConversationsApart(a: Incoming, b: Incoming)
    ensures a.tenant == b.tenant ==> (ConversationKey(a) == ConversationKey(b) <==> a.thread == b.thread)
    ensures ':' !in a.tenant && ':' !in b.tenant && ConversationKey(a) == ConversationKey(b) ==> a.tenant == b.tenant
  {
    var x, y := ConversationKey(a), ConversationKey(b);
    assert x[|a.tenant| + 1..] == a.thread && y[|b.tenant| + 1..] == b.thread;
    assert x[..|a.tenant|] == a.tenant && y[..|b.tenant|] == b.tenant;
    if ':' !in a.tenant && ':' !in b.tenant {
      Text.FindAfter(':', a.tenant, a.thread);
      Text.FindAfter(':', b.tenant, b.thread);
    }
  }

  // _thread_from_conversation_key: what follows the first colon, else the key
  function ThreadOf(key: string): string {
    var i := Text.Find(':', key);
    var thread := if i < |key| then key[i + 1..] else "";
    if thread != "" then thread else key
  }

  // ------------------------------------------------------------ append

  predicate SameDelivery(a: Event, b: Event) {
    a.tenant == b.tenant && a.provider == b.provider && a.eventId == b.eventId
  }

  predicate Known(rows: seq<Event>, m: Incoming) {
    exists r :: r in rows && SameDelivery(r, NewEvent(0, m))
  }

  predicate HasEnvelopeId(m: Incoming) {
    m.payloadEventId.Some? && m.payloadEventId.value != ""
  }

  // Two messages of a provider are one delivery exactly when their envelopes
  // say so, or, for want of an envelope id, the message's own id does.
  lemma SameDeliveryIff(a: Incoming, b: Incoming, i: nat, j: nat)
    ensures SameDelivery(NewEvent(i, a), NewEvent(j, b)) <==>
              && a.tenant == b.tenant && a.provider == b.provider
              && (HasEnvelopeId(a) && HasEnvelopeId(b) ==> a.payloadEventId == b.payloadEventId)
              && (!HasEnvelopeId(a) && !HasEnvelopeId(b) ==> a.messageRef == b.messageRef)
              && (HasEnvelopeId(a) && !HasEnvelopeId(b) ==> a.payloadEventId == Some(b.messageRef))
              && (!HasEnvelopeId(a) && HasEnvelopeId(b) ==> b.payloadEventId == Some(a.messageRef))
  {
  }

  // INSERT ... ON CONFLICT (tenant, provider, event_id) DO NOTHING
  function Appended(store: Store, m: Incoming): Store {
    if Known(store.rows, m) then store
    else Store(store.rows + [NewEvent(store.nextId, m)], store.nextId + 1)
  }

  function AppendedAll(store: Store, ms: seq<Incoming>): Store
    decreases |ms|
  {
    if ms == [] then store else AppendedAll(Appended(store, ms[0]), ms[1..])
  }

  // ------------------------------------------------------------ queries

  // The WHERE clauses the repository and the sweep use.
  datatype Query =
    | BufferedIn(tenant: string, conversation: string)
    | StuckBefore(tenant: string, cutoff: int)
    | ExhaustedAt(deadBefore: int, maxRetries: int)

  predicate Buffered(e: Event, tenant: string, conversation: string) {
    e.tenant == tenant && e.conversation == conversation && e.processedAt.None?
  }

  predicate IsStuck(e: Event, tenant: string, cutoff: int) {
    e.tenant == tenant && e.processedAt.None? && e.receivedAt < cutoff
  }

  predicate IsExhausted(e: Event, deadBefore: int, maxRetries: int) {
    e.receivedAt < deadBefore || e.attempts >= maxRetries
  }

  predicate Selects(q: Query, e: Event) {
    match q
    case BufferedIn(tenant, conversation) => Buffered(e, tenant, conversation)
    case StuckBefore(tenant, cutoff) => IsStuck(e, tenant, cutoff)
    case ExhaustedAt(deadBefore, maxRetries) => IsExhausted(e, deadBefore, maxRetries)
  }

  function Filter(q: Query, rows: seq<Event>): (r: seq<Event>)
    ensures forall e :: e in r <==> e in rows && Selects(q, e)
  {
    if rows == [] then []
    else if Selects(q, rows[0]) then [rows[0]] + Filter(q, rows[1..])
    else Filter(q, rows[1..])
  }

  function EventStamp(e: Event): Stamp {
    Stamp(e.receivedAt, e.messageRef)
  }

  function Unprocessed(rows: seq<Event>, tenant: string, conversation: string): (r: seq<Event>)
    ensures forall e :: e in r <==> e in rows && Buffered(e, tenant, conversation)
  {
    Sort(EventStamp, Filter(BufferedIn(tenant, conversation), rows))
  }

  function ListStuck(rows: seq<Event>, tenant: string, cutoff: int): (r: seq<Event>)
    ensures forall e :: e in r <==> e in rows && IsStuck(e, tenant, cutoff)
  {
    Sort(EventStamp, Filter(StuckBefore(tenant, cutoff), rows))
  }

  // By receipt, then by message reference.
  ghost predicate InOrder(events: seq<Event>) {
    forall i, j :: 0 <= i < j < |events| ==>
      || events[i].receivedAt < events[j].receivedAt
      || (events[i].receivedAt == events[j].receivedAt && !Text.Less(events[j].messageRef, events[i].messageRef))
  }

  lemma SortInOrder(events: seq<Event>)
    ensures InOrder(Sort(EventStamp, events))
  {
    SortSorted(EventStamp, events);
  }

  lemma {:induction false} FilterCounts(q: Query, rows: seq<Event>, e: Event)
    ensures multiset(Filter(q, rows))[e] == if Selects(q, e) then multiset(rows)[e] else 0
  {
    hide Selects;
    if rows != [] {
      FilterCounts(q, rows[1..], e);
      assert rows == [rows[0]] + rows[1..];
    }
  }

  // Both listings are in order and hold each row they ask for as often as the
  // table does.
  lemma ListedInOrder(rows: seq<Event>, tenant: string, conversation: string, cutoff: int)
    ensures InOrder(Unprocessed(rows, tenant, conversation)) && InOrder(ListStuck(rows, tenant, cutoff))
    ensures forall e :: multiset(Unprocessed(rows, tenant, conversation))[e] ==
              if e.tenant == tenant && e.conversation == conversation && e.processedAt.None?
              then multiset(rows)[e] else 0
    ensures forall e :: multiset(ListStuck(rows, tenant, cutoff))[e] ==
              if e.tenant == tenant && e.processedAt.None? && e.receivedAt < cutoff then multiset(rows)[e] else 0
  {
    var p, q := BufferedIn(tenant, conversation), StuckBefore(tenant, cutoff);
    SortInOrder(Filter(p, rows));
    SortInOrder(Filter(q, rows));
    SortPermutes(EventStamp, Filter(p, rows));
    SortPermutes(EventStamp, Filter(q, rows));
    hide Sort, InOrder;
    forall e
      ensures multiset(Filter(p, rows))[e] == if Buffered(e, tenant, conversation) then multiset(rows)[e] else 0
      ensures multiset(Filter(q, rows))[e] == if IsStuck(e, tenant, cutoff) then multiset(rows)[e] else 0
    {
      FilterCounts(p, rows, e);
      FilterCounts(q, rows, e);
    }
  }

  function Ids(events: seq<Event>): (r: seq<nat>)
    ensures |r| == |events|
    ensures forall i :: 0 <= i < |r| ==> r[i] == events[i].id
  {
    seq(|events|, i requires 0 <= i < |events| => events[i].id)
  }

  function IdSet(events: seq<Event>): set<nat> {
    set e | e in events :: e.id
  }

  // ------------------------------------------------------------ mark

  function MarkRow(e: Event, tenant: string, ids: set<nat>, now: int): Event {
    if e.tenant == tenant && e.processedAt.None? && e.id in ids
    then e.(processedAt := Some(now), attempts := e.attempts + 1)
    else e
  }

  function Marked(rows: seq<Event>, tenant: string, ids: set<nat>, now: int): (r: seq<Event>)
    ensures |r| == |rows|
    ensures forall i :: 0 <= i < |r| ==> r[i] == MarkRow(rows[i], tenant, ids, now)
  {
    seq(|rows|, i requires 0 <= i < |rows| => MarkRow(rows[i], tenant, ids, now))
  }

  // ------------------------------------------------------------ coalescing

  // The parts of a coalesced reply that depend on the burst's order.
  datatype Reply = Reply(text: string, thread: string, messageRef: string, receivedAt: int, sourceIds: seq<nat>)

  function Texts(events: seq<Event>): (r: seq<string>)
    ensures |r| == |events|
    ensures forall i :: 0 <= i < |r| ==> r[i] == events[i].text
  {
    seq(|events|, i requires 0 <= i < |events| => events[i].text)
  }

  function Coalesce(events: seq<Event>): Option<Reply> {
    if events == [] then None
    else
      var ordered := Sort(EventStamp, events);
      var latest := ordered[|ordered| - 1];
      Some(Reply(Text.Join('\n', Texts(ordered)), ThreadAt(latest), latest.messageRef, latest.receivedAt, Ids(ordered)))
  }

  function ThreadAt(e: Event): string {
    if e.thread != "" then e.thread else ThreadOf(e.conversation)
  }

  // The burst in the order in which it is handed on.
  ghost predicate IsBurst(events: seq<Event>, ordered: seq<Event>) {
    multiset(ordered) == multiset(events) && InOrder(ordered)
  }

  ghost predicate OneLineEach(events: seq<Event>) {
    forall i :: 0 <= i < |events| ==> '\n' !in events[i].text
  }

  // Every row's text is in the text handed on; texts of one line each are its
  // lines, in order.
  ghost predicate HoldsTexts(text: string, ordered: seq<Event>) {
    && (forall i :: 0 <= i < |ordered| ==> Text.Holds(text, ordered[i].text))
    && (OneLineEach(ordered) ==>
          && |Text.Split('\n', text)| == |ordered|
          && forall i :: 0 <= i < |ordered| ==> Text.Split('\n', text)[i] == ordered[i].text)
  }

  // The ids of all rows, in order, and the address of the last.
  ghost predicate IsAddressed(reply: Reply, ordered: seq<Event>) {
    && ordered != [] && |reply.sourceIds| == |ordered|
    && (forall i :: 0 <= i < |ordered| ==> reply.sourceIds[i] == ordered[i].id)
    && var latest := ordered[|ordered| - 1];
    && reply.messageRef == latest.messageRef && reply.receivedAt == latest.receivedAt
    && reply.thread == ThreadAt(latest)
  }

  // The reply carries the whole burst, each row once and in order.
  lemma ReplyCarriesTheBurst(events: seq<Event>)
    ensures Coalesce(events).None? <==> events == []
    ensures events != [] ==>
              exists ordered: seq<Event> ::
                && IsBurst(events, ordered)
                && HoldsTexts(Coalesce(events).value.text, ordered) && IsAddressed(Coalesce(events).value, ordered)
  {
    if events != [] {
      var ordered := Sort(EventStamp, events);
      SortPermutes(EventStamp, events);
      SortInOrder(events);
      JoinHoldsTexts(ordered);
      hide HoldsTexts, IsAddressed;
      SortedIsCarried(events);
      assert IsBurst(events, ordered);
    }
  }

  lemma SortedIsCarried(events: seq<Event>)
    requires events != []
    ensures var ordered, reply := Sort(EventStamp, events), Coalesce(events).value;
            reply.text == Text.Join('\n', Texts(ordered)) && IsAddressed(reply, ordered)
  {
  }

  lemma JoinHoldsTexts(ordered: seq<Event>)
    requires ordered != []
    ensures HoldsTexts(Text.Join('\n', Texts(ordered)), ordered)
  {
    var texts := Texts(ordered);
    hide Texts, Text.Join, Text.Split, Text.Holds;
    forall i | 0 <= i < |ordered|
      ensures Text.Holds(Text.Join('\n', texts), ordered[i].text)
    {
      Text.JoinHolds('\n', texts, i);
    }
    if OneLineEach(ordered) {
      assert forall i :: 0 <= i < |texts| ==> texts[i] == ordered[i].text;
      Text.SplitJoin('\n', texts);
    }
  }

  // A row is answered in its message's thread, which its conversation's key
  // names too; a message without one is answered under the key itself.
  lemma AnsweredInItsThread(id: nat, m: Incoming)
    ensures m.thread != "" ==> ThreadAt(NewEvent(id, m)) == m.thread
    ensures ':' !in m.tenant && m.thread == "" ==> ThreadAt(NewEvent(id, m)) == ConversationKey(m)
    ensures ':' !in m.tenant && m.thread != "" ==> ThreadOf(NewEvent(id, m).conversation) == m.thread
  {
    if ':' !in m.tenant {
      Text.FindAfter(':', m.tenant, m.thread);
      assert ConversationKey(m)[|m.tenant| + 1..] == m.thread;
    }
  }

  // The ids marked after the reply are the ids handed on.
  lemma MarkedAreHandedOn(events: seq<Event>)
    requires events != []
    ensures forall id :: id in Coalesce(events).value.sourceIds <==> id in IdSet(events)
  {
    var ordered := Sort(EventStamp, events);
    var ids := Ids(ordered);
    forall id
      ensures id in ids <==> id in IdSet(events)
    {
      if id in ids {
        var i :| 0 <= i < |ids| && ids[i] == id;
        assert ordered[i] in events;
      }
    }
  }

  function Earliest(events: seq<Event>): (e: Event)
    requires events != []
    ensures e in events
    decreases |events|
  {
    if |events| == 1 then events[0]
    else
      var rest := Earliest(events[1..]);
      if Before(EventStamp(rest), EventStamp(events[0])) then rest else events[0]
  }

  // min(events, key=(received_at, message_ref)).id
  function BurstKey(events: seq<Event>): Option<nat> {
    if events == [] then None else Some(Earliest(events).id)
  }

  lemma {:induction false} EarliestIsLeast(events: seq<Event>, e: Event)
    requires e in events
    ensures !Before(EventStamp(e), EventStamp(Earliest(events)))
    ensures Earliest(events).receivedAt <= e.receivedAt
  {
    BeforeTotal(EventStamp(e), EventStamp(e));
    if |events| > 1 {
      var rest := Earliest(events[1..]);
      BeforeTotal(EventStamp(rest), EventStamp(events[0]));
      if e != events[0] {
        assert e in events[1..];
        EarliestIsLeast(events[1..], e);
        BeforeTotal(EventStamp(e), EventStamp(rest));
        BeforeTotal(EventStamp(e), EventStamp(events[0]));
        if Before(EventStamp(e), EventStamp(events[0])) && !Before(EventStamp(rest), EventStamp(events[0])) {
          BeforeTransitive(EventStamp(events[0]), EventStamp(rest), EventStamp(e));
        }
      }
    }
  }

  lemma {:induction false} EarliestOfMore(front: seq<Event>, e: Event)
    requires front != []
    ensures Earliest(front + [e]) ==
              if Before(EventStamp(e), EventStamp(Earliest(front))) then e else Earliest(front)
    decreases |front|
  {
    assert (front + [e])[1..] == front[1..] + [e];
    if |front| > 1 {
      hide Before;
      EarliestOfMore(front[1..], e);
      var first, rest, last := EventStamp(front[0]), EventStamp(Earliest(front[1..])), EventStamp(e);
      BeforeTotal(last, rest);
      BeforeTotal(rest, first);
      BeforeTotal(last, first);
      if Before(last, rest) && Before(rest, first) {
        BeforeTransitive(last, rest, first);
      } else if Before(last, first) && !Before(rest, first) {
        BeforeTransitive(last, first, rest);
      }
    }
  }

  // min() and sorted() take the same of several equally stamped events: the
  // one that comes first.
  lemma {:induction false} EarliestIsSortedFirst(events: seq<Event>)
    requires events != []
    ensures Sort(EventStamp, events)[0] == Earliest(events)
    decreases |events|
  {
    var front, last := events[..|events| - 1], events[|events| - 1];
    assert events == front + [last];
    if front != [] {
      EarliestIsSortedFirst(front);
      EarliestOfMore(front, last);
      SortSorted(EventStamp, front);
      InsertFirst(EventStamp, Sort(EventStamp, front), last);
    }
  }

  // The burst is named by the event the coalesced reply starts with, whatever
  // order the rows come in and whether or not their stamps differ.
  lemma BurstKeyStartsTheReply(events: seq<Event>)
    requires events != []
    ensures BurstKey(events) == Some(Coalesce(events).value.sourceIds[0])
  {
    EarliestIsSortedFirst(events);
  }

  // ------------------------------------------------------------ invariant

  ghost predicate StoreOk(store: Store) {
    && (forall i :: 0 <= i < |store.rows| ==> RowOk(store.rows[i], store.nextId))
    && (forall i, j :: 0 <= i < j < |store.rows| ==> store.rows[i].id != store.rows[j].id)
    && (forall i, j :: 0 <= i < j < |store.rows| ==> !SameDelivery(store.rows[i], store.rows[j]))
  }

  // Only mark_processed counts an attempt, and it processes the row at once.
  predicate RowOk(e: Event, nextId: nat) {
    e.id < nextId && e.attempts == if e.processedAt.Some? then 1 else 0
  }

  lemma AppendOk(store: Store, m: Incoming)
    requires StoreOk(store)
    ensures StoreOk(Appended(store, m))
  {
    if !Known(store.rows, m) {
      forall i | 0 <= i < |store.rows|
        ensures !SameDelivery(store.rows[i], NewEvent(store.nextId, m))
      {
        assert store.rows[i] in store.rows;
      }
    }
  }

  // A new message is listed as it came, in its own conversation; a known
  // delivery adds nothing.
  lemma NewMessageIsListed(store: Store, m: Incoming)
    requires StoreOk(store)
    ensures var after, listed := Appended(store, m), Unprocessed(Appended(store, m).rows, m.tenant, ConversationKey(m));
            if Known(store.rows, m) then after == store
            else
              && after.rows[..|store.rows|] == store.rows && |after.rows| == |store.rows| + 1
              && exists e :: && e in listed && e.id == store.nextId && e.text == m.text && e.thread == m.thread
                             && e.messageRef == m.messageRef && e.receivedAt == m.receivedAt && e.provider == m.provider
                             && (forall x :: x in store.rows ==> x.id != e.id)
  {
    if !Known(store.rows, m) {
      var e := NewEvent(store.nextId, m);
      assert e in Appended(store, m).rows;
      forall x | x in store.rows
        ensures x.id != e.id
      {
        var i :| 0 <= i < |store.rows| && store.rows[i] == x;
        assert RowOk(store.rows[i], store.nextId);
      }
      assert e in Unprocessed(Appended(store, m).rows, m.tenant, ConversationKey(m));
    }
  }

  // ------------------------------------------------------------ growth

  // A row may gain its processing mark, once, and nothing else about it moves.
  predicate RowGrows(a: Event, b: Event) {
    || b == a
    || (a.processedAt.None? && b.processedAt.Some?
        && b == a.(processedAt := b.processedAt, attempts := a.attempts + 1))
  }

  // Rows keep their place and identity; new ones come at the end.
  ghost predicate Grows(a: Store, b: Store) {
    && a.nextId <= b.nextId
    && |a.rows| <= |b.rows|
    && (forall i :: 0 <= i < |a.rows| ==> RowGrows(a.rows[i], b.rows[i]))
    && (forall i :: |a.rows| <= i < |b.rows| ==> a.nextId <= b.rows[i].id)
  }

  lemma MarkOk(store: Store, tenant: string, ids: set<nat>, now: int)
    requires StoreOk(store)
    ensures StoreOk(store.(rows := Marked(store.rows, tenant, ids, now)))
    ensures Grows(store, store.(rows := Marked(store.rows, tenant, ids, now)))
    ensures forall i :: 0 <= i < |store.rows| ==>
              var e := store.rows[i];
              Marked(store.rows, tenant, ids, now)[i] ==
                if e.tenant == tenant && e.id in ids && e.processedAt.None?
                then e.(processedAt := Some(now), attempts := e.attempts + 1) else e
  {
    assert forall i :: 0 <= i < |store.rows| ==> RowOk(store.rows[i], store.nextId);
    var rows := Marked(store.rows, tenant, ids, now);
    forall i, j | 0 <= i < j < |rows|
      ensures rows[i].id != rows[j].id && !SameDelivery(rows[i], rows[j])
    {
      assert store.rows[i].id != store.rows[j].id && !SameDelivery(store.rows[i], store.rows[j]);
    }
  }

  lemma GrowsTransitive(a: Store, b: Store, c: Store)
    requires Grows(a, b) && Grows(b, c)
    ensures Grows(a, c)
  {
    forall i | |a.rows| <= i < |c.rows|
      ensures a.nextId <= c.rows[i].id
    {
      if i < |b.rows| {
        assert RowGrows(b.rows[i], c.rows[i]);
      }
    }
  }

  lemma {:induction false} AppendedAllGrows(store: Store, ms: seq<Incoming>)
    requires StoreOk(store)
    ensures StoreOk(AppendedAll(store, ms))
    ensures Grows(store, AppendedAll(store, ms))
    ensures AppendedAll(store, ms).rows[..|store.rows|] == store.rows
    ensures forall i :: |store.rows| <= i < |AppendedAll(store, ms).rows| ==>
              AppendedAll(store, ms).rows[i].processedAt.None?
    decreases |ms|
  {
    if ms != [] {
      var next := Appended(store, ms[0]);
      AppendOk(store, ms[0]);
      AppendedAllGrows(next, ms[1..]);
      var end := AppendedAll(next, ms[1..]);
      GrowsTransitive(store, next, end);
      assert end.rows[..|store.rows|] == end.rows[..|next.rows|][..|store.rows|];
      assert forall i :: |store.rows| <= i < |next.rows| ==> end.rows[i] == end.rows[..|next.rows|][i];
    }
  }
}
