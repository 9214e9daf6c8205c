// The chat simulator's transcript: which bot question is open, and how a
// person's messages are filed against it.
module ChatSimulator {
  import opened Common
  import opened Ordering

  datatype Direction = Bot | User

  datatype Message = Message(
    id: string, createdAt: int, channel: string, user: string, direction: Direction, text: string,
    correlation: Option<string>, purpose: Option<string>, replyTo: Option<string>, thread: Option<string>)

  function MessageStamp(m: Message): Stamp {
    Stamp(m.createdAt, m.id)
  }

  const QUESTION_PURPOSES := {"status_checkin", "status_clarification", "status_nudge"}

  predicate IsQuestion(m: Message) {
    && m.direction.Bot?
    && m.correlation.Some? && m.correlation.value != ""
    && m.purpose.Some? && m.purpose.value in QUESTION_PURPOSES
  }

  // A check-in answer: posted in the channel, not in a thread.
  predicate IsAnswer(m: Message) {
    m.direction.User? && m.thread.None?
  }

  // ------------------------------------------------------------ the automaton

  // One register: a question sets it, an answer clears it, the rest pass by.
  function Next(open: Option<string>, m: Message): Option<string> {
    if IsAnswer(m) then None else if IsQuestion(m) then Some(m.id) else open
  }

  function Open(transcript: seq<Message>): Option<string> {
    if transcript == [] then None
    else Next(Open(transcript[..|transcript| - 1]), transcript[|transcript| - 1])
  }

  function InChannel(messages: seq<Message>, channel: string): (r: seq<Message>)
    ensures forall m :: m in r <==> m in messages && m.channel == channel
    ensures |r| <= |messages|
  {
    if messages == [] then []
    else
      var front, last := messages[..|messages| - 1], messages[|messages| - 1];
      InChannel(front, channel) + if last.channel == channel then [last] else []
  }

  function OpenIn(messages: seq<Message>, channel: string): Option<string> {
    Open(Sort(MessageStamp, InChannel(messages, channel)))
  }

  lemma OpenSnoc(front: seq<Message>, m: Message)
    ensures Open(front + [m]) == Next(Open(front), m)
  {
    assert (front + [m])[..|front|] == front;
  }

  // ------------------------------------------------------------ order

  lemma {:induction false} MultisetInChannel(messages: seq<Message>, channel: string, m: Message)
    ensures multiset(InChannel(messages, channel))[m] == if m.channel == channel then multiset(messages)[m] else 0
  {
    if messages != [] {
      var front, last := messages[..|messages| - 1], messages[|messages| - 1];
      MultisetInChannel(front, channel, m);
      assert messages == front + [last];
    }
  }

  // Which question is open does not depend on the order messages are stored.
  lemma OpenIgnoresStoredOrder(a: seq<Message>, b: seq<Message>, channel: string)
    requires multiset(a) == multiset(b)
    requires forall x, y :: x in a && y in a && x.id == y.id ==> x == y
    ensures OpenIn(a, channel) == OpenIn(b, channel)
  {
    var ca, cb := InChannel(a, channel), InChannel(b, channel);
    forall m
      ensures multiset(ca)[m] == multiset(cb)[m]
    {
      MultisetInChannel(a, channel, m);
      MultisetInChannel(b, channel, m);
    }
    assert multiset(ca) == multiset(cb);
    SortIgnoresStoredOrder(MessageStamp, ca, cb);
  }

  // A message that is neither question nor answer may be stamped anywhere.
  predicate IsNeutral(m: Message) {
    !IsAnswer(m) && !IsQuestion(m)
  }

  lemma {:induction false} NeutralChangesNothing(sorted: seq<Message>, m: Message)
    requires IsNeutral(m)
    ensures Open(Insert(MessageStamp, sorted, m)) == Open(sorted)
  {
    if sorted != [] && Before(MessageStamp(m), MessageStamp(sorted[|sorted| - 1])) {
      var front, last := sorted[..|sorted| - 1], sorted[|sorted| - 1];
      NeutralChangesNothing(front, m);
      OpenSnoc(Insert(MessageStamp, front, m), last);
    } else {
      OpenSnoc(sorted, m);
    }
  }

  lemma InChannelSnoc(messages: seq<Message>, m: Message, channel: string)
    ensures InChannel(messages + [m], channel)
            == if m.channel == channel then InChannel(messages, channel) + [m] else InChannel(messages, channel)
    ensures m.channel == channel ==>
              Sort(MessageStamp, InChannel(messages + [m], channel))
              == Insert(MessageStamp, Sort(MessageStamp, InChannel(messages, channel)), m)
  {
    assert (messages + [m])[..|messages|] == messages;
    if m.channel == channel {
      var c := InChannel(messages, channel);
      assert (c + [m])[..|c|] == c;
    }
  }

  // Thread replies, acknowledgements and consent prompts never change which
  // question is open, whatever time they carry.
  lemma NeutralMessageKeepsOpen(messages: seq<Message>, m: Message, channel: string)
    requires IsNeutral(m)
    ensures OpenIn(messages + [m], channel) == OpenIn(messages, channel)
  {
    InChannelSnoc(messages, m, channel);
    if m.channel == channel {
      NeutralChangesNothing(Sort(MessageStamp, InChannel(messages, channel)), m);
    }
  }

  // A check-in, a clarification or a nudge stamped after everything else in
  // its channel is the open question from then on.
  lemma QuestionOpens(messages: seq<Message>, q: Message, purpose: string)
    requires q.direction.Bot? && q.correlation.Some? && q.correlation.value != "" && q.purpose == Some(purpose)
    requires purpose == "status_checkin" || purpose == "status_clarification" || purpose == "status_nudge"
    requires forall m :: m in messages && m.channel == q.channel ==> m.createdAt < q.createdAt
    ensures OpenIn(messages + [q], q.channel) == Some(q.id)
    ensures forall channel :: channel != q.channel ==> OpenIn(messages + [q], channel) == OpenIn(messages, channel)
  {
    hide Sort, InChannel, Open, Before;
    var sorted := Sort(MessageStamp, InChannel(messages, q.channel));
    InChannelSnoc(messages, q, q.channel);
    LastGoesLast(sorted, q);
    OpenSnoc(sorted, q);
    forall channel | channel != q.channel
      ensures OpenIn(messages + [q], channel) == OpenIn(messages, channel)
    {
      InChannelSnoc(messages, q, channel);
    }
  }

  lemma LastGoesLast(sorted: seq<Message>, m: Message)
    requires forall x :: x in sorted ==> x.createdAt < m.createdAt
    ensures Insert(MessageStamp, sorted, m) == sorted + [m]
  {
    assert sorted != [] ==> sorted[|sorted| - 1] in sorted;
  }

  // The question the register holds, with only neutral messages after it.
  lemma {:induction false} OpenQuestionAt(transcript: seq<Message>)
    ensures Open(transcript).Some? ==>
              exists i :: && 0 <= i < |transcript| && IsQuestion(transcript[i])
                          && Open(transcript) == Some(transcript[i].id)
                          && forall j :: i < j < |transcript| ==> IsNeutral(transcript[j])
  {
    if transcript != [] {
      var front, last := transcript[..|transcript| - 1], transcript[|transcript| - 1];
      OpenQuestionAt(front);
      if Open(transcript).Some? {
        if IsQuestion(last) {
          assert Open(transcript) == Some(transcript[|transcript| - 1].id);
        } else {
          var i :| && 0 <= i < |front| && IsQuestion(front[i]) && Open(front) == Some(front[i].id)
                   && forall j :: i < j < |front| ==> IsNeutral(front[j]);
          assert transcript[i] == front[i];
          assert forall j :: i < j < |front| ==> transcript[j] == front[j];
        }
      }
    }
  }

  // An answer filed against the open question closes it exactly when its own
  // stamp is after the question's. The caller chooses that stamp: dated
  // before the question, it leaves the question open for another answer.
  lemma AnswerClosesIff(messages: seq<Message>, q: Message, answer: Message)
    requires q in messages && IsQuestion(q) && OpenIn(messages, q.channel) == Some(q.id)
    requires forall x, y :: x in messages && y in messages && x.id == y.id ==> x == y
    requires IsAnswer(answer) && answer.channel == q.channel && answer.id != q.id
    ensures OpenIn(messages + [answer], q.channel)
            == if Before(MessageStamp(q), MessageStamp(answer)) then None else Some(q.id)
  {
    var sorted := Sort(MessageStamp, InChannel(messages, q.channel));
    SortSorted(MessageStamp, InChannel(messages, q.channel));
    InChannelSnoc(messages, answer, q.channel);
    hide Sort, InChannel, Insert;
    OpenQuestionAt(sorted);
    var i :| && 0 <= i < |sorted| && IsQuestion(sorted[i]) && Open(sorted) == Some(sorted[i].id)
             && forall j :: i < j < |sorted| ==> IsNeutral(sorted[j]);
    assert sorted[i] in messages && sorted[i] == q;
    BeforeTotal(MessageStamp(q), MessageStamp(answer));
    AnswerInserted(sorted, i, answer);
  }

  lemma {:induction false} AnswerInserted(sorted: seq<Message>, i: nat, answer: Message)
    requires Sorted(MessageStamp, sorted) && IsAnswer(answer)
    requires i < |sorted| && IsQuestion(sorted[i])
    requires forall j :: i < j < |sorted| ==> IsNeutral(sorted[j])
    requires MessageStamp(sorted[i]) != MessageStamp(answer)
    ensures Open(Insert(MessageStamp, sorted, answer))
            == if Before(MessageStamp(sorted[i]), MessageStamp(answer)) then None else Some(sorted[i].id)
  {
    var front, last := sorted[..|sorted| - 1], sorted[|sorted| - 1];
    BeforeTotal(MessageStamp(answer), MessageStamp(last));
    BeforeTotal(MessageStamp(answer), MessageStamp(sorted[i]));
    if Before(MessageStamp(answer), MessageStamp(last)) {
      assert Insert(MessageStamp, sorted, answer) == Insert(MessageStamp, front, answer) + [last];
      OpenSnoc(Insert(MessageStamp, front, answer), last);
      if i < |sorted| - 1 {
        AnswerInserted(front, i, answer);
      }
    } else {
      assert Insert(MessageStamp, sorted, answer) == sorted + [answer];
      OpenSnoc(sorted, answer);
      if i < |sorted| - 1 && Before(MessageStamp(answer), MessageStamp(sorted[i])) {
        BeforeTotal(MessageStamp(last), MessageStamp(sorted[i]));
        BeforeTransitive(MessageStamp(answer), MessageStamp(sorted[i]), MessageStamp(last));
      }
    }
  }

  // ------------------------------------------------------------ whole transcripts

  // What the send path may append: bot messages and thread replies at will,
  // an answer only to the question open at that moment.
  ghost predicate MayFollow(messages: seq<Message>, m: Message) {
    && (forall x :: x in messages ==> x.id != m.id)
    && (IsAnswer(m) ==> m.replyTo.Some? && OpenIn(messages, m.channel) == m.replyTo)
  }

  ghost predicate Sent(messages: seq<Message>) {
    forall i :: 0 <= i < |messages| ==> MayFollow(messages[..i], messages[i])
  }

  lemma SentSnoc(messages: seq<Message>, m: Message)
    requires Sent(messages) && MayFollow(messages, m)
    ensures Sent(messages + [m])
  {
    var all := messages + [m];
    forall i | 0 <= i < |all|
      ensures MayFollow(all[..i], all[i])
    {
      assert i < |messages| ==> all[..i] == messages[..i];
      assert i == |messages| ==> all[..i] == messages;
    }
  }

  lemma {:induction false} StampedInOrder(messages: seq<Message>)
    requires StrictlySorted(MessageStamp, messages)
    ensures forall channel :: Sort(MessageStamp, InChannel(messages, channel)) == InChannel(messages, channel)
  {
    if messages != [] {
      var front, last := messages[..|messages| - 1], messages[|messages| - 1];
      StampedInOrder(front);
      assert messages == front + [last];
      forall channel
        ensures Sort(MessageStamp, InChannel(messages, channel)) == InChannel(messages, channel)
      {
        InChannelSnoc(front, last, channel);
        var c := InChannel(front, channel);
        if last.channel == channel && c != [] {
          assert c[|c| - 1] in front;
          BeforeTotal(MessageStamp(c[|c| - 1]), MessageStamp(last));
        }
      }
    }
  }

  ghost predicate AnsweredIn(messages: seq<Message>, q: string) {
    exists m :: m in messages && IsAnswer(m) && m.replyTo == Some(q)
  }

  lemma OpenCarries(front: seq<Message>, last: Message, channel: string)
    requires StrictlySorted(MessageStamp, front + [last])
    ensures OpenIn(front + [last], channel)
            == if last.channel == channel then Next(OpenIn(front, channel), last) else OpenIn(front, channel)
  {
    assert (front + [last])[..|front|] == front;
    StampedInOrder(front);
    StampedInOrder(front + [last]);
    InChannelSnoc(front, last, channel);
    OpenSnoc(InChannel(front, channel), last);
  }

  ghost predicate Asked(messages: seq<Message>, channel: string, id: string) {
    exists q :: q in messages && q.channel == channel && q.id == id
  }

  // A question still open has no answer yet, and every answer has its
  // question in its own channel.
  ghost predicate FiledOnce(messages: seq<Message>) {
    && (forall channel :: OpenIn(messages, channel).Some? ==>
          && !AnsweredIn(messages, OpenIn(messages, channel).value)
          && Asked(messages, channel, OpenIn(messages, channel).value))
    && (forall m :: m in messages && IsAnswer(m) ==> m.replyTo.Some? && Asked(messages, m.channel, m.replyTo.value))
  }

  lemma OneMoreFiled(front: seq<Message>, last: Message)
    requires FiledOnce(front) && MayFollow(front, last)
    requires forall x, y :: x in front && y in front && x.id == y.id ==> x == y
    requires StrictlySorted(MessageStamp, front + [last])
    ensures FiledOnce(front + [last])
  {
    hide OpenIn;
    var messages := front + [last];
    forall channel | OpenIn(messages, channel).Some?
      ensures !AnsweredIn(messages, OpenIn(messages, channel).value)
      ensures Asked(messages, channel, OpenIn(messages, channel).value)
    {
      OpenCarries(front, last, channel);
      var id := OpenIn(messages, channel).value;
      if last.channel == channel && IsQuestion(last) {
        assert last in messages;
        assert id == last.id;
        assert forall m :: m in front && IsAnswer(m) ==> Asked(front, m.channel, m.replyTo.value);
        assert !AnsweredIn(front, last.id);
      } else {
        assert OpenIn(front, channel) == Some(id);
        var q :| q in front && q.channel == channel && q.id == id;
        assert q in messages;
        assert IsAnswer(last) ==> Asked(front, last.channel, last.replyTo.value);
      }
    }
    forall m | m in messages && IsAnswer(m)
      ensures m.replyTo.Some? && Asked(messages, m.channel, m.replyTo.value)
    {
      var q :| q in front && q.channel == m.channel && q.id == m.replyTo.value;
      assert q in messages;
    }
  }

  lemma {:induction false} SentIsFiledOnce(messages: seq<Message>)
    requires Sent(messages) && StrictlySorted(MessageStamp, messages)
    ensures FiledOnce(messages)
    ensures forall x, y :: x in messages && y in messages && x.id == y.id ==> x == y
  {
    if messages != [] {
      var front, last := messages[..|messages| - 1], messages[|messages| - 1];
      assert messages == front + [last];
      SentPrefix(messages);
      SentIsFiledOnce(front);
      OneMoreFiled(front, last);
    }
  }

  lemma SentPrefix(messages: seq<Message>)
    requires Sent(messages) && messages != []
    ensures Sent(messages[..|messages| - 1])
    ensures MayFollow(messages[..|messages| - 1], messages[|messages| - 1])
  {
    var front := messages[..|messages| - 1];
    assert forall i :: 0 <= i < |front| ==> front[..i] == messages[..i];
    assert MayFollow(messages[..|front|], messages[|front|]);
  }

  // In a transcript whose stamps only grow, no question is answered twice.
  lemma {:induction false} NoQuestionAnsweredTwice(messages: seq<Message>)
    requires Sent(messages) && StrictlySorted(MessageStamp, messages)
    ensures forall i, j :: 0 <= i < j < |messages| && IsAnswer(messages[i]) && IsAnswer(messages[j]) ==>
              messages[i].replyTo != messages[j].replyTo
  {
    hide OpenIn;
    if messages != [] {
      var front, last := messages[..|messages| - 1], messages[|messages| - 1];
      assert messages == front + [last];
      SentPrefix(messages);
      NoQuestionAnsweredTwice(front);
      SentIsFiledOnce(front);
      assert IsAnswer(last) ==> last.replyTo.Some? && !AnsweredIn(front, last.replyTo.value);
      assert forall i :: 0 <= i < |front| ==> messages[i] in front;
    }
  }
}
