// The simulator's in-memory store and send path, step by step.
module ChatSimulatorStore {
  import opened Common
  import opened Ordering
  import opened ChatSimulator
  import Decimal
  import Text

  // str(int(seconds)): truncated toward zero
  function Seconds(at: int): (s: string)
    ensures '.' !in s
    ensures at >= 0 ==> forall c :: c in s ==> Decimal.IsDigit(c)
  {
    if at >= 0 then Decimal.Digits(at / 1_000_000)
    else if -at < 1_000_000 then "0"
    else "-" + Decimal.Digits(-at / 1_000_000)
  }

  // The whole seconds, with a sign before the epoch.
  lemma SecondsTruncate(at: int)
    ensures at >= 0 ==> Decimal.Value(Seconds(at)) == at / 1_000_000
    ensures at <= -1_000_000 ==>
              Seconds(at)[0] == '-' && Seconds(at)[1..] == Decimal.Digits(-at / 1_000_000)
    ensures -1_000_000 < at < 0 ==> Seconds(at) == "0"
  {
  }

  // f"{int(observed_at.timestamp())}.{counter:06d}"
  function MessageId(at: int, counter: nat): string {
    Seconds(at) + "." + Decimal.Padded(counter, 6)
  }

  lemma MessageIdNamesItsCounter(a: int, i: nat, b: int, j: nat)
    requires MessageId(a, i) == MessageId(b, j)
    ensures i == j
  {
    var id := MessageId(a, i);
    Text.FindAfter('.', Seconds(a), Decimal.Padded(i, 6));
    Text.FindAfter('.', Seconds(b), Decimal.Padded(j, 6));
    assert id[|Seconds(a)| + 1..] == Decimal.Padded(i, 6);
    assert id[|Seconds(b)| + 1..] == Decimal.Padded(j, 6);
  }

  // Up to a million messages, those of one second are in the order recorded.
  lemma MessageIdsInOrder(at: int, i: nat, j: nat)
    requires i < j < 1_000_000
    ensures Text.Less(MessageId(at, i), MessageId(at, j))
  {
    assert Decimal.PowerOfTen(6) == 1_000_000;
    Decimal.DigitsAreFew(i, 6);
    Decimal.DigitsAreFew(j, 6);
    Decimal.EquallyWideInOrder(Decimal.Padded(i, 6), Decimal.Padded(j, 6));
    Text.LessBehind(Seconds(at) + ".", Decimal.Padded(i, 6), Decimal.Padded(j, 6));
  }

  // f"D{user_id.removeprefix('U') or user_id}"
  function ChannelId(user: string): string {
    if |user| > 1 && user[0] == 'U' then "D" + user[1..] else "D" + user
  }

  // Ids as Slack gives them.
  predicate IsUserId(user: string) {
    |user| > 1 && user[0] == 'U'
  }

  // What one person's id becomes once its U is dropped is another's id.
  predicate IsBareForm(bare: string, user: string) {
    IsUserId(user) && user == "U" + bare && !IsUserId(bare)
  }

  // Two people share a channel exactly when one id is the other without its U.
  lemma ChannelsApartIff(a: string, b: string)
    requires a != b
    ensures ChannelId(a) == ChannelId(b) <==> IsBareForm(a, b) || IsBareForm(b, a)
  {
    var x, y := ChannelId(a), ChannelId(b);
    assert x[1..] == (if IsUserId(a) then a[1..] else a) && y[1..] == (if IsUserId(b) then b[1..] else b);
    assert IsUserId(a) ==> a == "U" + a[1..];
    assert IsUserId(b) ==> b == "U" + b[1..];
    assert forall s: string :: ("U" + s)[1..] == s;
  }

  // What a check-in or the reply pipeline posts to the person it talks to.
  datatype BotPost = BotPost(text: string, correlation: string, purpose: Option<string>, createdAt: int)

  function BotMessage(messages: seq<Message>, channel: string, user: string, post: BotPost): Message {
    Message(MessageId(post.createdAt, |messages| + 1), post.createdAt, channel, user, Bot, post.text,
            Some(post.correlation), post.purpose, None, None)
  }

  function Posted(messages: seq<Message>, channel: string, user: string, posts: seq<BotPost>): seq<Message>
    decreases |posts|
  {
    if posts == [] then messages
    else Posted(messages + [BotMessage(messages, channel, user, posts[0])], channel, user, posts[1..])
  }

  function Reply(messages: seq<Message>, parent: Message, text: string, createdAt: int, inThread: bool): Message {
    Message(MessageId(createdAt, |messages| + 1), createdAt, parent.channel, parent.user, User, text,
            if inThread then None else parent.correlation, None, Some(parent.id),
            if inThread then Some(parent.id) else None)
  }

  ghost predicate Numbered(messages: seq<Message>) {
    forall i :: 0 <= i < |messages| ==> messages[i].id == MessageId(messages[i].createdAt, i + 1)
  }

  // Messages with one time stamp are read in the order they were recorded.
  lemma TiesAreReadAsRecorded(messages: seq<Message>, i: nat, j: nat)
    requires Numbered(messages) && i < j < |messages| < 1_000_000
    requires messages[i].createdAt == messages[j].createdAt
    ensures Before(MessageStamp(messages[i]), MessageStamp(messages[j]))
  {
    hide MessageId;
    MessageIdsInOrder(messages[i].createdAt, i + 1, j + 1);
  }

  lemma NumberedIdsDiffer(messages: seq<Message>, m: Message)
    requires Numbered(messages) && m.id == MessageId(m.createdAt, |messages| + 1)
    ensures Numbered(messages + [m])
    ensures forall x :: x in messages ==> x.id != m.id
    ensures forall i, j :: 0 <= i < j < |messages| ==> messages[i].id != messages[j].id
  {
    hide MessageId;
    forall i | 0 <= i < |messages|
      ensures messages[i].id != m.id
    {
      if messages[i].id == m.id {
        MessageIdNamesItsCounter(messages[i].createdAt, i + 1, m.createdAt, |messages| + 1);
      }
    }
    forall i, j | 0 <= i < j < |messages|
      ensures messages[i].id != messages[j].id
    {
      if messages[i].id == messages[j].id {
        MessageIdNamesItsCounter(messages[i].createdAt, i + 1, messages[j].createdAt, j + 1);
      }
    }
  }

  lemma {:induction false} PostingKeeps(messages: seq<Message>, channel: string, user: string, posts: seq<BotPost>)
    requires Numbered(messages)
    ensures Numbered(Posted(messages, channel, user, posts))
    ensures messages <= Posted(messages, channel, user, posts)
    ensures Sent(messages) ==> Sent(Posted(messages, channel, user, posts))
    decreases |posts|
  {
    if posts != [] {
      var m := BotMessage(messages, channel, user, posts[0]);
      NumberedIdsDiffer(messages, m);
      if Sent(messages) {
        SentSnoc(messages, m);
      }
      PostingKeeps(messages + [m], channel, user, posts[1..]);
    }
  }

  // A message of a person who has a channel, in that channel.
  ghost predicate IsFor(m: Message, people: set<string>) {
    m.user in people && m.channel == ChannelId(m.user)
  }

  ghost predicate AllFor(messages: seq<Message>, people: set<string>) {
    forall m :: m in messages ==> IsFor(m, people)
  }

  // Both tables agree, whoever opened a channel last.
  ghost predicate ChannelsOk(channels: map<string, string>, users: map<string, string>) {
    && (forall u :: u in channels ==> channels[u] == ChannelId(u) && channels[u] in users)
    && (forall c :: c in users ==> users[c] in channels && ChannelId(users[c]) == c)
  }

  lemma OneMoreChannel(messages: seq<Message>, channels: map<string, string>, users: map<string, string>, user: string)
    requires ChannelsOk(channels, users) && AllFor(messages, channels.Keys)
    ensures ChannelsOk(channels[user := ChannelId(user)], users[ChannelId(user) := user])
    ensures AllFor(messages, channels[user := ChannelId(user)].Keys)
  {
    hide ChannelId;
  }

  lemma OneMoreFor(messages: seq<Message>, m: Message, people: set<string>)
    requires AllFor(messages, people) && IsFor(m, people)
    ensures AllFor(messages + [m], people)
  {
  }

  lemma ChannelOfUser(channels: map<string, string>, users: map<string, string>, channel: string)
    requires ChannelsOk(channels, users) && channel in users
    ensures users[channel] in channels && ChannelId(users[channel]) == channel
  {
  }

  // Among people with ids of Slack's kind, only the person's own messages are
  // in the person's channel.
  lemma OwnChannel(m: Message, user: string, people: set<string>)
    requires IsFor(m, people) && m.channel == ChannelId(user)
    ensures m.user == user || IsBareForm(m.user, user) || IsBareForm(user, m.user)
    ensures IsUserId(user) && (forall u :: u in people ==> IsUserId(u)) ==> m.user == user
  {
    if m.user != user {
      ChannelsApartIff(m.user, user);
    }
  }

  datatype SendResult = Delivered(messageId: string, startedCheckin: bool) | Unavailable

  class Simulator {
    var messages: seq<Message>
    var channels: map<string, string>
    var channelUsers: map<string, string>
    var counter: nat

    ghost predicate Valid()
      reads this
    {
      && counter == |messages|
      && Numbered(messages)
      && ChannelsOk(channels, channelUsers)
      && AllFor(messages, channels.Keys)
    }

    constructor ()
      ensures Valid() && messages == [] && Sent(messages)
    {
      messages, channels, channelUsers, counter := [], map[], map[], 0;
    }

    method OpenChannel(user: string) returns (channel: string)
      requires Valid()
      modifies this`channels, this`channelUsers
      ensures Valid() && channel == ChannelId(user) && channel in channelUsers && user in channels
      ensures user in old(channels) ==> channels == old(channels) && channelUsers == old(channelUsers)
      ensures user !in old(channels) ==>
                channels == old(channels)[user := channel] && channelUsers == old(channelUsers)[channel := user]
    {
      hide Numbered, ChannelId, AllFor;
      if user in channels {
        return channels[user];
      }
      OneMoreChannel(messages, channels, channelUsers, user);
      channel := ChannelId(user);
      channels := channels[user := channel];
      channelUsers := channelUsers[channel := user];
    }

    method RecordBotMessage(channel: string, post: BotPost) returns (recorded: Option<Message>)
      requires Valid()
      modifies this`messages, this`counter
      ensures Valid()
      ensures if channel in channelUsers
              then recorded == Some(BotMessage(old(messages), channel, channelUsers[channel], post))
                   && messages == old(messages) + [recorded.value]
              else recorded == None && messages == old(messages)
    {
      hide Numbered, ChannelId, MessageId, ChannelsOk, AllFor;
      if channel !in channelUsers {
        return None;
      }
      counter := counter + 1;
      ChannelOfUser(channels, channelUsers, channel);
      var m := Message(MessageId(post.createdAt, counter), post.createdAt, channel, channelUsers[channel], Bot,
                       post.text, Some(post.correlation), post.purpose, None, None);
      NumberedIdsDiffer(messages, m);
      OneMoreFor(messages, m, channels.Keys);
      messages := messages + [m];
      return Some(m);
    }

    method MessageById(id: string) returns (found: Option<Message>)
      ensures found.None? ==> forall m :: m in messages ==> m.id != id
      ensures found.Some? ==> found.value in messages && found.value.id == id
    {
      for i := 0 to |messages|
        invariant forall m :: m in messages[..i] ==> m.id != id
      {
        if messages[i].id == id {
          return Some(messages[i]);
        }
      }
      return None;
    }

    method RecordUserReply(parentId: string, text: string, createdAt: int, inThread: bool)
      returns (recorded: Option<Message>)
      requires Valid()
      modifies this`messages, this`counter
      ensures Valid()
      ensures recorded.Some? <==> exists p :: p in old(messages) && p.id == parentId && p.direction.Bot?
      ensures recorded.None? ==> messages == old(messages)
      ensures recorded.Some? ==>
                && messages == old(messages) + [recorded.value]
                && recorded.value.direction.User? && recorded.value.text == text
                && recorded.value.createdAt == createdAt
                && recorded.value.replyTo == Some(parentId)
                && recorded.value.thread == (if inThread then Some(parentId) else None)
                && exists p :: && p in old(messages) && p.id == parentId && p.direction.Bot?
                               && recorded.value == Reply(old(messages), p, text, createdAt, inThread)
                               && recorded.value.user == p.user && recorded.value.channel == p.channel
                               && recorded.value.correlation == (if inThread then None else p.correlation)
    {
      hide Numbered, MessageId, ChannelId, ChannelsOk, AllFor;
      var parent := MessageById(parentId);
      IdsDiffer(messages);
      if parent.None? || !parent.value.direction.Bot? {
        return None;
      }
      counter := counter + 1;
      var m := Reply(messages, parent.value, text, createdAt, inThread);
      ParentIsFor(messages, parent.value, channels.Keys);
      NumberedIdsDiffer(messages, m);
      OneMoreFor(messages, m, channels.Keys);
      messages := messages + [m];
      return Some(m);
    }

    // The backward scan.
    method OpenQuestion(user: string) returns (open: Option<string>)
      requires Valid()
      modifies this`channels, this`channelUsers
      ensures Valid() && ChannelId(user) in channelUsers && user in channels
      ensures user in old(channels) ==> channels == old(channels) && channelUsers == old(channelUsers)
      ensures open == OpenIn(messages, ChannelId(user))
    {
      hide Numbered, ChannelId, Sort, InChannel, ChannelsOk, AllFor;
      var channel := OpenChannel(user);
      var transcript := Sort(MessageStamp, InChannel(messages, channel));
      assert transcript[..|transcript|] == transcript;
      for i := |transcript| downto 0
        invariant Open(transcript) == Open(transcript[..i])
      {
        var m := transcript[i];
        assert transcript[..i + 1][..i] == transcript[..i];
        if m.direction.User? {
          if m.thread.Some? {
            continue;
          }
          return None;
        }
        if IsQuestion(m) {
          return Some(m.id);
        }
      }
      return None;
    }

    method Post(channel: string, posts: seq<BotPost>)
      requires Valid() && channel in channelUsers
      modifies this`messages, this`counter
      ensures Valid()
      ensures messages == Posted(old(messages), channel, channelUsers[channel], posts)
    {
      for i := 0 to |posts|
        invariant Valid()
        invariant Posted(old(messages), channel, channelUsers[channel], posts)
                  == Posted(messages, channel, channelUsers[channel], posts[i..])
      {
        var _ := RecordBotMessage(channel, posts[i]);
        assert posts[i..][1..] == posts[i + 1..];
      }
    }

    // `checkin` is what start_checkin posts if it is called, `answers` what
    // the reply pipeline posts once the answer is in.
    method SendUserMessage(user: string, text: string, createdAt: int, checkin: seq<BotPost>, answers: seq<BotPost>)
      returns (result: SendResult)
      requires Valid()
      modifies this
      ensures Valid()
      ensures var channel := ChannelId(user);
              && channel in channelUsers
              && var asked := if OpenIn(old(messages), channel).Some? then old(messages)
                              else Posted(old(messages), channel, channelUsers[channel], checkin);
              match OpenIn(asked, channel)
              case None => result.Unavailable? && messages == asked
              case Some(q) =>
                exists p :: && p in asked && p.id == q && p.channel == channel && IsQuestion(p)
                            && (p.user == user || IsBareForm(p.user, user) || IsBareForm(user, p.user))
                            && (IsUserId(user) && (forall u :: u in channels ==> IsUserId(u)) ==> p.user == user)
                            && var answer := Reply(asked, p, text, createdAt, false);
                            && IsAnswer(answer) && answer.replyTo == Some(q)
                            && result == Delivered(answer.id, OpenIn(old(messages), channel).None?)
                            && messages == Posted(asked + [answer], channel, channelUsers[channel], answers)
      ensures Sent(old(messages)) ==> Sent(messages)
    {
      hide Numbered, MessageId, OpenIn, ChannelId, Sent, MayFollow, ChannelsOk, AllFor, IsUserId;
      var channel := ChannelId(user);
      var question := OpenQuestion(user);
      var started := false;
      if question.None? {
        PostingKeeps(messages, channel, channelUsers[channel], checkin);
        Post(channel, checkin);
        question := OpenQuestion(user);
        started := true;
      }
      if question.None? {
        return Unavailable;
      }
      ghost var asked := messages;
      QuestionStands(asked, channel);
      QuestionIsOwn(asked, user, channels.Keys);
      var reply := RecordUserReply(question.value, text, createdAt, false);
      assert reply.Some?;
      IdsDiffer(asked);
      AnswerKeepsSent(asked, reply.value);
      PostingKeeps(messages, channel, channelUsers[channel], answers);
      Post(channel, answers);
      return Delivered(reply.value.id, started);
    }

    // A reply in the thread of one of the bot's messages: no check-in is
    // started and the open question stays as it was.
    method SendThreadReply(user: string, threadId: string, text: string, createdAt: int) returns (result: SendResult)
      requires Valid()
      modifies this`messages, this`counter
      ensures Valid()
      ensures result.Delivered? <==>
                exists p :: p in old(messages) && p.id == threadId && p.direction.Bot? && p.user == user
      ensures result.Unavailable? ==> messages == old(messages)
      ensures result.Delivered? ==>
                && !result.startedCheckin
                && exists p :: && p in old(messages) && p.id == threadId && p.direction.Bot? && p.user == user
                               && messages == old(messages) + [Reply(old(messages), p, text, createdAt, true)]
      ensures forall channel :: OpenIn(messages, channel) == OpenIn(old(messages), channel)
      ensures Sent(old(messages)) ==> Sent(messages)
    {
      hide Numbered, ChannelId, MessageId, ChannelsOk, AllFor, OpenIn, Sent;
      IdsDiffer(messages);
      var parent := MessageById(threadId);
      if parent.None? || !parent.value.direction.Bot? || parent.value.user != user {
        return Unavailable;
      }
      var reply := RecordUserReply(threadId, text, createdAt, true);
      forall channel
        ensures OpenIn(messages, channel) == OpenIn(old(messages), channel)
      {
        NeutralMessageKeepsOpen(old(messages), reply.value, channel);
      }
      IdsDiffer(old(messages));
      AnswerKeepsSent(old(messages), reply.value);
      return Delivered(reply.value.id, false);
    }
  }

  lemma ParentIsFor(messages: seq<Message>, parent: Message, people: set<string>)
    requires AllFor(messages, people) && parent in messages
    ensures IsFor(parent, people)
  {
  }

  lemma IdsDiffer(messages: seq<Message>)
    requires Numbered(messages)
    ensures forall x, y :: x in messages && y in messages && x.id == y.id ==> x == y
  {
    NumberedIdsDiffer(messages, Message(MessageId(0, |messages| + 1), 0, "", "", Bot, "", None, None, None, None));
  }

  lemma AnswerKeepsSent(messages: seq<Message>, answer: Message)
    requires Numbered(messages) && answer.id == MessageId(answer.createdAt, |messages| + 1)
    requires answer.replyTo.Some? && (IsAnswer(answer) ==> OpenIn(messages, answer.channel) == answer.replyTo)
    ensures Sent(messages) ==> Sent(messages + [answer])
  {
    NumberedIdsDiffer(messages, answer);
    if Sent(messages) {
      SentSnoc(messages, answer);
    }
  }

  lemma QuestionStands(messages: seq<Message>, channel: string)
    ensures OpenIn(messages, channel).Some? ==>
              exists p :: && p in messages && p.id == OpenIn(messages, channel).value
                          && p.channel == channel && IsQuestion(p)
  {
    var transcript := Sort(MessageStamp, InChannel(messages, channel));
    OpenQuestionAt(transcript);
    assert forall i :: 0 <= i < |transcript| ==> transcript[i] in transcript;
  }

  // The question open in a person's channel was asked of that person.
  lemma QuestionIsOwn(messages: seq<Message>, user: string, people: set<string>)
    requires AllFor(messages, people)
    ensures forall p :: p in messages && p.channel == ChannelId(user) ==>
              && (p.user == user || IsBareForm(p.user, user) || IsBareForm(user, p.user))
              && (IsUserId(user) && (forall u :: u in people ==> IsUserId(u)) ==> p.user == user)
  {
    forall p | p in messages && p.channel == ChannelId(user)
      ensures p.user == user || IsBareForm(p.user, user) || IsBareForm(user, p.user)
      ensures IsUserId(user) && (forall u :: u in people ==> IsUserId(u)) ==> p.user == user
    {
      OwnChannel(p, user, people);
    }
  }
}
