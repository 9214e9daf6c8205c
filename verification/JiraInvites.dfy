// Inviting the roster to Jira: throttled, possibly hanging posts, a search
// after each failure, and at most one person waited for in vain.
module JiraInvites {
  import opened Common
  import Decimal

  const ATTEMPTS := 4
  const MAX_WAIT := 180

  datatype Response = Response(code: nat, retryAfter: Option<string>)

  // What a post comes to: whether the invitation landed, and the answer, if
  // one came back in time. A refused or hanging post may have landed.
  datatype Reply = Reply(landed: bool, response: Option<Response>)

  predicate Success(r: Option<Response>) {
    r.Some? && 200 <= r.value.code < 300
  }

  predicate Final(r: Option<Response>) {
    r.Some? && r.value.code != 429 && r.value.code < 500
  }

  // The seconds the answer asks to wait, if it gives a number.
  function Asked(r: Option<Response>): Option<nat> {
    if r.Some? && r.value.retryAfter.Some? && r.value.retryAfter.value != ""
       && forall c :: c in r.value.retryAfter.value ==> Decimal.IsDigit(c)
    then Some(Decimal.Value(r.value.retryAfter.value)) else None
  }

  function RetryAfter(r: Option<Response>): (seconds: nat)
    ensures seconds <= MAX_WAIT
    ensures Asked(r).Some? ==> seconds == 180 || seconds > Asked(r).value
    ensures Asked(r).None? ==> seconds == 30
  {
    if r.None? || r.value.retryAfter.None? then 30
    else
      var header := r.value.retryAfter.value;
      if header == "" || exists i :: 0 <= i < |header| && !Decimal.IsDigit(header[i]) then 30
      else if Decimal.Value(header) + 2 < MAX_WAIT then Decimal.Value(header) + 2 else MAX_WAIT
  }

  // An answer that ends the run: a client error other than being throttled.
  predicate IsRefused(code: nat) {
    code < 200 || (300 <= code < 500 && code != 429)
  }

  // Throttled, failed or timed out, and not there after all.
  predicate IsTriedAgain(reply: Reply) {
    !reply.landed && (reply.response.None? || reply.response.value.code == 429 || reply.response.value.code >= 500)
  }

  datatype Outcome = Joined | GaveUp | Aborted

  class Inviter {
    const replies: nat -> Reply
    var members: set<string>
    var landings: multiset<string>
    var posts: nat
    var waited: nat

    // An accepted invitation has landed.
    ghost predicate Valid()
      reads this
    {
      && (forall n: nat :: Success(replies(n).response) ==> replies(n).landed)
      && (forall e :: landings[e] <= 1 && (landings[e] == 1 ==> e in members))
    }

    constructor (replies: nat -> Reply, members: set<string>)
      requires forall n: nat :: Success(replies(n).response) ==> replies(n).landed
      ensures Valid() && this.members == members && posts == 0 && waited == 0
    {
      this.replies, this.members := replies, members;
      landings, posts, waited := multiset{}, 0, 0;
    }

    // Only ever called for someone who is not on the site.
    method Post(email: string) returns (response: Option<Response>)
      requires Valid() && email !in members
      modifies this
      ensures Valid() && posts == old(posts) + 1 && waited == old(waited)
      ensures members == old(members) || members == old(members) + {email}
      ensures response == replies(old(posts)).response
      ensures email in members <==> replies(old(posts)).landed
    {
      var reply := replies(posts);
      posts := posts + 1;
      if reply.landed {
        members, landings := members + {email}, landings[email := landings[email] + 1];
      }
      return reply.response;
    }

    method Invite(email: string) returns (outcome: Outcome)
      requires Valid() && email !in members
      modifies this
      ensures Valid() && old(posts) < posts <= old(posts) + 4
      ensures waited <= old(waited) + 720
      ensures members == old(members) || members == old(members) + {email}
      ensures outcome == Joined ==> email in members
      ensures outcome == GaveUp ==> email !in members && posts == old(posts) + 4
      ensures forall n: nat :: old(posts) <= n < posts - 1 ==> IsTriedAgain(replies(n))
      ensures var last := replies(posts - 1);
              match outcome
              case Joined => last.landed
              case Aborted => last.response.Some? && IsRefused(last.response.value.code)
              case GaveUp => IsTriedAgain(last)
    {
      for attempt := 0 to ATTEMPTS
        invariant Valid() && posts == old(posts) + attempt && members == old(members)
        invariant waited <= old(waited) + attempt * MAX_WAIT
        invariant forall n: nat :: old(posts) <= n < posts ==> IsTriedAgain(replies(n))
      {
        var response := Post(email);
        if Success(response) {
          return Joined;
        }
        if Final(response) {
          return Aborted;
        }
        if email in members {
          return Joined;
        }
        waited := waited + RetryAfter(response);
      }
      return GaveUp;
    }

    // Goes through the roster once. At most one person is waited for in vain:
    // after that nobody else is invited in this run.
    method EnsureUsers(people: seq<string>, known: set<string>) returns (accounts: set<string>, giveUps: nat,
        done: bool)
      requires Valid()
      modifies this
      ensures Valid() && old(members) <= members && giveUps <= 1
      ensures known <= accounts <= known + members
      ensures posts <= old(posts) + ATTEMPTS * |people|
      ensures waited <= old(waited) + ATTEMPTS * MAX_WAIT * |people|
      ensures done && giveUps == 0 ==> forall e :: e in people ==> e in accounts
    {
      accounts, giveUps := known, 0;
      for n := 0 to |people|
        invariant Valid() && old(members) <= members && giveUps <= 1
        invariant known <= accounts <= known + members
        invariant posts <= old(posts) + ATTEMPTS * n
        invariant waited <= old(waited) + ATTEMPTS * MAX_WAIT * n
        invariant giveUps == 0 ==> forall i :: 0 <= i < n ==> people[i] in accounts
      {
        if people[n] in accounts {
          continue;
        }
        if people[n] in members {
          accounts := accounts + {people[n]};
          continue;
        }
        if giveUps > 0 {
          continue;
        }
        var outcome := Invite(people[n]);
        if outcome == Aborted {
          return accounts, giveUps, false;
        }
        if outcome == GaveUp {
          giveUps := giveUps + 1;
        } else {
          accounts := accounts + {people[n]};
        }
      }
      return accounts, giveUps, true;
    }
  }
}
