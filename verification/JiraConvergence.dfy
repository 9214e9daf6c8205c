// However often the Jira seed is cut off, a run that gets through leaves each
// epic and issue exactly once, as long as one page shows all of a project.
module JiraConvergence {
  import opened CutOff
  import opened JiraSeed

  // ------------------------------------------------------------ what is wanted

  function Wishes(project: string, wishes: seq<Wish>): set<Issue> {
    set w | w in wishes :: Wished(project, w)
  }

  function Epics(project: string, epics: seq<string>): set<Issue> {
    set e | e in epics :: Epic(project, e)
  }

  function Wants(p: Project): set<Issue> {
    Epics(p.key, p.epics) + Wishes(p.key, p.issues)
  }

  // No project wants the same type and summary twice.
  ghost predicate ProjectOk(p: Project) {
    && (forall i, j :: 0 <= i < j < |p.epics| ==> p.epics[i] != p.epics[j])
    && (forall i, j :: 0 <= i < j < |p.issues| ==> Wished(p.key, p.issues[i]) != Wished(p.key, p.issues[j]))
    && Epics(p.key, p.epics) !! Wishes(p.key, p.issues)
  }

  ghost predicate PlanOk(plan: seq<Project>) {
    && (forall n :: 0 <= n < |plan| ==> ProjectOk(plan[n]))
    && (forall m, n :: 0 <= m < n < |plan| ==> plan[m].key != plan[n].key)
  }

  ghost predicate Once(issues: seq<Issue>, x: Issue) {
    forall i, j :: 0 <= i < j < |issues| && issues[i] == x ==> issues[j] != x
  }

  ghost predicate Tidy(issues: seq<Issue>, p: Project) {
    forall x :: x in Wants(p) ==> Once(issues, x)
  }

  function Missing(issues: seq<Issue>, p: Project): set<Issue> {
    set x | x in Wants(p) && x !in issues
  }

  // What the project holds, with what it still lacks, fits on one page.
  predicate Room(issues: seq<Issue>, p: Project) {
    |Of(issues, p.key)| + |Missing(issues, p)| <= PAGE
  }

  ghost predicate Inv(issues: seq<Issue>, plan: seq<Project>) {
    forall n :: 0 <= n < |plan| ==> Tidy(issues, plan[n]) && Room(issues, plan[n])
  }

  // The state file never names the wrong issue.
  ghost predicate KeysOk(l: Ledger) {
    forall summary :: summary in l.keys ==>
      l.keys[summary] < |l.issues| && l.issues[l.keys[summary]].summary == summary
  }

  // A wish is served once its issue is there, its key is known, and its
  // status is the one asked for or cannot be reached from where it is.
  ghost predicate Served(l: Ledger, site: Site, project: string, wish: Wish) {
    && Wished(project, wish) in l.issues && wish.summary in l.keys
    && (wish.status != TODO ==>
          forall k: nat :: k < |l.issues| && l.issues[k] == Wished(project, wish) ==>
            StatusOf(l, k) == wish.status || !site.lets(StatusOf(l, k), wish.status))
  }

  ghost predicate Done(l: Ledger, site: Site, p: Project) {
    && (forall e :: e in p.epics ==> Epic(p.key, e) in l.issues)
    && (forall w :: w in p.issues ==> Served(l, site, p.key, w))
  }

  // From `a` to `b` nothing is lost, and only issues of `touched` are added or moved.
  ghost predicate Stretch(a: Ledger, b: Ledger, touched: set<Issue>) {
    && a.issues <= b.issues && a.keys.Keys <= b.keys.Keys && (KeysOk(a) ==> KeysOk(b))
    && (forall k: nat :: |a.issues| <= k < |b.issues| ==> b.issues[k] in touched)
    && (forall k: nat :: k < |a.issues| && a.issues[k] !in touched ==> StatusOf(b, k) == StatusOf(a, k))
  }

  // No project that had room loses it.
  ghost predicate Fits(a: Ledger, b: Ledger, p: Project) {
    forall q: Project :: (q == p || q.key != p.key) && Room(a.issues, q) ==> Room(b.issues, q)
  }

  ghost predicate Unmoved(a: Ledger, b: Ledger) {
    a.issues == b.issues && a.status == b.status
  }

  lemma StretchTrans(a: Ledger, b: Ledger, c: Ledger, t: set<Issue>, u: set<Issue>)
    requires Stretch(a, b, t) && Stretch(b, c, u)
    ensures Stretch(a, c, t + u)
  {
    hide KeysOk;
    assert forall k: nat :: k < |b.issues| ==> c.issues[k] == b.issues[k];
  }

  lemma ServedStays(a: Ledger, b: Ledger, touched: set<Issue>, site: Site, project: string, wish: Wish)
    requires Stretch(a, b, touched) && Served(a, site, project, wish)
    requires Wished(project, wish) !in touched && Once(b.issues, Wished(project, wish))
    ensures Served(b, site, project, wish)
  {
    hide KeysOk;
    var x := Wished(project, wish);
    var k :| 0 <= k < |a.issues| && a.issues[k] == x;
    assert b.issues[k] == x;
    forall j: nat | j < |b.issues| && b.issues[j] == x
      ensures j == k
    {
    }
  }

  // ------------------------------------------------------------ adding one issue

  lemma AddedIsOnce(issues: seq<Issue>, x: Issue, y: Issue)
    requires x !in issues && Once(issues, y)
    ensures Once(issues + [x], y)
  {
  }

  lemma AddedOf(issues: seq<Issue>, x: Issue, project: string)
    ensures Of(issues + [x], project) == Of(issues, project) + if x.project == project then [|issues|] else []
  {
    assert (issues + [x])[..|issues|] == issues;
  }

  lemma AddedKeepsRoom(issues: seq<Issue>, x: Issue, p: Project)
    requires x !in issues && Room(issues, p) && (x.project == p.key ==> x in Wants(p))
    ensures Room(issues + [x], p)
  {
    AddedOf(issues, x, p.key);
    assert Missing(issues + [x], p) == Missing(issues, p) - {x};
    if x.project == p.key {
      assert x in Missing(issues, p);
    }
  }

  lemma AddedFits(a: Ledger, b: Ledger, p: Project, x: Issue)
    requires x !in a.issues && x in Wants(p) && b.issues == a.issues + [x]
    ensures Fits(a, b, p)
  {
    hide Room;
    forall q: Project | (q == p || q.key != p.key) && Room(a.issues, q)
      ensures Room(b.issues, q)
    {
      AddedKeepsRoom(a.issues, x, q);
    }
  }

  lemma FitsTrans(a: Ledger, b: Ledger, c: Ledger, p: Project)
    requires Fits(a, b, p) && Fits(b, c, p)
    ensures Fits(a, c, p)
  {
    hide Room;
  }

  // ------------------------------------------------------------ one issue, one project

  ghost predicate HaveOk(have: map<Issue, nat>, issues: seq<Issue>) {
    forall x :: x in have ==> have[x] < |issues| && issues[have[x]] == x
  }

  lemma MovedKeeps(s: Session<Ledger>, site: Site, key: nat, wish: Wish, x: Issue)
    requires key < |s.remote.issues| && s.remote.issues[key] == x
    ensures var t := Moved(s, site, key, wish.status);
            && t.remote.issues == s.remote.issues && t.remote.keys == s.remote.keys
            && Stretch(s.remote, t.remote, {x}) && (t.alive ==> s.alive)
            && (t.alive && wish.status != TODO ==>
                  StatusOf(t.remote, key) == wish.status || !site.lets(StatusOf(t.remote, key), wish.status))
            && (wish.status == TODO || StatusOf(s.remote, key) == wish.status
                || !site.lets(StatusOf(s.remote, key), wish.status) ==>
                  t.remote == s.remote)
  {
  }

  lemma NotedKeeps(s: Session<Ledger>, key: nat, x: Issue)
    requires key < |s.remote.issues| && s.remote.issues[key] == x
    ensures Stretch(s.remote, Noted(s, x.summary, key).remote, {x})
  {
  }

  lemma CreatedKeeps(s: Session<Ledger>, x: Issue)
    ensures Stretch(s.remote, Created(s, x).remote, {x})
    ensures Created(s, x).alive ==> Created(s, x).remote.issues == s.remote.issues + [x]
    ensures !Created(s, x).alive ==> Created(s, x).remote == s.remote
  {
  }

  lemma StretchTwice(a: Ledger, b: Ledger, c: Ledger, t: set<Issue>)
    requires Stretch(a, b, t) && Stretch(b, c, t)
    ensures Stretch(a, c, t)
  {
    StretchTrans(a, b, c, t, t);
    assert t + t == t;
  }

  lemma EnsuredStretch(s: Session<Ledger>, site: Site, project: string, have: map<Issue, nat>, wish: Wish)
    requires s.alive && HaveOk(have, s.remote.issues)
    ensures var x, t := Wished(project, wish), Ensured(s, site, project, have, wish);
            && Stretch(s.remote, t.remote, {x})
            && (x in have || !t.alive ==>
                  t.remote.issues == s.remote.issues || t.remote.issues == s.remote.issues + [x])
            && (x in have ==> t.remote.issues == s.remote.issues)
            && (x !in have && t.alive ==> t.remote.issues == s.remote.issues + [x])
  {
    hide Stretch, Moved;
    var x := Wished(project, wish);
    if x in have {
      NotedKeeps(s, have[x], x);
      var noted := Noted(s, wish.summary, have[x]);
      MovedKeeps(noted, site, have[x], wish, x);
      StretchTwice(s.remote, noted.remote, Ensured(s, site, project, have, wish).remote, {x});
    } else {
      CreatedKeeps(s, x);
      var created := Created(s, x);
      if created.alive {
        var key := |s.remote.issues|;
        NotedKeeps(created, key, x);
        var noted := Noted(created, wish.summary, key);
        MovedKeeps(noted, site, key, wish, x);
        StretchTwice(s.remote, created.remote, noted.remote, {x});
        StretchTwice(s.remote, noted.remote, Ensured(s, site, project, have, wish).remote, {x});
      }
    }
  }

  lemma EnsuredServes(s: Session<Ledger>, site: Site, project: string, have: map<Issue, nat>, wish: Wish)
    requires s.alive && HaveOk(have, s.remote.issues) && Once(s.remote.issues, Wished(project, wish))
    requires Wished(project, wish) in have <==> Wished(project, wish) in s.remote.issues
    ensures var t := Ensured(s, site, project, have, wish);
            && (t.alive ==> Served(t.remote, site, project, wish))
            && (Served(s.remote, site, project, wish) ==> Unmoved(s.remote, t.remote))
  {
    hide Stretch, Moved, KeysOk;
    var x, t := Wished(project, wish), Ensured(s, site, project, have, wish);
    if x in have {
      MovedKeeps(Noted(s, wish.summary, have[x]), site, have[x], wish, x);
      assert forall k: nat :: k < |t.remote.issues| && t.remote.issues[k] == x ==> k == have[x];
    } else {
      CreatedKeeps(s, x);
      if Created(s, x).alive {
        var key := |s.remote.issues|;
        MovedKeeps(Noted(Created(s, x), wish.summary, key), site, key, wish, x);
        assert forall k: nat :: k < |t.remote.issues| && t.remote.issues[k] == x ==> k == key;
      }
    }
  }

  // The lookup and the site agree on everything still to come.
  ghost predicate Agree(have: map<Issue, nat>, issues: seq<Issue>, todo: set<Issue>) {
    HaveOk(have, issues) && forall x :: x in todo ==> (x in have <==> x in issues)
  }

  lemma AgreeStays(have: map<Issue, nat>, a: Ledger, b: Ledger, touched: set<Issue>, todo: set<Issue>,
      later: set<Issue>)
    requires Stretch(a, b, touched) && Agree(have, a.issues, todo) && later <= todo && later !! touched
    ensures Agree(have, b.issues, later)
  {
    hide KeysOk;
    assert forall k :: 0 <= k < |a.issues| ==> b.issues[k] == a.issues[k];
    forall x | x in later && x in a.issues
      ensures x in b.issues
    {
      var k :| 0 <= k < |a.issues| && a.issues[k] == x;
      assert b.issues[k] == x;
    }
  }

  lemma NextWish(p: Project, i: nat)
    requires ProjectOk(p) && i < |p.issues|
    ensures var x := Wished(p.key, p.issues[i]);
            && x in Wants(p)
            && Wishes(p.key, p.issues[i..]) == {x} + Wishes(p.key, p.issues[i + 1..])
            && x !in Wishes(p.key, p.issues[i + 1..])
  {
    assert p.issues[i..] == [p.issues[i]] + p.issues[i + 1..];
    assert p.issues[i] in p.issues;
    forall w | w in p.issues[i + 1..]
      ensures Wished(p.key, w) != Wished(p.key, p.issues[i])
    {
      var j :| 0 <= j < |p.issues| - i - 1 && p.issues[i + 1..][j] == w;
      assert p.issues[i + 1 + j] == w;
    }
  }

  lemma NextEpic(p: Project, i: nat)
    requires ProjectOk(p) && i < |p.epics|
    ensures var x := Epic(p.key, p.epics[i]);
            && x in Wants(p)
            && Epics(p.key, p.epics[i..]) == {x} + Epics(p.key, p.epics[i + 1..])
            && x !in Epics(p.key, p.epics[i + 1..])
  {
    assert p.epics[i..] == [p.epics[i]] + p.epics[i + 1..];
    assert p.epics[i] in p.epics;
    forall e | e in p.epics[i + 1..]
      ensures Epic(p.key, e) != Epic(p.key, p.epics[i])
    {
      var j :| 0 <= j < |p.epics| - i - 1 && p.epics[i + 1..][j] == e;
      assert p.epics[i + 1 + j] == e;
    }
  }

  ghost predicate AllServed(l: Ledger, site: Site, p: Project, i: nat)
    requires i <= |p.issues|
  {
    forall j :: i <= j < |p.issues| ==> Served(l, site, p.key, p.issues[j])
  }

  lemma {:induction false} EnsureIssuesKeeps(s: Session<Ledger>, site: Site, p: Project, have: map<Issue, nat>, i: nat)
    requires ProjectOk(p) && i <= |p.issues| && s.alive && Tidy(s.remote.issues, p)
    requires Agree(have, s.remote.issues, Wishes(p.key, p.issues[i..]))
    ensures var t := EnsureIssues(s, site, p.key, have, p.issues[i..]);
            && Stretch(s.remote, t.remote, Wishes(p.key, p.issues[i..])) && Tidy(t.remote.issues, p)
            && Fits(s.remote, t.remote, p)
            && (t.alive ==> AllServed(t.remote, site, p, i))
            && (AllServed(s.remote, site, p, i) ==> Unmoved(s.remote, t.remote))
    decreases |p.issues| - i
  {
    hide Stretch, Served, Ensured, HaveOk, Once, Fits;
    if i == |p.issues| {
      SelfStretch(s.remote, Wishes(p.key, p.issues[i..]), p);
    } else {
      var x, todo, later := Wished(p.key, p.issues[i]), Wishes(p.key, p.issues[i..]), Wishes(p.key, p.issues[i + 1..]);
      NextWish(p, i);
      assert p.issues[i..][0] == p.issues[i] && p.issues[i..][1..] == p.issues[i + 1..];
      var mid := Ensured(s, site, p.key, have, p.issues[i]);
      EnsuredStretch(s, site, p.key, have, p.issues[i]);
      EnsuredServes(s, site, p.key, have, p.issues[i]);
      EnsuredTidy(s, site, p, have, p.issues[i]);
      AgreeStays(have, s.remote, mid.remote, {x}, todo, later);
      if mid.alive {
        EnsureIssuesKeeps(mid, site, p, have, i + 1);
        var t := EnsureIssues(mid, site, p.key, have, p.issues[i + 1..]);
        StretchTrans(s.remote, mid.remote, t.remote, {x}, later);
        FitsTrans(s.remote, mid.remote, t.remote, p);
        ServedStays(mid.remote, t.remote, later, site, p.key, p.issues[i]);
        if AllServed(s.remote, site, p, i) {
          StillServed(s.remote, mid.remote, site, p, i, x);
        }
      } else {
        StretchWider(s.remote, mid.remote, {x}, todo);
      }
    }
  }

  lemma SelfStretch(l: Ledger, touched: set<Issue>, p: Project)
    ensures Stretch(l, l, touched) && Fits(l, l, p)
  {
  }

  lemma StretchWider(a: Ledger, b: Ledger, t: set<Issue>, u: set<Issue>)
    requires Stretch(a, b, t) && t <= u
    ensures Stretch(a, b, u)
  {
  }

  lemma EnsuredTidy(s: Session<Ledger>, site: Site, p: Project, have: map<Issue, nat>, wish: Wish)
    requires s.alive && Tidy(s.remote.issues, p) && HaveOk(have, s.remote.issues)
    requires Wished(p.key, wish) in have <==> Wished(p.key, wish) in s.remote.issues
    requires Wished(p.key, wish) in Wants(p)
    ensures Tidy(Ensured(s, site, p.key, have, wish).remote.issues, p)
    ensures Fits(s.remote, Ensured(s, site, p.key, have, wish).remote, p)
  {
    hide Stretch, Ensured, Once, Room;
    if Wished(p.key, wish) !in s.remote.issues {
      AddedFits(s.remote, s.remote.(issues := s.remote.issues + [Wished(p.key, wish)]), p, Wished(p.key, wish));
    }
    EnsuredStretch(s, site, p.key, have, wish);
    forall y | y in Wants(p) && Wished(p.key, wish) !in s.remote.issues
      ensures Once(s.remote.issues + [Wished(p.key, wish)], y)
    {
      AddedIsOnce(s.remote.issues, Wished(p.key, wish), y);
    }
  }

  lemma StillServed(a: Ledger, b: Ledger, site: Site, p: Project, i: nat, x: Issue)
    requires i < |p.issues| && Unmoved(a, b) && AllServed(a, site, p, i) && Stretch(a, b, {x})
    ensures AllServed(b, site, p, i + 1)
  {
    forall j | i + 1 <= j < |p.issues|
      ensures Served(b, site, p.key, p.issues[j])
    {
      assert Served(a, site, p.key, p.issues[j]);
    }
  }

  lemma {:induction false} EnsureEpicsKeeps(s: Session<Ledger>, p: Project, have: map<Issue, nat>, i: nat)
    requires ProjectOk(p) && i <= |p.epics| && s.alive && Tidy(s.remote.issues, p)
    requires Agree(have, s.remote.issues, Epics(p.key, p.epics[i..]))
    ensures var t := EnsureEpics(s, p.key, have, p.epics[i..]);
            && Stretch(s.remote, t.remote, Epics(p.key, p.epics[i..])) && Tidy(t.remote.issues, p)
            && Fits(s.remote, t.remote, p)
            && (t.alive ==> forall j :: i <= j < |p.epics| ==> Epic(p.key, p.epics[j]) in t.remote.issues)
            && ((forall j :: i <= j < |p.epics| ==> Epic(p.key, p.epics[j]) in s.remote.issues) ==>
                  t.remote == s.remote)
    decreases |p.epics| - i
  {
    hide Stretch, HaveOk, Once, Fits, Room;
    var todo := Epics(p.key, p.epics[i..]);
    SelfStretch(s.remote, todo, p);
    if i < |p.epics| {
      var x, later := Epic(p.key, p.epics[i]), Epics(p.key, p.epics[i + 1..]);
      NextEpic(p, i);
      assert p.epics[i..][0] == p.epics[i] && p.epics[i..][1..] == p.epics[i + 1..];
      var mid := if x in have then s else Created(s, x);
      SelfStretch(s.remote, {x}, p);
      CreatedKeeps(s, x);
      if x !in have && mid.alive {
        AddedFits(s.remote, mid.remote, p, x);
        forall y | y in Wants(p)
          ensures Once(mid.remote.issues, y)
        {
          AddedIsOnce(s.remote.issues, x, y);
        }
      }
      if mid.alive {
        AgreeStays(have, s.remote, mid.remote, {x}, todo, later);
        EnsureEpicsKeeps(mid, p, have, i + 1);
        var t := EnsureEpics(mid, p.key, have, p.epics[i + 1..]);
        StretchTrans(s.remote, mid.remote, t.remote, {x}, later);
        FitsTrans(s.remote, mid.remote, t.remote, p);
        StretchHolds(mid.remote, t.remote, later, x);
      }
    }
  }

  lemma StretchHolds(a: Ledger, b: Ledger, touched: set<Issue>, x: Issue)
    requires Stretch(a, b, touched)
    ensures x in a.issues ==> x in b.issues
  {
    if x in a.issues {
      var k :| 0 <= k < |a.issues| && a.issues[k] == x;
      assert b.issues[k] == x;
    }
  }

  // ------------------------------------------------------------ one project

  // The lookup shows every wanted issue that is there.
  ghost predicate Seen(l: Ledger, site: Site, p: Project)
    requires SiteOk(site)
  {
    forall x :: x in Wants(p) && x in l.issues ==> x in Lookup(l.issues, site, p.key)
  }

  lemma RoomShowsAll(l: Ledger, site: Site, p: Project)
    requires SiteOk(site) && |Of(l.issues, p.key)| <= PAGE
    ensures Seen(l, site, p)
  {
    PageIsOfTheProject(l.issues, site, p.key);
    forall x | x in Wants(p) && x in l.issues
      ensures x in Lookup(l.issues, site, p.key)
    {
      var k: nat :| k < |l.issues| && l.issues[k] == x;
      assert k in Page(l.issues, site, p.key);
    }
  }

  lemma LookupAgrees(l: Ledger, site: Site, p: Project)
    requires SiteOk(site) && Seen(l, site, p)
    ensures Agree(Lookup(l.issues, site, p.key), l.issues, Wants(p))
  {
    PageIsOfTheProject(l.issues, site, p.key);
    forall x | x in Lookup(l.issues, site, p.key)
      ensures x in l.issues
    {
      assert l.issues[Lookup(l.issues, site, p.key)[x]] == x;
    }
  }

  lemma EnsureBothKeeps(s: Session<Ledger>, site: Site, p: Project, have: map<Issue, nat>)
    requires ProjectOk(p) && s.alive && Tidy(s.remote.issues, p) && Agree(have, s.remote.issues, Wants(p))
    ensures var t := EnsureIssues(EnsureEpics(s, p.key, have, p.epics), site, p.key, have, p.issues);
            && Stretch(s.remote, t.remote, Wants(p)) && Tidy(t.remote.issues, p) && Fits(s.remote, t.remote, p)
            && (t.alive ==> Done(t.remote, site, p))
            && (Done(s.remote, site, p) ==> Unmoved(s.remote, t.remote))
  {
    hide Stretch, Fits, Tidy, Served, EnsureEpics;
    hide Epics, Wishes, Once, HaveOk;
    assert p.epics[0..] == p.epics && p.issues[0..] == p.issues;
    EnsureEpicsKeeps(s, p, have, 0);
    var epics := EnsureEpics(s, p.key, have, p.epics);
    StretchWider(s.remote, epics.remote, Epics(p.key, p.epics), Wants(p));
    if epics.alive {
      AgreeStays(have, s.remote, epics.remote, Epics(p.key, p.epics), Wants(p), Wishes(p.key, p.issues));
      EnsureIssuesKeeps(epics, site, p, have, 0);
      var t := EnsureIssues(epics, site, p.key, have, p.issues);
      StretchTrans(s.remote, epics.remote, t.remote, Epics(p.key, p.epics), Wishes(p.key, p.issues));
      FitsTrans(s.remote, epics.remote, t.remote, p);
      EpicsStay(epics.remote, t.remote, p);
    }
  }

  lemma EnsureProjectKeeps(s: Session<Ledger>, site: Site, p: Project)
    requires SiteOk(site) && ProjectOk(p) && s.alive && Tidy(s.remote.issues, p) && Seen(s.remote, site, p)
    ensures var t := EnsureProject(s, site, p);
            && Stretch(s.remote, t.remote, Wants(p)) && Tidy(t.remote.issues, p) && Fits(s.remote, t.remote, p)
            && (t.alive ==> Done(t.remote, site, p))
            && (Done(s.remote, site, p) ==> Unmoved(s.remote, t.remote))
  {
    hide Stretch, Fits, Tidy, Done, EnsureEpics, EnsureIssues, Lookup, Wants, Agree;
    SelfStretch(s.remote, Wants(p), p);
    LookupAgrees(s.remote, site, p);
    if Called(s).alive {
      EnsureBothKeeps(Called(s), site, p, Lookup(s.remote.issues, site, p.key));
    }
  }

  lemma EpicsStay(a: Ledger, b: Ledger, p: Project)
    requires Stretch(a, b, Wishes(p.key, p.issues))
    requires forall j :: 0 <= j < |p.epics| ==> Epic(p.key, p.epics[j]) in a.issues
    ensures forall e :: e in p.epics ==> Epic(p.key, e) in b.issues
  {
    hide Stretch;
    forall e | e in p.epics
      ensures Epic(p.key, e) in b.issues
    {
      StretchHolds(a, b, Wishes(p.key, p.issues), Epic(p.key, e));
    }
  }

  // ------------------------------------------------------------ one run, many runs

  function WantedFrom(plan: seq<Project>, n: nat): set<Issue>
    requires n <= |plan|
    decreases |plan| - n
  {
    if n == |plan| then {} else Wants(plan[n]) + WantedFrom(plan, n + 1)
  }

  lemma {:induction false} WantedElsewhere(plan: seq<Project>, m: nat, n: nat)
    requires PlanOk(plan) && m < n <= |plan|
    ensures Wants(plan[m]) !! WantedFrom(plan, n)
    decreases |plan| - n
  {
    if n < |plan| {
      WantedElsewhere(plan, m, n + 1);
      assert forall x :: x in Wants(plan[n]) ==> x.project == plan[n].key;
      assert forall x :: x in Wants(plan[m]) ==> x.project == plan[m].key;
    }
  }

  lemma DoneStays(a: Ledger, b: Ledger, touched: set<Issue>, site: Site, p: Project)
    requires Stretch(a, b, touched) && Done(a, site, p) && Wants(p) !! touched && Tidy(b.issues, p)
    ensures Done(b, site, p)
  {
    hide Stretch, Once;
    forall e | e in p.epics
      ensures Epic(p.key, e) in b.issues
    {
      StretchHolds(a, b, touched, Epic(p.key, e));
    }
    forall w | w in p.issues
      ensures Served(b, site, p.key, w)
    {
      assert Wished(p.key, w) in Wants(p);
      ServedStays(a, b, touched, site, p.key, w);
    }
  }

  // Other projects' issues are neither added nor removed.
  lemma InvStays(a: Ledger, b: Ledger, site: Site, plan: seq<Project>, n: nat)
    requires PlanOk(plan) && Inv(a.issues, plan) && n < |plan|
    requires Stretch(a, b, Wants(plan[n])) && Tidy(b.issues, plan[n]) && Fits(a, b, plan[n])
    ensures Inv(b.issues, plan)
  {
    hide Room, KeysOk;
    forall m | 0 <= m < |plan|
      ensures Tidy(b.issues, plan[m]) && Room(b.issues, plan[m])
    {
      assert Tidy(a.issues, plan[m]) && Room(a.issues, plan[m]);
      if m != n {
        TidyStays(a, b, plan[n], plan[m]);
      }
    }
  }

  lemma TidyStays(a: Ledger, b: Ledger, p: Project, q: Project)
    requires Stretch(a, b, Wants(p)) && Tidy(a.issues, q) && q.key != p.key
    ensures Tidy(b.issues, q)
  {
    hide KeysOk;
    forall x | x in Wants(q)
      ensures Once(b.issues, x)
    {
      assert Once(a.issues, x) && x !in Wants(p);
      assert forall k: nat :: k < |a.issues| ==> b.issues[k] == a.issues[k];
    }
  }

  lemma {:induction false} EnsureAllKeeps(s: Session<Ledger>, site: Site, plan: seq<Project>, n: nat)
    requires SiteOk(site) && PlanOk(plan) && Inv(s.remote.issues, plan) && n <= |plan|
    ensures var t := EnsureAll(s, site, plan[n..]);
            && Stretch(s.remote, t.remote, WantedFrom(plan, n)) && Inv(t.remote.issues, plan)
            && (t.alive ==> forall m :: n <= m < |plan| ==> Done(t.remote, site, plan[m]))
            && ((forall m :: n <= m < |plan| ==> Done(s.remote, site, plan[m])) ==> Unmoved(s.remote, t.remote))
    decreases |plan| - n
  {
    hide Stretch, Fits, Tidy, Room, Done, EnsureProject;
    if !s.alive || n == |plan| {
      StretchItself(s.remote, WantedFrom(plan, n));
    } else {
      var mid := EnsureProject(s, site, plan[n]);
      assert plan[n..][0] == plan[n] && plan[n..][1..] == plan[n + 1..];
      assert Tidy(s.remote.issues, plan[n]) && Room(s.remote.issues, plan[n]);
      RoomForThePage(s.remote.issues, plan[n]);
      RoomShowsAll(s.remote, site, plan[n]);
      EnsureProjectKeeps(s, site, plan[n]);
      InvStays(s.remote, mid.remote, site, plan, n);
      EnsureAllKeeps(mid, site, plan, n + 1);
      var t := EnsureAll(mid, site, plan[n + 1..]);
      StretchTrans(s.remote, mid.remote, t.remote, Wants(plan[n]), WantedFrom(plan, n + 1));
      WantedElsewhere(plan, n, n + 1);
      if t.alive {
        EnsureAllAlive(mid, site, plan[n + 1..]);
        assert Tidy(t.remote.issues, plan[n]);
        DoneStays(mid.remote, t.remote, WantedFrom(plan, n + 1), site, plan[n]);
      }
      if forall m :: n <= m < |plan| ==> Done(s.remote, site, plan[m]) {
        StretchKeepsKeys(s.remote, mid.remote, Wants(plan[n]));
        StillDone(s.remote, mid.remote, site, plan, n);
      }
    }
  }

  lemma StretchItself(l: Ledger, touched: set<Issue>)
    ensures Stretch(l, l, touched)
  {
  }

  lemma StretchKeepsKeys(a: Ledger, b: Ledger, touched: set<Issue>)
    requires Stretch(a, b, touched)
    ensures a.keys.Keys <= b.keys.Keys
  {
  }

  lemma RoomForThePage(issues: seq<Issue>, p: Project)
    requires Room(issues, p)
    ensures |Of(issues, p.key)| <= PAGE
  {
  }

  lemma EnsureAllAlive(s: Session<Ledger>, site: Site, plan: seq<Project>)
    requires SiteOk(site) && EnsureAll(s, site, plan).alive
    ensures s.alive
  {
  }

  lemma StillDone(a: Ledger, b: Ledger, site: Site, plan: seq<Project>, n: nat)
    requires n < |plan| && Unmoved(a, b) && (forall m :: n <= m < |plan| ==> Done(a, site, plan[m]))
    requires a.keys.Keys <= b.keys.Keys
    ensures forall m :: n + 1 <= m < |plan| ==> Done(b, site, plan[m])
  {
    forall m | n + 1 <= m < |plan|
      ensures Done(b, site, plan[m])
    {
      assert Done(a, site, plan[m]);
      forall w | w in plan[m].issues
        ensures Served(b, site, plan[m].key, w)
      {
        assert Served(a, site, plan[m].key, w);
      }
    }
  }

  lemma RunKeeps(l: Ledger, site: Site, plan: seq<Project>, calls: nat)
    requires SiteOk(site) && PlanOk(plan) && Inv(l.issues, plan)
    ensures var t := Run(l, site, plan, calls);
            && Inv(t.remote.issues, plan) && (KeysOk(l) ==> KeysOk(t.remote))
            && (t.alive ==> forall m :: 0 <= m < |plan| ==> Done(t.remote, site, plan[m]))
            && ((forall m :: 0 <= m < |plan| ==> Done(l, site, plan[m])) ==> Unmoved(l, t.remote))
  {
    hide Inv, Done, KeysOk;
    assert plan[0..] == plan;
    EnsureAllKeeps(Session(l, calls, true), site, plan, 0);
  }

  // Runs one after the other, each with as many calls as it gets; what a run
  // had noted is saved even when it is cut off.
  function Runs(l: Ledger, site: Site, plan: seq<Project>, cuts: seq<nat>): Ledger
    requires SiteOk(site)
    decreases |cuts|
  {
    if cuts == [] then l else Runs(Run(l, site, plan, cuts[0]).remote, site, plan, cuts[1..])
  }

  lemma {:induction false} RunsKeep(l: Ledger, site: Site, plan: seq<Project>, cuts: seq<nat>)
    requires SiteOk(site) && PlanOk(plan) && Inv(l.issues, plan)
    ensures var end := Runs(l, site, plan, cuts);
            Inv(end.issues, plan) && (KeysOk(l) ==> KeysOk(end))
    decreases |cuts|
  {
    hide Inv, KeysOk;
    if cuts != [] {
      RunKeeps(l, site, plan, cuts[0]);
      RunsKeep(Run(l, site, plan, cuts[0]).remote, site, plan, cuts[1..]);
    }
  }

  lemma OnceIsOne(issues: seq<Issue>, x: Issue)
    requires x in issues && Once(issues, x)
    ensures multiset(issues)[x] == 1
  {
    var k :| 0 <= k < |issues| && issues[k] == x;
    assert issues == issues[..k] + [x] + issues[k + 1..];
    assert x !in issues[..k] && x !in issues[k + 1..];
  }

  // After any number of runs cut off before any call, one run that gets
  // through leaves each wanted epic and issue exactly once, each issue in its
  // status unless the workflow offers no way there; a further run changes
  // nothing on the site. The keys saved name the right issues all along.
  lemma JiraSeedConverges(l: Ledger, site: Site, plan: seq<Project>, cuts: seq<nat>, calls: nat)
    requires SiteOk(site) && PlanOk(plan) && Inv(l.issues, plan) && KeysOk(l)
    requires Run(Runs(l, site, plan, cuts), site, plan, calls).alive
    ensures var end := Run(Runs(l, site, plan, cuts), site, plan, calls).remote;
            && (forall n, x :: 0 <= n < |plan| && x in Wants(plan[n]) ==> multiset(end.issues)[x] == 1)
            && (forall n, w :: 0 <= n < |plan| && w in plan[n].issues ==> Served(end, site, plan[n].key, w))
            && (forall again :: Unmoved(end, Run(end, site, plan, again).remote))
            && KeysOk(end) && KeysOk(Runs(l, site, plan, cuts))
  {
    hide KeysOk, Served, Unmoved;
    RunsKeep(l, site, plan, cuts);
    var before := Runs(l, site, plan, cuts);
    RunKeeps(before, site, plan, calls);
    var end := Run(before, site, plan, calls).remote;
    forall again
      ensures Unmoved(end, Run(end, site, plan, again).remote)
    {
      RunKeeps(end, site, plan, again);
    }
    forall n, x | 0 <= n < |plan| && x in Wants(plan[n])
      ensures multiset(end.issues)[x] == 1
    {
      hide Room;
      assert Done(end, site, plan[n]) && Tidy(end.issues, plan[n]);
      WantedIsThere(end, site, plan[n], x);
      OnceIsOne(end.issues, x);
    }
    forall n, w | 0 <= n < |plan| && w in plan[n].issues
      ensures Served(end, site, plan[n].key, w)
    {
      assert Done(end, site, plan[n]);
    }
  }

  lemma WantedIsThere(l: Ledger, site: Site, p: Project, x: Issue)
    requires Done(l, site, p) && x in Wants(p)
    ensures x in l.issues
  {
  }

  // ------------------------------------------------------------ the keys saved

  // The state file's key for a summary is that very issue's.
  ghost predicate KeyNames(l: Ledger, x: Issue) {
    x.summary in l.keys && l.keys[x.summary] < |l.issues| && l.issues[l.keys[x.summary]] == x
  }

  lemma EnsuredNames(s: Session<Ledger>, site: Site, project: string, have: map<Issue, nat>, wish: Wish, x: Issue)
    requires HaveOk(have, s.remote.issues)
    ensures var t := Ensured(s, site, project, have, wish);
            && HaveOk(have, t.remote.issues)
            && (KeyNames(s.remote, x) && x.summary != wish.summary ==> KeyNames(t.remote, x))
            && (t.alive && x == Wished(project, wish) ==> KeyNames(t.remote, x))
  {
    EnsuredNotShown(s, site, project, have, wish);
    var issue := Wished(project, wish);
    if issue in have {
      MovedKeeps(Noted(s, wish.summary, have[issue]), site, have[issue], wish, issue);
    } else if Created(s, issue).alive {
      var key := |s.remote.issues|;
      MovedKeeps(Noted(Created(s, issue), wish.summary, key), site, key, wish, issue);
    }
  }

  // Issues of other summaries leave an issue's key alone.
  lemma {:induction false} IssuesLeaveKey(s: Session<Ledger>, site: Site, p: Project, have: map<Issue, nat>,
      i: nat, x: Issue)
    requires i <= |p.issues| && HaveOk(have, s.remote.issues)
    requires forall j :: i <= j < |p.issues| ==> p.issues[j].summary != x.summary
    ensures KeyNames(s.remote, x) ==> KeyNames(EnsureIssues(s, site, p.key, have, p.issues[i..]).remote, x)
    decreases |p.issues| - i
  {
    hide Ensured, KeyNames, HaveOk;
    if s.alive && i < |p.issues| {
      assert p.issues[i..][0] == p.issues[i] && p.issues[i..][1..] == p.issues[i + 1..];
      EnsuredNames(s, site, p.key, have, p.issues[i], x);
      IssuesLeaveKey(Ensured(s, site, p.key, have, p.issues[i]), site, p, have, i + 1, x);
    }
  }

  ghost predicate SummariesApart(p: Project) {
    forall i, j :: 0 <= i < j < |p.issues| ==> p.issues[i].summary != p.issues[j].summary
  }

  lemma {:induction false} IssuesNamed(s: Session<Ledger>, site: Site, p: Project, have: map<Issue, nat>,
      i: nat, j: nat)
    requires SummariesApart(p) && i <= j < |p.issues| && HaveOk(have, s.remote.issues)
    requires EnsureIssues(s, site, p.key, have, p.issues[i..]).alive
    ensures KeyNames(EnsureIssues(s, site, p.key, have, p.issues[i..]).remote, Wished(p.key, p.issues[j]))
    decreases |p.issues| - i
  {
    hide Ensured, KeyNames, HaveOk;
    var x, mid := Wished(p.key, p.issues[j]), Ensured(s, site, p.key, have, p.issues[i]);
    assert p.issues[i..][0] == p.issues[i] && p.issues[i..][1..] == p.issues[i + 1..];
    EnsuredNames(s, site, p.key, have, p.issues[i], x);
    EnsureIssuesAlive(s, site, p.key, have, p.issues[i..]);
    EnsureIssuesAlive(mid, site, p.key, have, p.issues[i + 1..]);
    if i == j {
      IssuesLeaveKey(mid, site, p, have, i + 1, x);
    } else {
      IssuesNamed(mid, site, p, have, i + 1, j);
    }
  }

  lemma {:induction false} EpicsLeaveKeys(s: Session<Ledger>, project: string, have: map<Issue, nat>,
      epics: seq<string>, x: Issue)
    requires HaveOk(have, s.remote.issues)
    ensures var t := EnsureEpics(s, project, have, epics);
            HaveOk(have, t.remote.issues) && (KeyNames(s.remote, x) ==> KeyNames(t.remote, x))
    decreases |epics|
  {
    if s.alive && epics != [] {
      var y := Epic(project, epics[0]);
      EpicsLeaveKeys(if y in have then s else Created(s, y), project, have, epics[1..], x);
    }
  }

  lemma LookupIsThere(issues: seq<Issue>, site: Site, project: string)
    requires SiteOk(site)
    ensures HaveOk(Lookup(issues, site, project), issues)
  {
    PageIsOfTheProject(issues, site, project);
  }

  lemma ProjectNames(s: Session<Ledger>, site: Site, p: Project, x: Issue)
    requires SiteOk(site) && SummariesApart(p)
    ensures var t := EnsureProject(s, site, p);
            && (KeyNames(s.remote, x) && (forall w :: w in p.issues ==> w.summary != x.summary) ==>
                  KeyNames(t.remote, x))
            && (t.alive && x in Wishes(p.key, p.issues) ==> KeyNames(t.remote, x))
  {
    hide Lookup, EnsureEpics, EnsureIssues, KeyNames, HaveOk;
    var have, looked := Lookup(s.remote.issues, site, p.key), Called(s);
    if looked.alive {
      LookupIsThere(s.remote.issues, site, p.key);
      EpicsLeaveKeys(looked, p.key, have, p.epics, x);
      var epics := EnsureEpics(looked, p.key, have, p.epics);
      var t := EnsureIssues(epics, site, p.key, have, p.issues);
      assert p.issues[0..] == p.issues;
      if forall w :: w in p.issues ==> w.summary != x.summary {
        IssuesLeaveKey(epics, site, p, have, 0, x);
      }
      if t.alive && x in Wishes(p.key, p.issues) {
        var j :| 0 <= j < |p.issues| && Wished(p.key, p.issues[j]) == x;
        IssuesNamed(epics, site, p, have, 0, j);
      }
    }
  }

  // No two issues wanted anywhere have one summary, so the state file can tell them apart.
  ghost predicate AllApart(plan: seq<Project>) {
    && (forall n :: 0 <= n < |plan| ==> SummariesApart(plan[n]))
    && (forall m, n, v, w :: 0 <= m < n < |plan| && v in plan[m].issues && w in plan[n].issues ==>
          v.summary != w.summary)
  }

  lemma {:induction false} OthersLeaveKey(s: Session<Ledger>, site: Site, plan: seq<Project>, n: nat, x: Issue)
    requires SiteOk(site) && AllApart(plan) && n <= |plan|
    requires forall m, w :: n <= m < |plan| && w in plan[m].issues ==> w.summary != x.summary
    ensures KeyNames(s.remote, x) ==> KeyNames(EnsureAll(s, site, plan[n..]).remote, x)
    decreases |plan| - n
  {
    hide EnsureProject, KeyNames;
    if s.alive && n < |plan| {
      assert plan[n..][0] == plan[n] && plan[n..][1..] == plan[n + 1..];
      ProjectNames(s, site, plan[n], x);
      OthersLeaveKey(EnsureProject(s, site, plan[n]), site, plan, n + 1, x);
    }
  }

  lemma {:induction false} AllNamed(s: Session<Ledger>, site: Site, plan: seq<Project>, n: nat, m: nat, w: Wish)
    requires SiteOk(site) && AllApart(plan) && n <= m < |plan| && w in plan[m].issues
    requires EnsureAll(s, site, plan[n..]).alive
    ensures KeyNames(EnsureAll(s, site, plan[n..]).remote, Wished(plan[m].key, w))
    decreases |plan| - n
  {
    hide EnsureProject, KeyNames;
    var mid := EnsureProject(s, site, plan[n]);
    assert plan[n..][0] == plan[n] && plan[n..][1..] == plan[n + 1..];
    EnsureAllAlive(s, site, plan[n..]);
    EnsureAllAlive(mid, site, plan[n + 1..]);
    if n == m {
      ProjectNames(s, site, plan[n], Wished(plan[m].key, w));
      OthersLeaveKey(mid, site, plan, n + 1, Wished(plan[m].key, w));
    } else {
      AllNamed(mid, site, plan, n + 1, m, w);
    }
  }

  // After a run that gets through, whatever the state file held before, its
  // key for each wanted issue's summary is the key of that issue, in its own
  // project and of its own type.
  lemma SavedKeysNameTheirIssues(l: Ledger, site: Site, plan: seq<Project>, calls: nat)
    requires SiteOk(site) && AllApart(plan) && Run(l, site, plan, calls).alive
    ensures var end := Run(l, site, plan, calls).remote;
            forall n, w :: 0 <= n < |plan| && w in plan[n].issues ==> KeyNames(end, Wished(plan[n].key, w))
  {
    hide KeyNames;
    assert plan[0..] == plan;
    forall n, w | 0 <= n < |plan| && w in plan[n].issues
      ensures KeyNames(Run(l, site, plan, calls).remote, Wished(plan[n].key, w))
    {
      AllNamed(Session(l, calls, true), site, plan, 0, n, w);
    }
  }

  // ------------------------------------------------------------ a fresh site, and calls enough

  lemma FreshSiteHolds(plan: seq<Project>)
    requires PlanOk(plan)
    requires forall n :: 0 <= n < |plan| ==> |Wants(plan[n])| <= PAGE
    ensures Inv([], plan) && KeysOk(Ledger([], map[], map[]))
  {
    forall n | 0 <= n < |plan|
      ensures Room([], plan[n])
    {
      assert Missing([], plan[n]) == Wants(plan[n]);
    }
  }

  // One lookup a project, one create an epic, and a create and three calls to
  // move it an issue.
  function Budget(plan: seq<Project>): nat
    decreases |plan|
  {
    if plan == [] then 0 else 1 + |plan[0].epics| + 4 * |plan[0].issues| + Budget(plan[1..])
  }

  lemma {:induction false} EpicsFinish(s: Session<Ledger>, project: string, have: map<Issue, nat>, epics: seq<string>)
    requires s.alive && s.calls >= |epics|
    ensures var t := EnsureEpics(s, project, have, epics);
            t.alive && t.calls >= s.calls - |epics|
    decreases |epics|
  {
    if epics != [] {
      var y := Epic(project, epics[0]);
      EpicsFinish(if y in have then s else Created(s, y), project, have, epics[1..]);
    }
  }

  lemma EnsuredFinishes(s: Session<Ledger>, site: Site, project: string, have: map<Issue, nat>, wish: Wish)
    requires s.alive && s.calls >= 4
    ensures Ensured(s, site, project, have, wish).alive && Ensured(s, site, project, have, wish).calls >= s.calls - 4
  {
  }

  lemma {:induction false} IssuesFinish(s: Session<Ledger>, site: Site, project: string, have: map<Issue, nat>,
      wishes: seq<Wish>)
    requires s.alive && s.calls >= 4 * |wishes|
    ensures var t := EnsureIssues(s, site, project, have, wishes);
            t.alive && t.calls >= s.calls - 4 * |wishes|
    decreases |wishes|
  {
    hide Ensured;
    if wishes != [] {
      EnsuredFinishes(s, site, project, have, wishes[0]);
      IssuesFinish(Ensured(s, site, project, have, wishes[0]), site, project, have, wishes[1..]);
    }
  }

  // With that many calls a run gets through, from wherever the site is.
  lemma {:induction false} EnoughCallsFinish(s: Session<Ledger>, site: Site, plan: seq<Project>)
    requires SiteOk(site) && s.alive && s.calls >= Budget(plan)
    ensures EnsureAll(s, site, plan).alive
    decreases |plan|
  {
    hide EnsureEpics, EnsureIssues, Lookup;
    if plan != [] {
      var p, looked := plan[0], Called(s);
      var have := Lookup(s.remote.issues, site, p.key);
      EpicsFinish(looked, p.key, have, p.epics);
      IssuesFinish(EnsureEpics(looked, p.key, have, p.epics), site, p.key, have, p.issues);
      EnoughCallsFinish(EnsureProject(s, site, p), site, plan[1..]);
    }
  }

  // ------------------------------------------------------------ a page that is too short

  ghost predicate Adds(a: seq<Issue>, b: seq<Issue>, x: Issue) {
    a <= b && exists k :: |a| <= k < |b| && b[k] == x
  }

  lemma AddsThen(a: seq<Issue>, b: seq<Issue>, c: seq<Issue>, x: Issue)
    requires a <= b <= c
    ensures Adds(a, b, x) || Adds(b, c, x) ==> Adds(a, c, x)
  {
    assert forall k :: 0 <= k < |b| ==> c[k] == b[k];
  }

  lemma AddedTwice(a: seq<Issue>, b: seq<Issue>, x: Issue)
    requires x in a && Adds(a, b, x)
    ensures !Once(b, x)
  {
    var i :| 0 <= i < |a| && a[i] == x;
    var j :| |a| <= j < |b| && b[j] == x;
    assert b[i] == x;
  }

  lemma {:induction false} EpicsNotShown(s: Session<Ledger>, project: string, have: map<Issue, nat>,
      epics: seq<string>, x: Issue)
    ensures var t := EnsureEpics(s, project, have, epics);
            && s.remote.issues <= t.remote.issues
            && (t.alive && x in Epics(project, epics) && x !in have ==> Adds(s.remote.issues, t.remote.issues, x))
    decreases |epics|
  {
    if s.alive && epics != [] {
      var y := Epic(project, epics[0]);
      var mid := if y in have then s else Created(s, y);
      EpicsNotShown(mid, project, have, epics[1..], x);
      AddsThen(s.remote.issues, mid.remote.issues, EnsureEpics(s, project, have, epics).remote.issues, x);
      assert y != x && x in Epics(project, epics) ==> x in Epics(project, epics[1..]) by {
        assert epics == [epics[0]] + epics[1..];
      }
      if y == x && x !in have && mid.alive {
        assert mid.remote.issues[|s.remote.issues|] == x;
      }
    }
  }

  lemma EnsuredNotShown(s: Session<Ledger>, site: Site, project: string, have: map<Issue, nat>, wish: Wish)
    ensures var x, t := Wished(project, wish), Ensured(s, site, project, have, wish);
            && s.remote.issues <= t.remote.issues
            && (t.alive && x !in have ==> t.remote.issues == s.remote.issues + [x])
  {
  }

  lemma {:induction false} IssuesNotShown(s: Session<Ledger>, site: Site, project: string,
      have: map<Issue, nat>, wishes: seq<Wish>, x: Issue)
    ensures var t := EnsureIssues(s, site, project, have, wishes);
            && s.remote.issues <= t.remote.issues
            && (t.alive && x in Wishes(project, wishes) && x !in have ==> Adds(s.remote.issues, t.remote.issues, x))
    decreases |wishes|
  {
    hide Ensured;
    if s.alive && wishes != [] {
      var y := Wished(project, wishes[0]);
      var mid := Ensured(s, site, project, have, wishes[0]);
      EnsuredNotShown(s, site, project, have, wishes[0]);
      IssuesNotShown(mid, site, project, have, wishes[1..], x);
      AddsThen(s.remote.issues, mid.remote.issues, EnsureIssues(s, site, project, have, wishes).remote.issues, x);
      assert y != x && x in Wishes(project, wishes) ==> x in Wishes(project, wishes[1..]) by {
        assert wishes == [wishes[0]] + wishes[1..];
      }
      if y == x && x !in have && mid.alive {
        assert mid.remote.issues[|s.remote.issues|] == x;
      }
    }
  }

  // Going through a project leaves each wanted issue at most once exactly
  // when the lookup showed every wanted issue there was.
  lemma DuplicatesIffNotShown(s: Session<Ledger>, site: Site, p: Project)
    requires SiteOk(site) && ProjectOk(p) && s.alive && Tidy(s.remote.issues, p)
    requires EnsureProject(s, site, p).alive
    ensures Tidy(EnsureProject(s, site, p).remote.issues, p) <==> Seen(s.remote, site, p)
  {
    if Seen(s.remote, site, p) {
      EnsureProjectKeeps(s, site, p);
    } else {
      var have := Lookup(s.remote.issues, site, p.key);
      var x :| x in Wants(p) && x in s.remote.issues && x !in have;
      NotShownTwice(s, site, p, x);
      assert x in Wants(p);
    }
  }

  lemma NotShownTwice(s: Session<Ledger>, site: Site, p: Project, x: Issue)
    requires SiteOk(site) && EnsureProject(s, site, p).alive
    requires x in Wants(p) && x in s.remote.issues && x !in Lookup(s.remote.issues, site, p.key)
    ensures !Once(EnsureProject(s, site, p).remote.issues, x)
  {
    hide EnsureEpics, EnsureIssues, Lookup;
    var have, looked := Lookup(s.remote.issues, site, p.key), Called(s);
    var epics := EnsureEpics(looked, p.key, have, p.epics);
    var t := EnsureIssues(epics, site, p.key, have, p.issues);
    EpicsNotShown(looked, p.key, have, p.epics, x);
    IssuesNotShown(epics, site, p.key, have, p.issues, x);
    EnsureIssuesAlive(epics, site, p.key, have, p.issues);
    AddsThen(s.remote.issues, epics.remote.issues, t.remote.issues, x);
    AddedTwice(s.remote.issues, t.remote.issues, x);
  }

  lemma EnsureIssuesAlive(s: Session<Ledger>, site: Site, project: string, have: map<Issue, nat>, wishes: seq<Wish>)
    ensures !s.alive ==> !EnsureIssues(s, site, project, have, wishes).alive
  {
  }

  // A site that lists oldest first, and a wanted issue behind a full page: the
  // next run that gets through creates it again.
  lemma BehindAFullPageIsDuplicated(s: Session<Ledger>, site: Site, p: Project, older: seq<Issue>, x: Issue)
    requires SiteOk(site) && (forall all :: site.order(all) == all)
    requires s.remote.issues == older + [x] && |Of(older, p.key)| >= PAGE
    requires x in Wants(p) && x !in older && EnsureProject(s, site, p).alive
    ensures !Once(EnsureProject(s, site, p).remote.issues, x)
  {
    hide EnsureProject;
    AddedOf(older, x, p.key);
    assert Page(s.remote.issues, site, p.key) == Of(older, p.key)[..PAGE];
    assert forall k :: 0 <= k < PAGE ==> Of(older, p.key)[k] in Of(older, p.key);
    NotShownTwice(s, site, p, x);
  }
}
