// Filling the QA Jira: one lookup per project, then a create for every epic
// and issue the lookup did not show. A run may be cut off before any call.
module JiraSeed {
  import opened CutOff

  datatype Issue = Issue(project: string, kind: string, summary: string)

  datatype Wish = Wish(kind: string, summary: string, status: string)

  datatype Project = Project(key: string, epics: seq<string>, issues: seq<Wish>)

  // An issue's key is its place in the list. The state file's keys are kept
  // with the site, because they are saved even when a run is cut off.
  datatype Ledger = Ledger(issues: seq<Issue>, status: map<nat, string>, keys: map<string, nat>)

  // How the site lists a project's issues, and which moves its workflow offers.
  datatype Site = Site(order: seq<nat> -> seq<nat>, lets: (string, string) -> bool)

  const PAGE := 100
  const TODO := "To Do"

  ghost predicate SiteOk(site: Site) {
    forall s: seq<nat> :: multiset(site.order(s)) == multiset(s)
  }

  function Wished(project: string, wish: Wish): Issue {
    Issue(project, wish.kind, wish.summary)
  }

  function StatusOf(ledger: Ledger, key: nat): string {
    if key in ledger.status then ledger.status[key] else TODO
  }

  function Of(issues: seq<Issue>, project: string): (r: seq<nat>)
    ensures forall k: nat :: k in r <==> k < |issues| && issues[k].project == project
    ensures |r| <= |issues|
  {
    if issues == [] then []
    else
      var last := |issues| - 1;
      assert forall k: nat :: k < last ==> issues[..last][k] == issues[k];
      Of(issues[..last], project) + if issues[last].project == project then [last] else []
  }

  function Page(issues: seq<Issue>, site: Site, project: string): seq<nat> {
    var all := site.order(Of(issues, project));
    if |all| <= PAGE then all else all[..PAGE]
  }

  lemma PageIsOfTheProject(issues: seq<Issue>, site: Site, project: string)
    requires SiteOk(site)
    ensures |Page(issues, site, project)| == if |Of(issues, project)| <= 100 then |Of(issues, project)| else 100
    ensures forall k: nat :: k in Page(issues, site, project) ==> k < |issues| && issues[k].project == project
    ensures var page := Page(issues, site, project);
            forall n :: 0 <= n < |page| ==> page[n] < |issues|
    ensures |Of(issues, project)| <= PAGE ==>
              forall k: nat :: k < |issues| && issues[k].project == project ==> k in Page(issues, site, project)
  {
    var all := Of(issues, project);
    var listed := site.order(all);
    assert |listed| == |multiset(listed)| == |multiset(all)| == |all|;
    forall k: nat
      ensures k in listed <==> k in all
    {
      assert k in listed <==> k in multiset(listed);
      assert k in all <==> k in multiset(all);
    }
    forall k: nat | k in Page(issues, site, project)
      ensures k in all
    {
      assert k in listed;
    }
    var page := Page(issues, site, project);
    assert forall n :: 0 <= n < |page| ==> page[n] in page;
  }

  // What a lookup finds, by issue; later entries of the page win.
  function Have(issues: seq<Issue>, page: seq<nat>): (r: map<Issue, nat>)
    requires forall n :: 0 <= n < |page| ==> page[n] < |issues|
    ensures forall x :: x in r ==> r[x] in page && r[x] < |issues| && issues[r[x]] == x
    ensures forall k: nat :: k in page ==> k < |issues| && issues[k] in r
  {
    if page == [] then map[]
    else
      var last := |page| - 1;
      assert page == page[..last] + [page[last]] && page[last] in page;
      Have(issues, page[..last])[issues[page[last]] := page[last]]
  }

  function Lookup(issues: seq<Issue>, site: Site, project: string): map<Issue, nat>
    requires SiteOk(site)
  {
    PageIsOfTheProject(issues, site, project);
    Have(issues, Page(issues, site, project))
  }

  lemma LookupIsHave(issues: seq<Issue>, site: Site, project: string)
    requires SiteOk(site)
    ensures var page := Page(issues, site, project);
            (forall n :: 0 <= n < |page| ==> page[n] < |issues|) && Lookup(issues, site, project) == Have(issues, page)
  {
    PageIsOfTheProject(issues, site, project);
  }

  lemma NothingHad(issues: seq<Issue>, page: seq<nat>)
    requires forall n :: 0 <= n < |page| ==> page[n] < |issues|
    ensures Have(issues, page[..0]) == map[] && page[..|page|] == page
  {
  }

  lemma HaveNext(issues: seq<Issue>, page: seq<nat>, n: nat)
    requires n < |page| && forall k :: 0 <= k < |page| ==> page[k] < |issues|
    ensures Have(issues, page[..n + 1]) == Have(issues, page[..n])[issues[page[n]] := page[n]]
  {
    assert page[..n + 1][..n] == page[..n];
  }

  // ------------------------------------------------------------ one run, as a function

  function Moved(s: Session<Ledger>, site: Site, key: nat, status: string): Session<Ledger> {
    if !s.alive || status == TODO then s
    else
      var asked := Called(s);
      if !asked.alive || StatusOf(asked.remote, key) == status then asked
      else
        var offered := Called(asked);
        if !offered.alive || !site.lets(StatusOf(offered.remote, key), status) then offered
        else
          var sent := Called(offered);
          if !sent.alive then sent
          else sent.(remote := sent.remote.(status := sent.remote.status[key := status]))
  }

  // A new issue is to do, and one wanted there is not moved.
  lemma ToDoStays(s: Session<Ledger>, site: Site, key: nat)
    ensures Moved(s, site, key, "To Do") == s
    ensures key !in s.remote.status ==> StatusOf(s.remote, key) == "To Do"
  {
  }

  function Noted(s: Session<Ledger>, summary: string, key: nat): Session<Ledger> {
    s.(remote := s.remote.(keys := s.remote.keys[summary := key]))
  }

  function Created(s: Session<Ledger>, issue: Issue): Session<Ledger> {
    var sent := Called(s);
    if !sent.alive then sent
    else sent.(remote := sent.remote.(issues := sent.remote.issues + [issue]))
  }

  // One issue: its key from the lookup, or a new one.
  function Ensured(s: Session<Ledger>, site: Site, project: string, have: map<Issue, nat>,
      wish: Wish): Session<Ledger> {
    var issue := Wished(project, wish);
    if issue in have then Moved(Noted(s, wish.summary, have[issue]), site, have[issue], wish.status)
    else
      var created := Created(s, issue);
      if !created.alive then created
      else Moved(Noted(created, wish.summary, |s.remote.issues|), site, |s.remote.issues|, wish.status)
  }

  function EnsureIssues(s: Session<Ledger>, site: Site, project: string, have: map<Issue, nat>,
      wishes: seq<Wish>): Session<Ledger>
    decreases |wishes|
  {
    if !s.alive || wishes == [] then s
    else EnsureIssues(Ensured(s, site, project, have, wishes[0]), site, project, have, wishes[1..])
  }

  function Epic(project: string, name: string): Issue {
    Issue(project, "Epic", name)
  }

  function EnsureEpics(s: Session<Ledger>, project: string, have: map<Issue, nat>, epics: seq<string>): Session<Ledger>
    decreases |epics|
  {
    if !s.alive || epics == [] then s
    else
      var issue := Epic(project, epics[0]);
      EnsureEpics(if issue in have then s else Created(s, issue), project, have, epics[1..])
  }

  function EnsureProject(s: Session<Ledger>, site: Site, p: Project): Session<Ledger>
    requires SiteOk(site)
  {
    var looked := Called(s);
    if !looked.alive then looked
    else
      var have := Lookup(s.remote.issues, site, p.key);
      EnsureIssues(EnsureEpics(looked, p.key, have, p.epics), site, p.key, have, p.issues)
  }

  function EnsureAll(s: Session<Ledger>, site: Site, plan: seq<Project>): Session<Ledger>
    requires SiteOk(site)
    decreases |plan|
  {
    if !s.alive || plan == [] then s else EnsureAll(EnsureProject(s, site, plan[0]), site, plan[1..])
  }

  function Run(ledger: Ledger, site: Site, plan: seq<Project>, calls: nat): Session<Ledger>
    requires SiteOk(site)
  {
    EnsureAll(Session(ledger, calls, true), site, plan)
  }

  // ------------------------------------------------------------ one run, as the script makes it

  class Seeder {
    const site: Site
    var issues: seq<Issue>
    var status: map<nat, string>
    var keys: map<string, nat>
    var calls: nat

    constructor (ledger: Ledger, site: Site, calls: nat)
      ensures Now(true) == Session(ledger, calls, true) && this.site == site
    {
      this.issues, this.status, this.keys := ledger.issues, ledger.status, ledger.keys;
      this.site, this.calls := site, calls;
    }

    ghost function Now(alive: bool): Session<Ledger>
      reads this
    {
      Session(Ledger(issues, status, keys), calls, alive)
    }

    method Call() returns (alive: bool)
      modifies this`calls
      ensures Now(alive) == Called(old(Now(true)))
    {
      if calls == 0 {
        return false;
      }
      calls := calls - 1;
      return true;
    }

    // Needs no call of its own: the caller has made it.
    method ExistingIssues(project: string) returns (found: map<Issue, nat>)
      requires SiteOk(site)
      ensures found == Lookup(issues, site, project)
    {
      hide *;
      LookupIsHave(issues, site, project);
      PageIsOfTheProject(issues, site, project);
      var page := Page(issues, site, project);
      NothingHad(issues, page);
      found := map[];
      for n := 0 to |page|
        invariant found == Have(issues, page[..n])
      {
        HaveNext(issues, page, n);
        found := found[issues[page[n]] := page[n]];
      }
    }

    method CreateIssue(issue: Issue) returns (alive: bool, key: nat)
      modifies this
      ensures Now(alive) == Created(old(Now(true)), issue)
      ensures key == |old(issues)|
    {
      key := |issues|;
      alive := Call();
      if alive {
        issues := issues + [issue];
      }
    }

    method Transition(key: nat, want: string) returns (alive: bool)
      requires want != TODO
      modifies this
      ensures Now(alive) == Moved(old(Now(true)), site, key, want)
      ensures var at := StatusOf(old(Now(true)).remote, key);
              && (alive ==> StatusOf(Now(true).remote, key) == if at != want && site.lets(at, want) then want else at)
              && (!alive ==> StatusOf(Now(true).remote, key) == at)
      ensures forall k :: k != key ==> StatusOf(Now(true).remote, k) == StatusOf(old(Now(true)).remote, k)
    {
      alive := Call();
      if !alive {
        return;
      }
      var at := if key in status then status[key] else TODO;
      if at == want {
        return;
      }
      alive := Call();
      if !alive || !site.lets(at, want) {
        return;
      }
      alive := Call();
      if alive {
        status := status[key := want];
      }
    }

    method EnsureEpicsOf(p: Project, have: map<Issue, nat>) returns (alive: bool)
      modifies this
      ensures Now(alive) == EnsureEpics(old(Now(true)), p.key, have, p.epics)
    {
      for n := 0 to |p.epics|
        invariant EnsureEpics(old(Now(true)), p.key, have, p.epics) == EnsureEpics(Now(true), p.key, have, p.epics[n..])
      {
        assert p.epics[n..][1..] == p.epics[n + 1..];
        var issue := Epic(p.key, p.epics[n]);
        if issue !in have {
          var key;
          alive, key := CreateIssue(issue);
          if !alive {
            return;
          }
        }
      }
      return true;
    }

    method EnsureIssuesOf(p: Project, have: map<Issue, nat>) returns (alive: bool)
      modifies this
      ensures Now(alive) == EnsureIssues(old(Now(true)), site, p.key, have, p.issues)
    {
      for n := 0 to |p.issues|
        invariant EnsureIssues(old(Now(true)), site, p.key, have, p.issues) ==
                EnsureIssues(Now(true), site, p.key, have, p.issues[n..])
      {
        assert p.issues[n..][1..] == p.issues[n + 1..];
        var wish := p.issues[n];
        var issue := Wished(p.key, wish);
        var key: nat;
        if issue in have {
          key := have[issue];
        } else {
          alive, key := CreateIssue(issue);
          if !alive {
            return;
          }
        }
        keys := keys[wish.summary := key];
        if wish.status != TODO {
          alive := Transition(key, wish.status);
          if !alive {
            return;
          }
        }
      }
      return true;
    }

    method SeedIssues(plan: seq<Project>) returns (alive: bool)
      requires SiteOk(site)
      modifies this
      ensures Now(alive) == EnsureAll(old(Now(true)), site, plan)
    {
      for n := 0 to |plan|
        invariant EnsureAll(old(Now(true)), site, plan) == EnsureAll(Now(true), site, plan[n..])
      {
        assert plan[n..][1..] == plan[n + 1..];
        alive := Call();
        if !alive {
          return;
        }
        var have := ExistingIssues(plan[n].key);
        alive := EnsureEpicsOf(plan[n], have);
        if alive {
          alive := EnsureIssuesOf(plan[n], have);
        }
        if !alive {
          return;
        }
      }
      return true;
    }
  }
}
