/** search_chat.py: look a chat up by id or name with four strategies, in order. */
module Search {
  import opened Outcomes
  import opened PyText

  /** A session or conversation as a listing gives it: its id and its `name` attribute. */
  datatype Listed = Listed(id: string, name: Attr)

  /** A deployment seen by strategy 3, with its `list_deployment_conversations` answer. */
  datatype ScanDeployment = ScanDeployment(convos: Outcome<seq<Listed>>)

  /** A project seen by strategy 3: `p.name`, `use_case`, `str(vars(describe_project(...)))`
      and `list_deployments`. */
  datatype ScanProject = ScanProject(name: Attr, useCase: Attr, detail: Outcome<string>, deployments: Outcome<seq<ScanDeployment>>)

  /** A project seen by strategy 4: `list_deployments`, given directly as the answers of the
      `get_deployment_conversation(term)` call made once per listed deployment. */
  datatype LookupProject = LookupProject(lookups: Outcome<seq<Outcome<string>>>)

  /** The SDK's answers for the four strategies, each asked independently. */
  datatype SearchCalls = SearchCalls(
    direct: Outcome<string>,
    sessions: Outcome<seq<Listed>>,
    projects: Outcome<seq<ScanProject>>,
    lookupProjects: Outcome<seq<LookupProject>>)

  /** What `search_for_chat` returns: the session or conversation object, or None. */
  datatype SearchResult = DirectSession(session: string) | DeploymentConversation(convo: string) | NoResult

  /** The id-or-name rule: `term.lower() in str(id).lower() or term.lower() in str(name).lower()`,
      the name being `getattr(x, 'name', '')`. */
  predicate Matches(term: string, x: Listed)
  {
    Contains(Lower(x.id), Lower(term)) || Contains(Lower(GetAttrStr(x.name, "")), Lower(term))
  }

  function AnyMatch(term: string, xs: seq<Listed>): (r: bool)
    ensures r <==> exists k :: 0 <= k < |xs| && Matches(term, xs[k])
  {
    if xs == [] then false
    else Matches(term, xs[0]) || (assert forall k :: 0 <= k < |xs[1..]| ==> xs[1..][k] == xs[k + 1]; AnyMatch(term, xs[1..]))
  }

  /** Strategy 2: every listed session is checked; the listing may fail. */
  function SessionsHit(term: string, listing: Outcome<seq<Listed>>): bool
  {
    listing.Ok? && AnyMatch(term, listing.value)
  }

  /** The deployments of an AI_AGENT project; a failing conversation listing ends the scan
      of the project's deployments. */
  function DeploymentsHit(term: string, ds: seq<ScanDeployment>): bool
  {
    if ds == [] then false
    else match ds[0].convos
      case Err(_) => false
      case Ok(cs) => AnyMatch(term, cs) || DeploymentsHit(term, ds[1..])
  }

  /** One project of strategy 3: its details (a case-sensitive test) and, for an AI_AGENT
      project only, its deployments' conversations. */
  predicate ProjectHit(term: string, p: ScanProject)
  {
    (p.detail.Ok? && Contains(p.detail.value, term)) ||
    (GetAttrOr(p.useCase, "") == Some("AI_AGENT") && p.deployments.Ok? && DeploymentsHit(term, p.deployments.value))
  }

  /** Strategy 3 over the projects; reading a missing `p.name` ends the strategy. */
  function ProjectsHit(term: string, ps: seq<ScanProject>): bool
  {
    if ps == [] then false
    else if ps[0].name == Absent then false
    else ProjectHit(term, ps[0]) || ProjectsHit(term, ps[1..])
  }

  /** The first successful lookup. */
  function FirstOk(ls: seq<Outcome<string>>): Option<string>
  {
    if ls == [] then None else if ls[0].Ok? then Some(ls[0].value) else FirstOk(ls[1..])
  }

  /** Strategy 4 over the projects: the first successful lookup, trying the term once per
      deployment; a project whose listing fails is skipped. */
  function LookupAll(ps: seq<LookupProject>): Option<string>
  {
    if ps == [] then None
    else if ps[0].lookups.Ok? && FirstOk(ps[0].lookups.value).Some? then FirstOk(ps[0].lookups.value)
    else LookupAll(ps[1..])
  }

  /** `search_for_chat(client, term)`: the returned object and the final `found` flag. */
  function SearchFor(term: string, c: SearchCalls): (SearchResult, bool)
  {
    if c.direct.Ok? then (DirectSession(c.direct.value), true)
    else
      var listed := SessionsHit(term, c.sessions) || (c.projects.Ok? && ProjectsHit(term, c.projects.value));
      var looked := if c.lookupProjects.Ok? then LookupAll(c.lookupProjects.value) else None;
      if looked.Some? then (DeploymentConversation(looked.value), true) else (NoResult, listed)
  }

  // ---------------------------------------------------------------------------
  // Properties

  lemma LowerChars(s: string)
    ensures Lower(Lower(s)) == Lower(s) && Lower(Upper(s)) == Lower(s)
  {
    assert forall i :: 0 <= i < |s| ==> LowerChar(LowerChar(s[i])) == LowerChar(s[i]);
    assert forall i :: 0 <= i < |s| ==> LowerChar(UpperChar(s[i])) == LowerChar(s[i]);
  }

  /** The rule ignores the case of the search term, and anything whose id equals the
      term matches it. */
  lemma MatchIgnoresCase(term: string, x: Listed)
    ensures Matches(Lower(term), x) == Matches(term, x)
    ensures Matches(Upper(term), x) == Matches(term, x)
    ensures x.id == term ==> Matches(term, x)
  {
    LowerChars(term);
    if x.id == term {
      var l := Lower(term);
      assert l[..|l|] == l;
    }
  }

  /** A missing name reads as `''`: such an entry is found by its id alone, and the empty
      term finds everything. */
  lemma MissingNameMatchesById(term: string, x: Listed)
    ensures x.name == Absent && term != "" ==> (Matches(term, x) <==> Contains(Lower(x.id), Lower(term)))
    ensures term == "" ==> Matches(term, x)
  {
    if term == "" {
      assert Lower(term) == "";
      EmptyContained(Lower(x.id));
    }
  }

  /** The project-details test is case-sensitive, unlike the id-or-name rule. */
  lemma DetailTestIsCaseSensitive()
    ensures !ProjectHit("ABC", ScanProject(Absent, Absent, Ok("abc"), Err("")))
    ensures Matches("ABC", Listed("abc", Absent))
  {
    assert Contains("", "ABC") == false;
    assert Contains("c", "ABC") == false;
    assert Contains("bc", "ABC") == false;
    assert Lower("ABC") == "abc";
    assert Lower("abc") == "abc";
    MatchIgnoresCase("abc", Listed("abc", Absent));
  }

  /** For all inputs: the details test does not fold case, so a term holding an upper-case
      letter never hits details that hold none. */
  lemma DetailTestKeepsCase(term: string, detail: string, i: nat)
    requires Lower(detail) == detail
    requires i < |term| && 'A' <= term[i] <= 'Z'
    ensures !Contains(detail, term)
  {
    forall j: int
      ensures !OccursAt(detail, term, j)
    {
      if 0 <= j && j + |term| <= |detail| {
        assert LowerChar(detail[j + i]) == detail[j + i];
        assert detail[j..j + |term|][i] == detail[j + i];
      }
    }
    ContainsIff(detail, term);
  }

  /** Conversations are searched only in AI_AGENT projects. */
  lemma OnlyAgentProjectsScanConversations(term: string, p: ScanProject)
    requires GetAttrOr(p.useCase, "") != Some("AI_AGENT")
    ensures ProjectHit(term, p) <==> p.detail.Ok? && Contains(p.detail.value, term)
  {
  }

  /** A successful direct lookup is returned at once: nothing the later strategies would
      get changes the outcome. */
  lemma DirectHitReturnsAtOnce(term: string, c1: SearchCalls, c2: SearchCalls)
    requires c1.direct.Ok? && c2.direct == c1.direct
    ensures SearchFor(term, c1) == SearchFor(term, c2) == (DirectSession(c1.direct.value), true)
  {
  }

  /** Matches found only by the listing strategies set `found`, yet the function returns
      None, so `main` reports failure. */
  lemma ListedMatchesReturnNone(term: string, c: SearchCalls)
    requires c.direct.Err?
    requires c.lookupProjects.Err? || LookupAll(c.lookupProjects.value).None?
    ensures SearchFor(term, c).0 == NoResult
    ensures SearchFor(term, c).1 <==> SessionsHit(term, c.sessions) || (c.projects.Ok? && ProjectsHit(term, c.projects.value))
  {
  }

  /** Every lookup strategy 4 makes, in order. */
  function AllLookups(ps: seq<LookupProject>): seq<Outcome<string>>
  {
    if ps == [] then []
    else (if ps[0].lookups.Ok? then ps[0].lookups.value else []) + AllLookups(ps[1..])
  }

  lemma {:induction false} FirstOkAppend(a: seq<Outcome<string>>, b: seq<Outcome<string>>)
    ensures FirstOk(a + b) == if FirstOk(a).Some? then FirstOk(a) else FirstOk(b)
  {
    if a == [] {
      assert a + b == b;
    } else {
      assert (a + b)[0] == a[0];
      assert (a + b)[1..] == a[1..] + b;
      FirstOkAppend(a[1..], b);
    }
  }

  /** Strategy 4 returns the first successful lookup over all deployments of all projects,
      and makes no lookup at all when no project lists a deployment. */
  lemma {:induction false} LookupIsFirstSuccess(ps: seq<LookupProject>)
    ensures LookupAll(ps) == FirstOk(AllLookups(ps))
    ensures AllLookups(ps) == [] ==> LookupAll(ps).None?
  {
    if ps != [] {
      LookupIsFirstSuccess(ps[1..]);
      FirstOkAppend(if ps[0].lookups.Ok? then ps[0].lookups.value else [], AllLookups(ps[1..]));
    }
  }

  // ---------------------------------------------------------------------------
  // The search as the script runs it

  method ScanDeployments(term: string, ds: seq<ScanDeployment>) returns (hit: bool)
    ensures hit == DeploymentsHit(term, ds)
  {
    hit := false;
    var j := 0;
    while j < |ds|
      invariant 0 <= j <= |ds|
      invariant DeploymentsHit(term, ds) == (hit || DeploymentsHit(term, ds[j..]))
    {
      assert ds[j..][1..] == ds[j + 1..];
      match ds[j].convos {
        case Err(_) =>
          return;
        case Ok(cs) =>
          var k := 0;
          while k < |cs|
            invariant 0 <= k <= |cs|
            invariant DeploymentsHit(term, ds) == (hit || (exists m :: k <= m < |cs| && Matches(term, cs[m])) || DeploymentsHit(term, ds[j + 1..]))
          {
            if Matches(term, cs[k]) {
              hit := true;
            }
            k := k + 1;
          }
      }
      j := j + 1;
    }
  }

  method ScanProjects(term: string, ps: seq<ScanProject>) returns (hit: bool)
    ensures hit == ProjectsHit(term, ps)
  {
    hit := false;
    var i := 0;
    while i < |ps|
      invariant 0 <= i <= |ps|
      invariant ProjectsHit(term, ps) == (hit || ProjectsHit(term, ps[i..]))
    {
      var p := ps[i];
      assert ps[i..][0] == p && ps[i..][1..] == ps[i + 1..];
      if p.name == Absent {
        return;
      }
      if p.detail.Ok? && Contains(p.detail.value, term) {
        hit := true;
      }
      if GetAttrOr(p.useCase, "") == Some("AI_AGENT") && p.deployments.Ok? {
        var h := ScanDeployments(term, p.deployments.value);
        hit := hit || h;
      }
      i := i + 1;
    }
  }

  /** `search_for_chat`: the strategies in order, with their early returns. */
  method SearchForChat(term: string, c: SearchCalls) returns (result: SearchResult, found: bool)
    ensures (result, found) == SearchFor(term, c)
  {
    found := false;
    // 1. direct lookup
    if c.direct.Ok? {
      return DirectSession(c.direct.value), true;
    }
    // 2. all listed sessions
    if c.sessions.Ok? {
      var ss := c.sessions.value;
      var i := 0;
      while i < |ss|
        invariant 0 <= i <= |ss|
        invariant found <==> exists k :: 0 <= k < i && Matches(term, ss[k])
      {
        if Matches(term, ss[i]) {
          found := true;
        }
        i := i + 1;
      }
    }
    // 3. projects, their details and their agents' conversations
    if c.projects.Ok? {
      var h := ScanProjects(term, c.projects.value);
      found := found || h;
    }
    // 4. the term as a deployment conversation, once per deployment
    if c.lookupProjects.Ok? {
      var ps := c.lookupProjects.value;
      var i := 0;
      while i < |ps|
        invariant 0 <= i <= |ps|
        invariant LookupAll(ps) == LookupAll(ps[i..])
      {
        assert ps[i..][0] == ps[i] && ps[i..][1..] == ps[i + 1..];
        if ps[i].lookups.Ok? {
          var ls := ps[i].lookups.value;
          var j := 0;
          while j < |ls|
            invariant 0 <= j <= |ls|
            invariant FirstOk(ls) == FirstOk(ls[j..])
          {
            assert ls[j..][0] == ls[j] && ls[j..][1..] == ls[j + 1..];
            if ls[j].Ok? {
              return DeploymentConversation(ls[j].value), true;
            }
            j := j + 1;
          }
          assert ls[j..] == [];
        }
        i := i + 1;
      }
      assert ps[i..] == [];
    }
    result := NoResult;
  }
}
