/** bulk_export_all_deployment_conversations.py: export every conversation of every
    deployment of every project to
    `deployment_conversations_export/{project}/{deployment}_{id}/{stamp}__{name}__{cid}.html`. */
module AllDeploymentsExport {
  import opened Outcomes
  import opened PyText
  import opened Sanitize
  import opened Records
  import opened Render
  import opened Effects

  const BaseDir := "deployment_conversations_export"

  /** A listed project with the answer of `list_deployments(project_id=...)`. */
  datatype ProjectCalls = ProjectCalls(id: string, name: Attr, deployments: Outcome<seq<DeploymentCalls>>)

  datatype RunResult = MissingApiKey | Raised | Done(total: nat)

  /** `sanitize_filename(x)` of this script for an optional input; None when `.replace` raises. */
  function CleanOpt(x: Option<string>): Option<string>
  {
    match x
    case Some(t) => Some(SanitizeStripParens(t, ExportMaxLen))
    case None => None
  }

  function DeployDir(projectName: string, deployName: string, deployId: string): string
  {
    BaseDir + "/" + projectName + "/" + (deployName + "_" + deployId)
  }

  /** The progress line for the 1-based `idx` of `n` conversations is printed for the first
      five, for every fiftieth and for the last. */
  predicate ShowProgress(idx: nat, n: nat)
  {
    idx % 50 == 0 || idx <= 5 || idx == n
  }

  /** One conversation. Its names are computed outside the innermost `try`, so a name or a
      creation attribute that is None raises into the deployment's `try`. */
  function ConvoEffect(dir: string, c: ConvoCalls): Effect
  {
    match (CleanOpt(GetAttrOr(c.convo.name, "convo_" + c.convo.id)), CleanOpt(GetAttrOr(c.convo.createdAt, c.clock)))
    case (Some(cname), Some(stamp)) =>
      Catch(match c.exported
            case Err(_) => Raise
            case Ok(html) =>
              Then(Write(dir + "/" + (stamp + "__" + cname + "__" + c.convo.id + ".html"), DeploymentPage(html, c.convo.id)), Count))
    case _ => Raise
  }

  function ConvoStep(dir: string): ConvoCalls -> Effect
  {
    c => ConvoEffect(dir, c)
  }

  /** One deployment. Its name is computed outside the deployment's `try`, so a missing
      name raises into the project's `try`; the directory is created only for a
      non-empty conversation list. */
  function DeploymentEffect(projectName: string, d: DeploymentCalls): Effect
  {
    match CleanOpt(OrElse(d.name, "deployment_" + d.id))
    case None => Raise
    case Some(deployName) =>
      var dir := DeployDir(projectName, deployName, d.id);
      Catch(match d.convos
            case Err(_) => Raise
            case Ok(cs) => if cs == [] then Skip else Then(MakeDir(dir), ForEach(cs, ConvoStep(dir))))
  }

  function DeploymentStep(projectName: string): DeploymentCalls -> Effect
  {
    d => DeploymentEffect(projectName, d)
  }

  /** One project. Its name is computed outside every `try`, so a missing name ends the run. */
  function ProjectEffect(p: ProjectCalls): Effect
  {
    match CleanOpt(OrElse(p.name, "project_" + p.id))
    case None => Raise
    case Some(projectName) =>
      Catch(match p.deployments
            case Err(_) => Raise
            case Ok(ds) => ForEach(ds, DeploymentStep(projectName)))
  }

  function ProjectStep(): ProjectCalls -> Effect
  {
    p => ProjectEffect(p)
  }

  function RunEffect(apiKey: Option<string>, projects: Outcome<seq<ProjectCalls>>): Effect
  {
    if !Truthy(apiKey) then Raise
    else Then(MakeDir(BaseDir),
      match projects
      case Err(_) => Raise
      case Ok(ps) => ForEach(ps, ProjectStep()))
  }

  function RunOutcome(apiKey: Option<string>, projects: Outcome<seq<ProjectCalls>>): RunResult
  {
    var e := RunEffect(apiKey, projects);
    if !Truthy(apiKey) then MissingApiKey
    else if e.raised then Raised
    else Done(e.exported)
  }

  // ---------------------------------------------------------------------------
  // Properties

  predicate StartsWith(s: string, prefix: string)
  {
    |s| >= |prefix| && s[..|prefix|] == prefix
  }

  /** Every write of `e` goes into `dir` and is a non-empty page. */
  predicate PagesIn(e: Effect, dir: string)
  {
    forall w :: w in e.writes ==> StartsWith(w.path, dir + "/") && w.content != ""
  }

  lemma ConvoFacts(dir: string, c: ConvoCalls)
    ensures Counted(ConvoEffect(dir, c)) && PagesIn(ConvoEffect(dir, c), dir)
    ensures ConvoEffect(dir, c).dirs == []
  {
    var cname := CleanOpt(GetAttrOr(c.convo.name, "convo_" + c.convo.id));
    var stamp := CleanOpt(GetAttrOr(c.convo.createdAt, c.clock));
    if cname.Some? && stamp.Some? && c.exported.Ok? {
      var base := dir + "/" + (stamp.value + "__" + cname.value + "__" + c.convo.id);
      var path := dir + "/" + (stamp.value + "__" + cname.value + "__" + c.convo.id + ".html");
      assert path == base + ".html";
      assert path[..|dir + "/"|] == dir + "/";
      DeploymentPageFacts(c.exported.value, c.convo.id);
      CountedPage(base, DeploymentPage(c.exported.value, c.convo.id));
    }
  }

  lemma {:induction false} ConvosFacts(dir: string, cs: seq<ConvoCalls>)
    ensures Counted(ForEach(cs, ConvoStep(dir))) && PagesIn(ForEach(cs, ConvoStep(dir)), dir)
    ensures ForEach(cs, ConvoStep(dir)).dirs == []
  {
    if cs != [] {
      ConvoFacts(dir, cs[0]);
      ConvosFacts(dir, cs[1..]);
      CountedThen(ConvoEffect(dir, cs[0]), ForEach(cs[1..], ConvoStep(dir)));
    }
  }

  /** A deployment creates its directory only when it lists at least one conversation,
      writes only non-empty pages inside that directory, and counts exactly the pages
      it wrote. */
  lemma DeploymentFacts(projectName: string, d: DeploymentCalls)
    ensures Counted(DeploymentEffect(projectName, d))
    ensures !DeploymentEffect(projectName, d).raised <==> d.name != Absent
    ensures var e := DeploymentEffect(projectName, d);
      match CleanOpt(OrElse(d.name, "deployment_" + d.id))
      case None => e.dirs == [] && e.writes == []
      case Some(deployName) =>
        var dir := DeployDir(projectName, deployName, d.id);
        e.dirs == (if d.convos.Ok? && d.convos.value != [] then [dir] else []) && PagesIn(e, dir)
  {
    var name := CleanOpt(OrElse(d.name, "deployment_" + d.id));
    if name.Some? && d.convos.Ok? && d.convos.value != [] {
      var dir := DeployDir(projectName, name.value, d.id);
      ConvosFacts(dir, d.convos.value);
      CountedThen(MakeDir(dir), ForEach(d.convos.value, ConvoStep(dir)));
    }
  }

  /** A conversation whose name or creation attribute is None ends its deployment's
      loop: the loop raises after the conversations before it are exported, and the ones
      after it are not visited. The deployment's `try` catches that raise (see
      `DeploymentFacts`, which states the deployment raises only for a missing name). */
  lemma NullNameEndsDeployment(dir: string, cs: seq<ConvoCalls>, k: nat)
    requires k < |cs| && (cs[k].convo.name == Null || cs[k].convo.createdAt == Null)
    requires !ForEach(cs[..k], ConvoStep(dir)).raised
    ensures ForEach(cs, ConvoStep(dir)).raised
    ensures ForEach(cs, ConvoStep(dir)) == Then(ForEach(cs[..k], ConvoStep(dir)), Raise)
  {
    assert ConvoStep(dir)(cs[k]) == Raise;
    ForEachPrefix(cs, k, ConvoStep(dir));
    ForEachStopsAtRaise(cs, k + 1, ConvoStep(dir));
  }

  /** A conversation listed with a None name is the only way a conversation stops the
      loop: a failed export is caught and the next conversation is attempted. */
  lemma ConvoRaisesIffNull(dir: string, c: ConvoCalls)
    ensures ConvoEffect(dir, c).raised <==> (c.convo.name == Null || c.convo.createdAt == Null)
  {
  }

  lemma ProjectFacts(p: ProjectCalls)
    ensures Counted(ProjectEffect(p))
    ensures ProjectEffect(p).raised <==> p.name == Absent
  {
    var name := CleanOpt(OrElse(p.name, "project_" + p.id));
    if name.Some? && p.deployments.Ok? {
      var ds := p.deployments.value;
      forall k | 0 <= k < |ds| ensures Counted(DeploymentStep(name.value)(ds[k])) {
        DeploymentFacts(name.value, ds[k]);
      }
      CountedForEach(ds, DeploymentStep(name.value));
    }
  }

  /** The final total is the number of pages written; the run ends early only for a
      missing API key, a failing project listing or a project without a name. */
  lemma TotalIsPagesWritten(apiKey: Option<string>, ps: seq<ProjectCalls>)
    requires Truthy(apiKey)
    requires forall k :: 0 <= k < |ps| ==> ps[k].name != Absent
    ensures RunOutcome(apiKey, Ok(ps)) == Done(HtmlWrites(RunEffect(apiKey, Ok(ps)).writes))
  {
    forall k | 0 <= k < |ps| ensures Counted(ProjectStep()(ps[k])) && !ProjectStep()(ps[k]).raised {
      ProjectFacts(ps[k]);
    }
    CountedForEach(ps, ProjectStep());
    forall p | p in ps ensures !ProjectStep()(p).raised {
      ProjectFacts(p);
    }
    ForEachNoRaise(ps, ProjectStep());
    CountedThen(MakeDir(BaseDir), ForEach(ps, ProjectStep()));
  }

  lemma MissingKeyTouchesNothing(apiKey: Option<string>, projects: Outcome<seq<ProjectCalls>>)
    requires !Truthy(apiKey)
    ensures RunOutcome(apiKey, projects) == MissingApiKey
    ensures RunEffect(apiKey, projects).dirs == [] && RunEffect(apiKey, projects).writes == []
  {
  }

  /** How many of the first `m` conversations of `n` get a progress line. */
  function ProgressLines(m: nat, n: nat): nat
  {
    if m == 0 then 0 else ProgressLines(m - 1, n) + (if ShowProgress(m, n) then 1 else 0)
  }

  lemma {:induction false} ProgressBefore(m: nat, n: nat)
    requires m < n
    ensures ProgressLines(m, n) == Min(m, 5) + m / 50
  {
    if m > 0 {
      ProgressBefore(m - 1, n);
      assert m / 50 == (m - 1) / 50 + (if m % 50 == 0 then 1 else 0);
    }
  }

  /** Of `n` conversations, the first `min(n, 5)`, the `n / 50` multiples of fifty and the
      last one (when not already among them) get a progress line. */
  lemma ProgressLineCount(n: nat)
    ensures ProgressLines(n, n) == Min(n, 5) + n / 50 + (if n > 5 && n % 50 != 0 then 1 else 0)
    ensures n > 0 ==> ShowProgress(1, n) && ShowProgress(n, n)
  {
    if n > 0 {
      ProgressBefore(n - 1, n);
      assert n / 50 == (n - 1) / 50 + (if n % 50 == 0 then 1 else 0);
    }
  }

  // ---------------------------------------------------------------------------
  // The script

  method ExportConvo(fs: FileStore, dir: string, c: ConvoCalls) returns (count: nat, raised: bool)
    modifies fs
    ensures Performed(old(fs.dirs), old(fs.files), fs.dirs, fs.files, ConvoEffect(dir, c))
    ensures count == ConvoEffect(dir, c).exported && raised == ConvoEffect(dir, c).raised
  {
    var cname := GetAttrOr(c.convo.name, "convo_" + c.convo.id);
    var stamp := GetAttrOr(c.convo.createdAt, c.clock);
    if cname.None? || stamp.None? {
      PerformedSkip(fs.dirs, fs.files);
      return 0, true;
    }
    var filename := SanitizeStripParens(stamp.value, ExportMaxLen) + "__" +
      SanitizeStripParens(cname.value, ExportMaxLen) + "__" + c.convo.id + ".html";
    match c.exported {
      case Err(_) =>
        PerformedSkip(fs.dirs, fs.files);
        count := 0;
      case Ok(html) =>
        var page := html;
        if !Truthy(page) {
          page := Some(EmptyExportPage(c.convo.id));
        }
        fs.WriteText(dir + "/" + filename, page.value);
        ThenCount(Write(dir + "/" + filename, page.value));
        count := 1;
    }
    raised := false;
  }

  method ExportDeployment(fs: FileStore, projectName: string, d: DeploymentCalls) returns (count: nat, raised: bool)
    modifies fs
    ensures Performed(old(fs.dirs), old(fs.files), fs.dirs, fs.files, DeploymentEffect(projectName, d))
    ensures count == DeploymentEffect(projectName, d).exported && raised == DeploymentEffect(projectName, d).raised
  {
    var nameIn := OrElse(d.name, "deployment_" + d.id);
    if nameIn.None? {
      PerformedSkip(fs.dirs, fs.files);
      return 0, true;
    }
    raised := false;
    if d.convos.Err? || d.convos.value == [] {
      PerformedSkip(fs.dirs, fs.files);
      return 0, false;
    }
    var convos := d.convos.value;
    var dir := DeployDir(projectName, SanitizeStripParens(nameIn.value, ExportMaxLen), d.id);
    ghost var d0, f0 := fs.dirs, fs.files;
    fs.MakeDirs(dir);
    ghost var d1, f1 := fs.dirs, fs.files;
    count := 0;
    var i := 0;
    while i < |convos|
      invariant 0 <= i <= |convos|
      invariant Performed(d1, f1, fs.dirs, fs.files, ForEach(convos[..i], ConvoStep(dir)))
      invariant !ForEach(convos[..i], ConvoStep(dir)).raised
      invariant count == ForEach(convos[..i], ConvoStep(dir)).exported
    {
      ghost var dm, fm := fs.dirs, fs.files;
      var n, r := ExportConvo(fs, dir, convos[i]);
      ForEachStep(d1, f1, dm, fm, fs.dirs, fs.files, convos, i, ConvoStep(dir));
      count := count + n;
      if r {
        break;
      }
      i := i + 1;
    }
    if i == |convos| {
      assert convos[..i] == convos;
    } else {
      assert ForEach(convos, ConvoStep(dir)) == ForEach(convos[..i + 1], ConvoStep(dir));
    }
    PerformedThen(d0, f0, d1, f1, fs.dirs, fs.files, MakeDir(dir), ForEach(convos, ConvoStep(dir)));
  }

  method ExportProject(fs: FileStore, p: ProjectCalls) returns (count: nat, raised: bool)
    modifies fs
    ensures Performed(old(fs.dirs), old(fs.files), fs.dirs, fs.files, ProjectEffect(p))
    ensures count == ProjectEffect(p).exported && raised == ProjectEffect(p).raised
  {
    var nameIn := OrElse(p.name, "project_" + p.id);
    if nameIn.None? {
      PerformedSkip(fs.dirs, fs.files);
      return 0, true;
    }
    raised := false;
    if p.deployments.Err? {
      PerformedSkip(fs.dirs, fs.files);
      return 0, false;
    }
    var projectName := SanitizeStripParens(nameIn.value, ExportMaxLen);
    var deployments := p.deployments.value;
    ghost var d0, f0 := fs.dirs, fs.files;
    count := 0;
    var i := 0;
    while i < |deployments|
      invariant 0 <= i <= |deployments|
      invariant Performed(d0, f0, fs.dirs, fs.files, ForEach(deployments[..i], DeploymentStep(projectName)))
      invariant !ForEach(deployments[..i], DeploymentStep(projectName)).raised
      invariant count == ForEach(deployments[..i], DeploymentStep(projectName)).exported
    {
      ghost var dm, fm := fs.dirs, fs.files;
      var n, r := ExportDeployment(fs, projectName, deployments[i]);
      ForEachStep(d0, f0, dm, fm, fs.dirs, fs.files, deployments, i, DeploymentStep(projectName));
      count := count + n;
      if r {
        return;
      }
      i := i + 1;
    }
    assert deployments[..i] == deployments;
  }

  /** `main()`. */
  method ExportAllDeploymentConversations(fs: FileStore, apiKey: Option<string>, projects: Outcome<seq<ProjectCalls>>)
    returns (result: RunResult)
    modifies fs
    ensures Performed(old(fs.dirs), old(fs.files), fs.dirs, fs.files, RunEffect(apiKey, projects))
    ensures result == RunOutcome(apiKey, projects)
  {
    if !Truthy(apiKey) {
      PerformedSkip(fs.dirs, fs.files);
      return MissingApiKey;
    }
    ghost var d0, f0 := fs.dirs, fs.files;
    fs.MakeDirs(BaseDir);
    ghost var d1, f1 := fs.dirs, fs.files;
    if projects.Err? {
      PerformedThen(d0, f0, d1, f1, d1, f1, MakeDir(BaseDir), Raise);
      return Raised;
    }
    var ps := projects.value;
    var total := 0;
    var i := 0;
    while i < |ps|
      invariant 0 <= i <= |ps|
      invariant Performed(d1, f1, fs.dirs, fs.files, ForEach(ps[..i], ProjectStep()))
      invariant !ForEach(ps[..i], ProjectStep()).raised
      invariant total == ForEach(ps[..i], ProjectStep()).exported
    {
      ghost var dm, fm := fs.dirs, fs.files;
      var n, r := ExportProject(fs, ps[i]);
      ForEachStep(d1, f1, dm, fm, fs.dirs, fs.files, ps, i, ProjectStep());
      total := total + n;
      if r {
        PerformedThen(d0, f0, d1, f1, fs.dirs, fs.files, MakeDir(BaseDir), ForEach(ps, ProjectStep()));
        return Raised;
      }
      i := i + 1;
    }
    assert ps[..i] == ps;
    PerformedThen(d0, f0, d1, f1, fs.dirs, fs.files, MakeDir(BaseDir), ForEach(ps, ProjectStep()));
    result := Done(total);
  }
}
