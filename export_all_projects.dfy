/** bulk_export_all_projects.py: for every project of the account, export its chat
    sessions (CHAT_LLM projects) or its agents' deployment conversations (AI_AGENT
    projects) into `exports/{project_name}_{project_id}/`. */
module ProjectExport {
  import opened Outcomes
  import opened PyText
  import opened Sanitize
  import opened Records
  import opened Render
  import opened Effects

  /** A project as `list_projects()` lists it. */
  datatype Project = Project(id: string, name: Attr, useCase: Attr)

  /** A listed agent with the answer of `list_deployments(project_id=...)`, which the
      script asks again for every agent. */
  datatype AgentCalls = AgentCalls(id: string, name: Attr, deployments: Outcome<seq<DeploymentCalls>>)

  /** A listed project with the answers of `list_chat_sessions()` (asked only for a
      CHAT_LLM project, and not scoped to the project) and `list_agents(project_id=...)`
      (asked only for an AI_AGENT project). */
  datatype ProjectCalls = ProjectCalls(project: Project, sessions: Outcome<seq<SessionCalls>>, agents: Outcome<seq<AgentCalls>>)

  datatype MainResult = MissingApiKey | Raised | NoProjects | Done(total: nat)

  /** `sanitize_filename(text)` of this script, with its default length. */
  function Clean(text: string): string
  {
    SanitizeStripParens(text, ExportMaxLen)
  }

  /** `sanitize_filename(x)` of an optional input; None when `x` is None and `.replace` raises. */
  function CleanOpt(x: Option<string>): Option<string>
  {
    match x
    case Some(t) => Some(Clean(t))
    case None => None
  }

  function ProjectName(p: Project): Option<string>
  {
    CleanOpt(OrElse(p.name, "project_" + p.id))
  }

  function ProjectDir(name: string, id: string): string
  {
    "exports/" + name + "_" + id
  }

  /** `getattr(project, 'use_case', 'UNKNOWN')`; a None value selects neither branch. */
  function UseCase(p: Project): Option<string>
  {
    GetAttrOr(p.useCase, "UNKNOWN")
  }

  // ---------------------------------------------------------------------------
  // CHAT_LLM projects

  function SessionName(s: Session): Option<string>
  {
    CleanOpt(OrElse(s.name, "session_" + s.id))
  }

  /** `sanitize_filename(getattr(s, 'created_at', str(time.time())))`: the clock is used only
      when the attribute is missing; a None value raises. */
  function SessionStamp(s: Session, clock: string): Option<string>
  {
    CleanOpt(GetAttrOr(s.createdAt, clock))
  }

  /** The HTML step: the export endpoint's page, else the local renderer's; a page is
      counted once it is written, and a failing fallback is caught without counting. */
  function SessionHtmlEffect(base: string, name: string, c: SessionCalls): Effect
  {
    match PrimaryHtml(c)
    case Some(html) => Then(Write(base + ".html", html), Count)
    case None =>
      match c.full
      case Err(_) => Skip
      case Ok(h) =>
        match ProjectFallbackParts(name, c.session.id, h)
        case Some(parts) => Then(Write(base + ".html", Join(parts, "\n")), Count)
        case None => Skip
  }

  function ChatSessionEffect(out: string, c: SessionCalls): Effect
  {
    match (SessionName(c.session), SessionStamp(c.session, c.clock))
    case (Some(name), Some(stamp)) =>
      var base := out + "/" + (stamp + "__" + name + "__" + c.session.id);
      Then(JsonEffect(base, c), SessionHtmlEffect(base, name, c))
    case _ => Raise
  }

  function ChatSessionStep(out: string): SessionCalls -> Effect
  {
    c => ChatSessionEffect(out, c)
  }

  /** The body of the CHAT_LLM `try`: listing, then every session. */
  function ChatLlmEffect(out: string, listing: Outcome<seq<SessionCalls>>): Effect
  {
    match listing
    case Err(_) => Raise
    case Ok(ss) => ForEach(ss, ChatSessionStep(out))
  }

  // ---------------------------------------------------------------------------
  // AI_AGENT projects

  function AgentName(a: AgentCalls): Option<string>
  {
    CleanOpt(OrElse(a.name, "agent_" + a.id))
  }

  /** `html or "<html><body>Empty</body></html>"`. */
  function AgentPage(html: Option<string>): string
  {
    if Truthy(html) then html.value else EmptyAgentPage
  }

  /** `sanitize_filename(getattr(c, 'name', f"convo_{cid}"))`. */
  function ConvoName(c: Conversation): Option<string>
  {
    CleanOpt(GetAttrOr(c.name, "convo_" + c.id))
  }

  function ConvoStamp(c: ConvoCalls): Option<string>
  {
    CleanOpt(GetAttrOr(c.convo.createdAt, c.clock))
  }

  function ConvoPath(out: string, stamp: string, agentName: string, cname: string, cid: string): string
  {
    out + "/" + (stamp + "__" + agentName + "__" + cname + "__" + cid + ".html")
  }

  /** One conversation; nothing here is caught inside the deployment loop. */
  function ConvoEffect(out: string, agentName: string, c: ConvoCalls): Effect
  {
    match (ConvoStamp(c), ConvoName(c.convo))
    case (Some(stamp), Some(cname)) =>
      (match c.exported
       case Err(_) => Raise
       case Ok(html) => Then(Write(ConvoPath(out, stamp, agentName, cname, c.convo.id), AgentPage(html)), Count))
    case _ => Raise
  }

  function ConvoStep(out: string, agentName: string): ConvoCalls -> Effect
  {
    c => ConvoEffect(out, agentName, c)
  }

  /** One deployment: `deploy.name` is read for the progress line, then its conversations. */
  function DeploymentEffect(out: string, agentName: string, d: DeploymentCalls): Effect
  {
    if d.name == Absent then Raise
    else match d.convos
      case Err(_) => Raise
      case Ok(cs) => ForEach(cs, ConvoStep(out, agentName))
  }

  function DeploymentStep(out: string, agentName: string): DeploymentCalls -> Effect
  {
    d => DeploymentEffect(out, agentName, d)
  }

  /** One agent: its name is computed outside the inner `try`, which covers the listing of
      deployments and every deployment after it. */
  function AgentEffect(out: string, a: AgentCalls): Effect
  {
    match AgentName(a)
    case None => Raise
    case Some(agentName) =>
      Catch(match a.deployments
            case Err(_) => Raise
            case Ok(ds) => ForEach(ds, DeploymentStep(out, agentName)))
  }

  function AgentStep(out: string): AgentCalls -> Effect
  {
    a => AgentEffect(out, a)
  }

  /** The body of the AI_AGENT `try`: listing, then every agent. */
  function AgentsEffect(out: string, listing: Outcome<seq<AgentCalls>>): Effect
  {
    match listing
    case Err(_) => Raise
    case Ok(agents) => ForEach(agents, AgentStep(out))
  }

  // ---------------------------------------------------------------------------
  // Projects and the main loop

  /** `export_project_chats(client, project)`; the counter it returns is `exported`. */
  function ProjectEffect(pc: ProjectCalls): Effect
  {
    match ProjectName(pc.project)
    case None => Raise
    case Some(pname) =>
      var out := ProjectDir(pname, pc.project.id);
      Then(MakeDir(out),
        if UseCase(pc.project) == Some("CHAT_LLM") then Catch(ChatLlmEffect(out, pc.sessions))
        else if UseCase(pc.project) == Some("AI_AGENT") then Catch(AgentsEffect(out, pc.agents))
        else Skip)
  }

  function ProjectStep(): ProjectCalls -> Effect
  {
    pc => CatchCount(ProjectEffect(pc))
  }

  function MainEffect(apiKey: Option<string>, projects: Outcome<seq<ProjectCalls>>): Effect
  {
    if !Truthy(apiKey) then Raise
    else match projects
      case Err(_) => Raise
      case Ok(ps) => ForEach(ps, ProjectStep())
  }

  function MainOutcome(apiKey: Option<string>, projects: Outcome<seq<ProjectCalls>>): MainResult
  {
    if !Truthy(apiKey) then MissingApiKey
    else match projects
      case Err(_) => Raised
      case Ok(ps) => if ps == [] then NoProjects else Done(ForEach(ps, ProjectStep()).exported)
  }

  // ---------------------------------------------------------------------------
  // Properties

  /** A CHAT_LLM session counts exactly its `.html` page. With its names computed, it does
      not raise; it writes the `.json` file (empty when `to_dict()` fails), then the page
      of the export endpoint (a str as it is, bytes decoded) or, failing that, of the
      local renderer, and nothing more when both fail. */
  lemma ChatSessionCounted(out: string, c: SessionCalls)
    ensures Counted(ChatSessionEffect(out, c))
    ensures ChatSessionEffect(out, c).raised <==> SessionName(c.session).None? || SessionStamp(c.session, c.clock).None?
    ensures SessionName(c.session).Some? && SessionStamp(c.session, c.clock).Some? ==>
      var e := ChatSessionEffect(out, c);
      var name := SessionName(c.session).value;
      var base := out + "/" + (SessionStamp(c.session, c.clock).value + "__" + name + "__" + c.session.id);
      var paged := PrimaryHtml(c).Some? || (c.full.Ok? && ProjectFallbackParts(name, c.session.id, c.full.value).Some?);
      e.dirs == [] && |e.writes| == (if paged then 2 else 1) &&
      e.writes[0] == FileWrite(base + ".json", if c.toDict.Ok? then c.toDict.value else "") &&
      (paged ==> e.writes[1] == FileWrite(base + ".html",
        match c.exported
        case Ok(Str(t)) => t
        case Ok(Bytes(t)) => t
        case _ => Join(ProjectFallbackParts(name, c.session.id, c.full.value).value, "\n")))
  {
    match (SessionName(c.session), SessionStamp(c.session, c.clock)) {
      case (Some(name), Some(stamp)) =>
        var base := out + "/" + (stamp + "__" + name + "__" + c.session.id);
        CountedJson(base, if c.toDict.Ok? then c.toDict.value else "");
        match PrimaryHtml(c) {
          case Some(html) => CountedPage(base, html);
          case None =>
            if c.full.Ok? && ProjectFallbackParts(name, c.session.id, c.full.value).Some? {
              CountedPage(base, Join(ProjectFallbackParts(name, c.session.id, c.full.value).value, "\n"));
            }
        }
        CountedThen(JsonEffect(base, c), SessionHtmlEffect(base, name, c));
      case _ =>
    }
  }

  lemma ConvoCounted(out: string, agentName: string, c: ConvoCalls)
    ensures Counted(ConvoEffect(out, agentName, c))
  {
    match (ConvoStamp(c), ConvoName(c.convo)) {
      case (Some(stamp), Some(cname)) =>
        if c.exported.Ok? {
          var path := ConvoPath(out, stamp, agentName, cname, c.convo.id);
          var base := out + "/" + (stamp + "__" + agentName + "__" + cname + "__" + c.convo.id);
          assert path == base + ".html";
          CountedPage(base, AgentPage(c.exported.value));
        }
      case _ =>
    }
  }

  lemma DeploymentCounted(out: string, agentName: string, d: DeploymentCalls)
    ensures Counted(DeploymentEffect(out, agentName, d))
  {
    if d.name != Absent && d.convos.Ok? {
      var cs := d.convos.value;
      forall k | 0 <= k < |cs| ensures Counted(ConvoStep(out, agentName)(cs[k])) {
        ConvoCounted(out, agentName, cs[k]);
      }
      CountedForEach(cs, ConvoStep(out, agentName));
    }
  }

  lemma AgentCounted(out: string, a: AgentCalls)
    ensures Counted(AgentEffect(out, a))
  {
    if AgentName(a).Some? && a.deployments.Ok? {
      var ds := a.deployments.value;
      forall k | 0 <= k < |ds| ensures Counted(DeploymentStep(out, AgentName(a).value)(ds[k])) {
        DeploymentCounted(out, AgentName(a).value, ds[k]);
      }
      CountedForEach(ds, DeploymentStep(out, AgentName(a).value));
    }
  }

  lemma ChatLlmCounted(out: string, listing: Outcome<seq<SessionCalls>>)
    ensures Counted(ChatLlmEffect(out, listing))
  {
    if listing.Ok? {
      var ss := listing.value;
      forall k | 0 <= k < |ss| ensures Counted(ChatSessionStep(out)(ss[k])) {
        ChatSessionCounted(out, ss[k]);
      }
      CountedForEach(ss, ChatSessionStep(out));
    }
  }

  lemma AgentsCounted(out: string, listing: Outcome<seq<AgentCalls>>)
    ensures Counted(AgentsEffect(out, listing))
  {
    if listing.Ok? {
      var agents := listing.value;
      forall k | 0 <= k < |agents| ensures Counted(AgentStep(out)(agents[k])) {
        AgentCounted(out, agents[k]);
      }
      CountedForEach(agents, AgentStep(out));
    }
  }

  /** `export_project_chats` returns exactly the number of `.html` writes it made (the raw
      `.json` files are not counted), and it raises only before it creates anything. */
  lemma ProjectCounted(pc: ProjectCalls)
    ensures Counted(ProjectEffect(pc))
    ensures ProjectEffect(pc).raised <==> ProjectName(pc.project).None?
    ensures ProjectEffect(pc).raised ==> ProjectEffect(pc) == Raise
  {
    if ProjectName(pc.project).Some? {
      var out := ProjectDir(ProjectName(pc.project).value, pc.project.id);
      ChatLlmCounted(out, pc.sessions);
      AgentsCounted(out, pc.agents);
      assert Counted(MakeDir(out));
      var rest :=
        if UseCase(pc.project) == Some("CHAT_LLM") then Catch(ChatLlmEffect(out, pc.sessions))
        else if UseCase(pc.project) == Some("AI_AGENT") then Catch(AgentsEffect(out, pc.agents))
        else Skip;
      assert Counted(rest);
      CountedThen(MakeDir(out), rest);
    }
  }

  /** The grand total printed at the end is the number of `.html` writes made across
      all projects; a project that raises adds nothing to it and writes nothing. */
  lemma MainTotalIsPagesWritten(apiKey: Option<string>, ps: seq<ProjectCalls>)
    requires Truthy(apiKey) && ps != []
    ensures !MainEffect(apiKey, Ok(ps)).raised
    ensures MainOutcome(apiKey, Ok(ps)) == Done(HtmlWrites(MainEffect(apiKey, Ok(ps)).writes))
  {
    forall k | 0 <= k < |ps| ensures Counted(ProjectStep()(ps[k])) && !ProjectStep()(ps[k]).raised {
      ProjectCounted(ps[k]);
    }
    CountedForEach(ps, ProjectStep());
    forall p | p in ps ensures !ProjectStep()(p).raised {
    }
    ForEachNoRaise(ps, ProjectStep());
  }

  /** A project whose use case is neither CHAT_LLM nor AI_AGENT gets its directory and
      nothing else. */
  lemma OtherUseCaseOnlyMakesDir(pc: ProjectCalls)
    requires ProjectName(pc.project).Some?
    requires UseCase(pc.project) != Some("CHAT_LLM") && UseCase(pc.project) != Some("AI_AGENT")
    ensures ProjectEffect(pc) == MakeDir(ProjectDir(ProjectName(pc.project).value, pc.project.id))
  {
  }

  /** A conversation that is exported writes one page and counts it. */
  predicate ConvoExports(c: ConvoCalls)
  {
    ConvoStamp(c).Some? && ConvoName(c.convo).Some? && c.exported.Ok?
  }

  predicate DeploymentExports(d: DeploymentCalls)
  {
    d.name != Absent && d.convos.Ok? &&
    forall k :: 0 <= k < |d.convos.value| ==> ConvoExports(d.convos.value[k])
  }

  /** The number of listed conversations over all deployments. */
  function ConvoTotal(ds: seq<DeploymentCalls>): nat
  {
    if ds == [] then 0
    else (if ds[0].convos.Ok? then |ds[0].convos.value| else 0) + ConvoTotal(ds[1..])
  }

  lemma {:induction false} DeploymentsExport(out: string, agentName: string, ds: seq<DeploymentCalls>)
    requires forall k :: 0 <= k < |ds| ==> DeploymentExports(ds[k])
    ensures !ForEach(ds, DeploymentStep(out, agentName)).raised
    ensures ForEach(ds, DeploymentStep(out, agentName)).exported == ConvoTotal(ds)
  {
    if ds != [] {
      assert DeploymentExports(ds[0]);
      ConvosExport(out, agentName, ds[0].convos.value);
      assert forall k :: 0 <= k < |ds[1..]| ==> ds[1..][k] == ds[k + 1];
      DeploymentsExport(out, agentName, ds[1..]);
    }
  }

  lemma {:induction false} ConvosExport(out: string, agentName: string, cs: seq<ConvoCalls>)
    requires forall k :: 0 <= k < |cs| ==> ConvoExports(cs[k])
    ensures !ForEach(cs, ConvoStep(out, agentName)).raised
    ensures ForEach(cs, ConvoStep(out, agentName)).exported == |cs|
  {
    if cs != [] {
      assert ConvoExports(cs[0]);
      assert forall k :: 0 <= k < |cs[1..]| ==> cs[1..][k] == cs[k + 1];
      ConvosExport(out, agentName, cs[1..]);
    }
  }

  lemma AgentExportsAll(out: string, a: AgentCalls, ds: seq<DeploymentCalls>)
    requires a.name != Absent && a.deployments == Ok(ds)
    requires forall k :: 0 <= k < |ds| ==> DeploymentExports(ds[k])
    ensures !AgentEffect(out, a).raised && AgentEffect(out, a).exported == ConvoTotal(ds)
  {
    DeploymentsExport(out, AgentName(a).value, ds);
  }

  /** Deployments are listed per project, not per agent: when every agent of an AI_AGENT
      project gets the same list and everything succeeds, each conversation is exported
      once per agent. */
  lemma {:induction false} EveryAgentExportsEveryConversation(out: string, agents: seq<AgentCalls>, ds: seq<DeploymentCalls>)
    requires forall k :: 0 <= k < |agents| ==> agents[k].name != Absent && agents[k].deployments == Ok(ds)
    requires forall k :: 0 <= k < |ds| ==> DeploymentExports(ds[k])
    ensures !AgentsEffect(out, Ok(agents)).raised
    ensures AgentsEffect(out, Ok(agents)).exported == |agents| * ConvoTotal(ds)
  {
    AgentsLoopExports(out, agents, ds);
  }

  lemma {:induction false} AgentsLoopExports(out: string, agents: seq<AgentCalls>, ds: seq<DeploymentCalls>)
    requires forall k :: 0 <= k < |agents| ==> agents[k].name != Absent && agents[k].deployments == Ok(ds)
    requires forall k :: 0 <= k < |ds| ==> DeploymentExports(ds[k])
    ensures !ForEach(agents, AgentStep(out)).raised
    ensures ForEach(agents, AgentStep(out)).exported == |agents| * ConvoTotal(ds)
  {
    if agents != [] {
      var first, rest := AgentStep(out)(agents[0]), ForEach(agents[1..], AgentStep(out));
      AgentExportsAll(out, agents[0], ds);
      assert forall k :: 0 <= k < |agents[1..]| ==> agents[1..][k] == agents[k + 1];
      AgentsLoopExports(out, agents[1..], ds);
      assert ForEach(agents, AgentStep(out)) == Then(first, rest);
      calc {
        |agents| * ConvoTotal(ds);
        (1 + |agents[1..]|) * ConvoTotal(ds);
        ConvoTotal(ds) + |agents[1..]| * ConvoTotal(ds);
      }
    }
  }

  /** A deployment that raises (a failed conversation listing or export, a conversation
      whose name or creation attribute is None) ends its agent's deployment loop: the
      agent's later deployments are not visited, but the agent itself does not raise, so
      the next agent runs. */
  lemma FailedDeploymentEndsAgent(out: string, a: AgentCalls, j: nat)
    requires AgentName(a).Some? && a.deployments.Ok? && j < |a.deployments.value|
    requires var step := DeploymentStep(out, AgentName(a).value);
      !ForEach(a.deployments.value[..j], step).raised && step(a.deployments.value[j]).raised
    ensures !AgentEffect(out, a).raised
    ensures AgentEffect(out, a) ==
      Catch(ForEach(a.deployments.value[..j + 1], DeploymentStep(out, AgentName(a).value)))
  {
    var ds, step := a.deployments.value, DeploymentStep(out, AgentName(a).value);
    ForEachPrefix(ds, j, step);
    ForEachStopsAtRaise(ds, j + 1, step);
  }

  // ---------------------------------------------------------------------------
  // The script

  method ExportChatSession(fs: FileStore, out: string, c: SessionCalls) returns (count: nat, raised: bool)
    modifies fs
    ensures Performed(old(fs.dirs), old(fs.files), fs.dirs, fs.files, ChatSessionEffect(out, c))
    ensures count == ChatSessionEffect(out, c).exported && raised == ChatSessionEffect(out, c).raised
  {
    var s := c.session;
    var nameIn := OrElse(s.name, "session_" + s.id);
    var stampIn := GetAttrOr(s.createdAt, c.clock);
    if nameIn.None? || stampIn.None? {
      PerformedSkip(fs.dirs, fs.files);
      return 0, true;
    }
    var name := Clean(nameIn.value);
    var stamp := Clean(stampIn.value);
    var base := out + "/" + (stamp + "__" + name + "__" + s.id);
    ghost var d0, f0 := fs.dirs, fs.files;

    match c.toDict {
      case Ok(text) => fs.WriteText(base + ".json", text);
      case Err(_) => fs.WriteText(base + ".json", "");
    }
    ghost var d1, f1 := fs.dirs, fs.files;

    count := 0;
    match c.exported {
      case Ok(Bytes(text)) =>
        fs.WriteText(base + ".html", text);
        ThenCount(Write(base + ".html", text));
        count := 1;
      case Ok(Str(text)) =>
        fs.WriteText(base + ".html", text);
        ThenCount(Write(base + ".html", text));
        count := 1;
      case _ =>
        if c.full.Ok? {
          var html := RenderProjectFallback(name, s.id, c.full.value);
          if html.Some? {
            fs.WriteText(base + ".html", html.value);
            ThenCount(Write(base + ".html", html.value));
            count := 1;
          }
        }
    }
    assert Performed(d1, f1, fs.dirs, fs.files, SessionHtmlEffect(base, name, c));
    PerformedThen(d0, f0, d1, f1, fs.dirs, fs.files, JsonEffect(base, c), SessionHtmlEffect(base, name, c));
    raised := false;
  }

  method ExportChatLlm(fs: FileStore, out: string, listing: Outcome<seq<SessionCalls>>) returns (count: nat, raised: bool)
    modifies fs
    ensures Performed(old(fs.dirs), old(fs.files), fs.dirs, fs.files, ChatLlmEffect(out, listing))
    ensures count == ChatLlmEffect(out, listing).exported && raised == ChatLlmEffect(out, listing).raised
  {
    if listing.Err? {
      PerformedSkip(fs.dirs, fs.files);
      return 0, true;
    }
    var sessions := listing.value;
    ghost var d0, f0 := fs.dirs, fs.files;
    count := 0;
    var i := 0;
    while i < |sessions|
      invariant 0 <= i <= |sessions|
      invariant Performed(d0, f0, fs.dirs, fs.files, ForEach(sessions[..i], ChatSessionStep(out)))
      invariant !ForEach(sessions[..i], ChatSessionStep(out)).raised
      invariant count == ForEach(sessions[..i], ChatSessionStep(out)).exported
    {
      ghost var dm, fm := fs.dirs, fs.files;
      var n, r := ExportChatSession(fs, out, sessions[i]);
      ForEachStep(d0, f0, dm, fm, fs.dirs, fs.files, sessions, i, ChatSessionStep(out));
      count := count + n;
      if r {
        return count, true;
      }
      i := i + 1;
    }
    assert sessions[..i] == sessions;
    raised := false;
  }

  method ExportConvo(fs: FileStore, out: string, agentName: string, c: ConvoCalls) returns (count: nat, raised: bool)
    modifies fs
    ensures Performed(old(fs.dirs), old(fs.files), fs.dirs, fs.files, ConvoEffect(out, agentName, c))
    ensures count == ConvoEffect(out, agentName, c).exported && raised == ConvoEffect(out, agentName, c).raised
  {
    var stampIn := GetAttrOr(c.convo.createdAt, c.clock);
    var cnameIn := GetAttrOr(c.convo.name, "convo_" + c.convo.id);
    if stampIn.None? || cnameIn.None? || c.exported.Err? {
      PerformedSkip(fs.dirs, fs.files);
      return 0, true;
    }
    var path := ConvoPath(out, Clean(stampIn.value), agentName, Clean(cnameIn.value), c.convo.id);
    fs.WriteText(path, AgentPage(c.exported.value));
    ThenCount(Write(path, AgentPage(c.exported.value)));
    return 1, false;
  }

  method ExportDeployment(fs: FileStore, out: string, agentName: string, d: DeploymentCalls) returns (count: nat, raised: bool)
    modifies fs
    ensures Performed(old(fs.dirs), old(fs.files), fs.dirs, fs.files, DeploymentEffect(out, agentName, d))
    ensures count == DeploymentEffect(out, agentName, d).exported && raised == DeploymentEffect(out, agentName, d).raised
  {
    if d.name == Absent || d.convos.Err? {
      PerformedSkip(fs.dirs, fs.files);
      return 0, true;
    }
    var convos := d.convos.value;
    ghost var d0, f0 := fs.dirs, fs.files;
    count := 0;
    var i := 0;
    while i < |convos|
      invariant 0 <= i <= |convos|
      invariant Performed(d0, f0, fs.dirs, fs.files, ForEach(convos[..i], ConvoStep(out, agentName)))
      invariant !ForEach(convos[..i], ConvoStep(out, agentName)).raised
      invariant count == ForEach(convos[..i], ConvoStep(out, agentName)).exported
    {
      ghost var dm, fm := fs.dirs, fs.files;
      var n, r := ExportConvo(fs, out, agentName, convos[i]);
      ForEachStep(d0, f0, dm, fm, fs.dirs, fs.files, convos, i, ConvoStep(out, agentName));
      count := count + n;
      if r {
        return count, true;
      }
      i := i + 1;
    }
    assert convos[..i] == convos;
    raised := false;
  }

  /** One agent; the inner `except` keeps what the deployments counted before a failure. */
  method ExportAgent(fs: FileStore, out: string, a: AgentCalls) returns (count: nat, raised: bool)
    modifies fs
    ensures Performed(old(fs.dirs), old(fs.files), fs.dirs, fs.files, AgentEffect(out, a))
    ensures count == AgentEffect(out, a).exported && raised == AgentEffect(out, a).raised
  {
    var nameIn := OrElse(a.name, "agent_" + a.id);
    if nameIn.None? {
      PerformedSkip(fs.dirs, fs.files);
      return 0, true;
    }
    var agentName := Clean(nameIn.value);
    if a.deployments.Err? {
      PerformedSkip(fs.dirs, fs.files);
      return 0, false;
    }
    var deployments := a.deployments.value;
    ghost var d0, f0 := fs.dirs, fs.files;
    count := 0;
    var i := 0;
    while i < |deployments|
      invariant 0 <= i <= |deployments|
      invariant Performed(d0, f0, fs.dirs, fs.files, ForEach(deployments[..i], DeploymentStep(out, agentName)))
      invariant !ForEach(deployments[..i], DeploymentStep(out, agentName)).raised
      invariant count == ForEach(deployments[..i], DeploymentStep(out, agentName)).exported
    {
      ghost var dm, fm := fs.dirs, fs.files;
      var n, r := ExportDeployment(fs, out, agentName, deployments[i]);
      ForEachStep(d0, f0, dm, fm, fs.dirs, fs.files, deployments, i, DeploymentStep(out, agentName));
      count := count + n;
      if r {
        return count, false;
      }
      i := i + 1;
    }
    assert deployments[..i] == deployments;
    raised := false;
  }

  method ExportAgents(fs: FileStore, out: string, listing: Outcome<seq<AgentCalls>>) returns (count: nat, raised: bool)
    modifies fs
    ensures Performed(old(fs.dirs), old(fs.files), fs.dirs, fs.files, AgentsEffect(out, listing))
    ensures count == AgentsEffect(out, listing).exported && raised == AgentsEffect(out, listing).raised
  {
    if listing.Err? {
      PerformedSkip(fs.dirs, fs.files);
      return 0, true;
    }
    var agents := listing.value;
    ghost var d0, f0 := fs.dirs, fs.files;
    count := 0;
    var i := 0;
    while i < |agents|
      invariant 0 <= i <= |agents|
      invariant Performed(d0, f0, fs.dirs, fs.files, ForEach(agents[..i], AgentStep(out)))
      invariant !ForEach(agents[..i], AgentStep(out)).raised
      invariant count == ForEach(agents[..i], AgentStep(out)).exported
    {
      ghost var dm, fm := fs.dirs, fs.files;
      var n, r := ExportAgent(fs, out, agents[i]);
      ForEachStep(d0, f0, dm, fm, fs.dirs, fs.files, agents, i, AgentStep(out));
      count := count + n;
      if r {
        return count, true;
      }
      i := i + 1;
    }
    assert agents[..i] == agents;
    raised := false;
  }

  /** `export_project_chats(client, project)`. */
  method ExportProjectChats(fs: FileStore, pc: ProjectCalls) returns (total: nat, raised: bool)
    modifies fs
    ensures Performed(old(fs.dirs), old(fs.files), fs.dirs, fs.files, ProjectEffect(pc))
    ensures total == ProjectEffect(pc).exported && raised == ProjectEffect(pc).raised
  {
    var p := pc.project;
    var nameIn := OrElse(p.name, "project_" + p.id);
    if nameIn.None? {
      PerformedSkip(fs.dirs, fs.files);
      return 0, true;
    }
    var out := ProjectDir(Clean(nameIn.value), p.id);
    var useCase := GetAttrOr(p.useCase, "UNKNOWN");
    ghost var d0, f0 := fs.dirs, fs.files;
    fs.MakeDirs(out);
    ghost var d1, f1 := fs.dirs, fs.files;
    total := 0;
    if useCase == Some("CHAT_LLM") {
      var r;
      total, r := ExportChatLlm(fs, out, pc.sessions);
      PerformedThen(d0, f0, d1, f1, fs.dirs, fs.files, MakeDir(out), Catch(ChatLlmEffect(out, pc.sessions)));
    } else if useCase == Some("AI_AGENT") {
      var r;
      total, r := ExportAgents(fs, out, pc.agents);
      PerformedThen(d0, f0, d1, f1, fs.dirs, fs.files, MakeDir(out), Catch(AgentsEffect(out, pc.agents)));
    } else {
      PerformedThen(d0, f0, d1, f1, d1, f1, MakeDir(out), Skip);
    }
    raised := false;
  }

  /** `main()`: a project that raises is reported and skipped. */
  method ExportAllProjects(fs: FileStore, apiKey: Option<string>, projects: Outcome<seq<ProjectCalls>>)
    returns (result: MainResult)
    modifies fs
    ensures Performed(old(fs.dirs), old(fs.files), fs.dirs, fs.files, MainEffect(apiKey, projects))
    ensures result == MainOutcome(apiKey, projects)
  {
    if !Truthy(apiKey) {
      PerformedSkip(fs.dirs, fs.files);
      return MissingApiKey;
    }
    if projects.Err? {
      PerformedSkip(fs.dirs, fs.files);
      return Raised;
    }
    var ps := projects.value;
    if ps == [] {
      PerformedSkip(fs.dirs, fs.files);
      return NoProjects;
    }
    ghost var d0, f0 := fs.dirs, fs.files;
    var totalAll := 0;
    var i := 0;
    while i < |ps|
      invariant 0 <= i <= |ps|
      invariant Performed(d0, f0, fs.dirs, fs.files, ForEach(ps[..i], ProjectStep()))
      invariant !ForEach(ps[..i], ProjectStep()).raised
      invariant totalAll == ForEach(ps[..i], ProjectStep()).exported
    {
      ghost var dm, fm := fs.dirs, fs.files;
      var n, r := ExportProjectChats(fs, ps[i]);
      ForEachStep(d0, f0, dm, fm, fs.dirs, fs.files, ps, i, ProjectStep());
      if !r {
        totalAll := totalAll + n;
      }
      i := i + 1;
    }
    assert ps[..i] == ps;
    result := Done(totalAll);
  }
}
