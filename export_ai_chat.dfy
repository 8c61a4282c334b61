/** bulk_export_ai_chat.py: export every chat session of the account to
    `abacus_ai_chat_exports/{stamp}__{name}__{id}.json` and `.html`. */
module AiChatExport {
  import opened Outcomes
  import opened PyText
  import opened Sanitize
  import opened Records
  import opened Render
  import opened Effects

  const OutDir := "abacus_ai_chat_exports"

  datatype RunResult = MissingApiKey | Raised | NoSessions | Done(reported: nat)

  /** `sanitize_filename(s.created_at or str(time.time()))`; None when it raises. */
  function Stamp(s: Session, clock: string): Option<string>
  {
    match OrElse(s.createdAt, clock)
    case Some(t) => Some(SanitizeMapOnly(t, ExportMaxLen))
    case None => None
  }

  /** `sanitize_filename(s.name or f"session_{sid}")`; None when it raises. */
  function DisplayName(s: Session): Option<string>
  {
    match OrElse(s.name, "session_" + s.id)
    case Some(t) => Some(SanitizeMapOnly(t, ExportMaxLen))
    case None => None
  }

  /** `f"{stamp}__{name}__{sid}"`, the id inserted as it is. */
  function BaseName(s: Session, clock: string): Option<string>
  {
    match (Stamp(s, clock), DisplayName(s))
    case (Some(stamp), Some(name)) => Some(stamp + "__" + name + "__" + s.id)
    case _ => None
  }

  /** `s.created_at or 'Unknown'` in the page header. */
  function CreatedShown(s: Session): string
  {
    match OrElse(s.createdAt, "Unknown")
    case Some(t) => t
    case None => "Unknown"
  }

  /** The fallback page; None when `get_chat_session` or the rendering raises. */
  function FallbackHtml(c: SessionCalls, name: string): Option<string>
  {
    match c.full
    case Err(_) => None
    case Ok(h) =>
      match ChatFallbackParts(name, c.session.id, CreatedShown(c.session), h)
      case Some(parts) => Some(Join(parts, "\n"))
      case None => None
  }

  function HtmlEffect(path: string, name: string, c: SessionCalls): Effect
  {
    match PrimaryHtml(c)
    case Some(html) => Write(path + ".html", html)
    case None =>
      match FallbackHtml(c, name)
      case Some(html) => Write(path + ".html", html)
      case None => Skip
  }

  /** One iteration of the session loop. Computing the names is outside every `try`. */
  function SessionEffect(c: SessionCalls): Effect
  {
    match (BaseName(c.session, c.clock), DisplayName(c.session))
    case (Some(base), Some(name)) =>
      var path := OutDir + "/" + base;
      Then(JsonEffect(path, c), HtmlEffect(path, name, c))
    case _ => Raise
  }

  /** `export_chat_sessions()` as a whole. */
  function RunEffect(apiKey: Option<string>, listing: Outcome<seq<SessionCalls>>): Effect
  {
    if !Truthy(apiKey) then Raise
    else Then(MakeDir(OutDir),
      match listing
      case Err(_) => Raise
      case Ok(cs) => ForEach(cs, SessionEffect))
  }

  function RunOutcome(apiKey: Option<string>, listing: Outcome<seq<SessionCalls>>): RunResult
  {
    if !Truthy(apiKey) then MissingApiKey
    else match listing
      case Err(_) => Raised
      case Ok(cs) =>
        if cs == [] then NoSessions
        else if ForEach(cs, SessionEffect).raised then Raised
        else Done(|cs|)
  }

  /** The base name ends with `"__" + sid`, and two sessions that share their name and
      creation attributes but differ in id never get the same base name, also when both
      fall back to `"session_" + sid`. */
  lemma {:induction false} BaseNamesDistinct(s1: Session, s2: Session, clock: string)
    requires s1.name == s2.name && s1.createdAt == s2.createdAt && s1.id != s2.id
    requires BaseName(s1, clock).Some? && BaseName(s2, clock).Some?
    ensures var b := BaseName(s1, clock).value;
      |b| >= |s1.id| + 2 && b[|b| - |s1.id| - 2..] == "__" + s1.id
    ensures BaseName(s1, clock) != BaseName(s2, clock)
  {
    var b1, b2 := BaseName(s1, clock).value, BaseName(s2, clock).value;
    var stamp := Stamp(s1, clock).value;
    var n1, n2 := DisplayName(s1).value, DisplayName(s2).value;
    assert b1 == (stamp + "__" + n1 + "__") + s1.id;
    assert b2 == (stamp + "__" + n2 + "__") + s2.id;
    assert b1[|b1| - |s1.id| - 2..] == "__" + s1.id;
    if OrElse(s1.name, "") != OrElse(s1.name, "x") {
      // Both fall back to "session_" + id: the base name grows with the id.
      MapOnlyCharwise("session_" + s1.id, ExportMaxLen);
      MapOnlyCharwise("session_" + s2.id, ExportMaxLen);
      if |s1.id| == |s2.id| {
        assert b1[|b1| - |s1.id|..] == s1.id;
        assert b2[|b2| - |s2.id|..] == s2.id;
      } else {
        assert |b1| != |b2|;
      }
    } else {
      // Both are named: the same name, so the ids tell the base names apart.
      assert n1 == n2;
      if |s1.id| == |s2.id| {
        assert b1[|b1| - |s1.id|..] == s1.id;
        assert b2[|b2| - |s2.id|..] == s2.id;
      } else {
        assert |b1| != |b2|;
      }
    }
  }

  /** The HTML step wrote a page for this session, by either path. */
  predicate HtmlWritten(c: SessionCalls)
  {
    PrimaryHtml(c).Some? ||
    (DisplayName(c.session).Some? && FallbackHtml(c, DisplayName(c.session).value).Some?)
  }

  function CountHtml(cs: seq<SessionCalls>): nat
  {
    if cs == [] then 0 else (if HtmlWritten(cs[0]) then 1 else 0) + CountHtml(cs[1..])
  }

  /** A session whose names can be computed never stops the loop: a failing JSON step or
      a failing HTML step is caught. It writes one `.json` file, and one `.html` file
      exactly when a page was obtained. */
  lemma SessionWrites(c: SessionCalls)
    requires BaseName(c.session, c.clock).Some?
    ensures !SessionEffect(c).raised && SessionEffect(c).dirs == []
    ensures var path := OutDir + "/" + BaseName(c.session, c.clock).value;
      |SessionEffect(c).writes| == (if HtmlWritten(c) then 2 else 1) &&
      SessionEffect(c).writes[0].path == path + ".json" &&
      (HtmlWritten(c) ==> SessionEffect(c).writes[1].path == path + ".html")
    ensures SessionEffect(c).writes[0].content == (if c.toDict.Ok? then c.toDict.value else "")
    ensures HtmlWritten(c) ==>
      SessionEffect(c).writes[1].content ==
        match c.exported
        case Ok(Str(t)) => t
        case Ok(Bytes(t)) => t
        case _ => Join(ChatFallbackParts(DisplayName(c.session).value, c.session.id, CreatedShown(c.session), c.full.value).value, "\n")
  {
  }

  /** When every session has a name and a creation attribute, the run ends normally, the
      final message reports `len(sessions)` whatever the export calls did, and the run
      writes one `.json` file per session plus one `.html` file per rendered page. */
  lemma {:induction false} RunReportsAllSessions(apiKey: Option<string>, cs: seq<SessionCalls>)
    requires Truthy(apiKey) && cs != []
    requires forall k :: 0 <= k < |cs| ==> cs[k].session.name != Absent && cs[k].session.createdAt != Absent
    ensures RunOutcome(apiKey, Ok(cs)) == Done(|cs|)
    ensures !RunEffect(apiKey, Ok(cs)).raised
    ensures RunEffect(apiKey, Ok(cs)).dirs == [OutDir]
    ensures |RunEffect(apiKey, Ok(cs)).writes| == |cs| + CountHtml(cs)
  {
    LoopWrites(cs);
  }

  lemma {:induction false} LoopWrites(cs: seq<SessionCalls>)
    requires forall k :: 0 <= k < |cs| ==> cs[k].session.name != Absent && cs[k].session.createdAt != Absent
    ensures !ForEach(cs, SessionEffect).raised && ForEach(cs, SessionEffect).dirs == []
    ensures |ForEach(cs, SessionEffect).writes| == |cs| + CountHtml(cs)
  {
    if cs != [] {
      assert cs[0].session.name != Absent && cs[0].session.createdAt != Absent;
      SessionWrites(cs[0]);
      assert forall k :: 0 <= k < |cs[1..]| ==> cs[1..][k] == cs[k + 1];
      LoopWrites(cs[1..]);
    }
  }

  /** A missing or empty `ABACUS_API_KEY` raises before any directory or file exists. */
  lemma MissingKeyTouchesNothing(apiKey: Option<string>, listing: Outcome<seq<SessionCalls>>)
    requires !Truthy(apiKey)
    ensures RunOutcome(apiKey, listing) == MissingApiKey
    ensures RunEffect(apiKey, listing).dirs == [] && RunEffect(apiKey, listing).writes == []
  {
  }

  /** One session: names, then JSON in its own `try`, then HTML with its fallback. */
  method ExportSession(fs: FileStore, c: SessionCalls) returns (raised: bool)
    modifies fs
    ensures Performed(old(fs.dirs), old(fs.files), fs.dirs, fs.files, SessionEffect(c))
    ensures raised == SessionEffect(c).raised
  {
    var s := c.session;
    var nameIn := OrElse(s.name, "session_" + s.id);
    if nameIn.None? {
      PerformedSkip(fs.dirs, fs.files);
      return true;
    }
    var name := SanitizeMapOnly(nameIn.value, ExportMaxLen);
    var stampIn := OrElse(s.createdAt, c.clock);
    if stampIn.None? {
      PerformedSkip(fs.dirs, fs.files);
      return true;
    }
    var stamp := SanitizeMapOnly(stampIn.value, ExportMaxLen);
    var base := stamp + "__" + name + "__" + s.id;
    var path := OutDir + "/" + base;
    assert DisplayName(s) == Some(name);
    assert BaseName(s, c.clock) == Some(base);
    ghost var d0, f0 := fs.dirs, fs.files;

    // 2a) raw JSON
    match c.toDict {
      case Ok(text) => fs.WriteText(path + ".json", text);
      case Err(_) => fs.WriteText(path + ".json", "");
    }
    ghost var d1, f1 := fs.dirs, fs.files;
    assert Performed(d0, f0, d1, f1, JsonEffect(path, c));

    // 2b) HTML: export endpoint, else fallback renderer
    var written := false;
    match c.exported {
      case Ok(Bytes(text)) =>
        fs.WriteText(path + ".html", text);
        written := true;
      case Ok(Str(text)) =>
        fs.WriteText(path + ".html", text);
        written := true;
      case _ =>
    }
    if !written {
      if c.full.Ok? {
        var html := RenderChatFallback(name, s.id, CreatedShown(s), c.full.value);
        if html.Some? {
          fs.WriteText(path + ".html", html.value);
        }
      }
    }
    assert Performed(d1, f1, fs.dirs, fs.files, HtmlEffect(path, name, c));
    PerformedThen(d0, f0, d1, f1, fs.dirs, fs.files, JsonEffect(path, c), HtmlEffect(path, name, c));
    assert SessionEffect(c) == Then(JsonEffect(path, c), HtmlEffect(path, name, c));
    raised := false;
  }

  method ExportChatSessions(fs: FileStore, apiKey: Option<string>, listing: Outcome<seq<SessionCalls>>)
    returns (result: RunResult)
    modifies fs
    ensures Performed(old(fs.dirs), old(fs.files), fs.dirs, fs.files, RunEffect(apiKey, listing))
    ensures result == RunOutcome(apiKey, listing)
  {
    if !Truthy(apiKey) {
      PerformedSkip(fs.dirs, fs.files);
      return MissingApiKey;
    }
    ghost var d0, f0 := fs.dirs, fs.files;
    fs.MakeDirs(OutDir);
    ghost var d1, f1 := fs.dirs, fs.files;
    if listing.Err? {
      PerformedThen(d0, f0, d1, f1, d1, f1, MakeDir(OutDir), Raise);
      return Raised;
    }
    var sessions := listing.value;
    var i := 0;
    while i < |sessions|
      invariant 0 <= i <= |sessions|
      invariant Performed(d1, f1, fs.dirs, fs.files, ForEach(sessions[..i], SessionEffect))
      invariant !ForEach(sessions[..i], SessionEffect).raised
    {
      ghost var dm, fm := fs.dirs, fs.files;
      var raised := ExportSession(fs, sessions[i]);
      ForEachPrefix(sessions, i, SessionEffect);
      PerformedThen(d1, f1, dm, fm, fs.dirs, fs.files, ForEach(sessions[..i], SessionEffect), SessionEffect(sessions[i]));
      if raised {
        ForEachStopsAtRaise(sessions, i + 1, SessionEffect);
        PerformedThen(d0, f0, d1, f1, fs.dirs, fs.files, MakeDir(OutDir), ForEach(sessions, SessionEffect));
        return Raised;
      }
      i := i + 1;
    }
    assert sessions[..i] == sessions;
    PerformedThen(d0, f0, d1, f1, fs.dirs, fs.files, MakeDir(OutDir), ForEach(sessions, SessionEffect));
    if sessions == [] {
      return NoSessions;
    }
    result := Done(|sessions|);
  }
}
