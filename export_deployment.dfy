/** bulk_export_deployment_convos.py: export every conversation of the deployment named
    by `DEPLOYMENT_ID` to `abacus_deployment_{DEPLOYMENT_ID}_exports/{stamp}__{name}__{cid}.html`. */
module DeploymentExport {
  import opened Outcomes
  import opened PyText
  import opened Sanitize
  import opened Records
  import opened Render
  import opened Effects

  datatype RunResult = MissingApiKey | MissingDeploymentId | Raised | NoConversations | Done(reported: nat)

  function OutDir(deploymentId: string): string
  {
    "abacus_deployment_" + deploymentId + "_exports"
  }

  /** `sanitize_filename(x or fallback)` of this script; None when `x` is missing. */
  function CleanOr(a: Attr, fallback: string): Option<string>
  {
    match OrElse(a, fallback)
    case Some(t) => Some(SanitizeMapOnly(t, ExportMaxLen))
    case None => None
  }

  /** The file name `f"{stamp}__{name}__{cid}.html"`; computing it is outside the `try`. */
  function FileName(c: ConvoCalls): Option<string>
  {
    match (CleanOr(c.convo.createdAt, c.clock), CleanOr(c.convo.name, "convo_" + c.convo.id))
    case (Some(stamp), Some(name)) => Some(stamp + "__" + name + "__" + c.convo.id + ".html")
    case _ => None
  }

  /** One conversation: a failing export is caught and writes nothing; an empty export is
      replaced by the placeholder page. */
  function ConvoEffect(dir: string, c: ConvoCalls): Effect
  {
    match FileName(c)
    case None => Raise
    case Some(file) =>
      Catch(match c.exported
            case Err(_) => Raise
            case Ok(html) => Write(dir + "/" + file, DeploymentPage(html, c.convo.id)))
  }

  function ConvoStep(dir: string): ConvoCalls -> Effect
  {
    c => ConvoEffect(dir, c)
  }

  function RunEffect(apiKey: Option<string>, deploymentId: Option<string>, listing: Outcome<seq<ConvoCalls>>): Effect
  {
    if !Truthy(apiKey) || !Truthy(deploymentId) then Raise
    else
      var dir := OutDir(deploymentId.value);
      Then(MakeDir(dir),
        match listing
        case Err(_) => Raise
        case Ok(cs) => ForEach(cs, ConvoStep(dir)))
  }

  function RunOutcome(apiKey: Option<string>, deploymentId: Option<string>, listing: Outcome<seq<ConvoCalls>>): RunResult
  {
    if !Truthy(apiKey) then MissingApiKey
    else if !Truthy(deploymentId) then MissingDeploymentId
    else match listing
      case Err(_) => Raised
      case Ok(cs) =>
        if cs == [] then NoConversations
        else if ForEach(cs, ConvoStep(OutDir(deploymentId.value))).raised then Raised
        else Done(|cs|)
  }

  /** The API key is checked first, then the deployment id, both before anything is created. */
  lemma ConfigurationChecks(apiKey: Option<string>, deploymentId: Option<string>, listing: Outcome<seq<ConvoCalls>>)
    ensures !Truthy(apiKey) ==> RunOutcome(apiKey, deploymentId, listing) == MissingApiKey
    ensures Truthy(apiKey) && !Truthy(deploymentId) ==>
      RunOutcome(apiKey, deploymentId, listing) == MissingDeploymentId
    ensures !Truthy(apiKey) || !Truthy(deploymentId) ==>
      RunEffect(apiKey, deploymentId, listing).dirs == [] && RunEffect(apiKey, deploymentId, listing).writes == []
  {
  }

  /** A conversation with a creation attribute and a name never stops the loop; it writes
      exactly one page when the export call succeeds, the export's own page when it is
      non-empty and otherwise a placeholder naming the conversation, never an empty file. */
  lemma ConvoWrites(dir: string, c: ConvoCalls)
    requires c.convo.createdAt != Absent && c.convo.name != Absent
    ensures FileName(c).Some? && !ConvoEffect(dir, c).raised && ConvoEffect(dir, c).dirs == []
    ensures c.exported.Err? ==> ConvoEffect(dir, c).writes == []
    ensures c.exported.Ok? ==>
      ConvoEffect(dir, c).writes == [FileWrite(dir + "/" + FileName(c).value, DeploymentPage(c.exported.value, c.convo.id))]
    ensures forall w :: w in ConvoEffect(dir, c).writes ==> w.content != ""
  {
    if c.exported.Ok? {
      DeploymentPageFacts(c.exported.value, c.convo.id);
    }
  }

  function CountExported(cs: seq<ConvoCalls>): nat
  {
    if cs == [] then 0 else (if cs[0].exported.Ok? then 1 else 0) + CountExported(cs[1..])
  }

  lemma {:induction false} LoopWrites(dir: string, cs: seq<ConvoCalls>)
    requires forall k :: 0 <= k < |cs| ==> cs[k].convo.createdAt != Absent && cs[k].convo.name != Absent
    ensures !ForEach(cs, ConvoStep(dir)).raised && ForEach(cs, ConvoStep(dir)).dirs == []
    ensures |ForEach(cs, ConvoStep(dir)).writes| == CountExported(cs)
    ensures forall w :: w in ForEach(cs, ConvoStep(dir)).writes ==> w.content != ""
  {
    if cs != [] {
      ConvoWrites(dir, cs[0]);
      assert forall k :: 0 <= k < |cs[1..]| ==> cs[1..][k] == cs[k + 1];
      LoopWrites(dir, cs[1..]);
    }
  }

  /** When every conversation has a creation attribute and a name, the run ends normally,
      reports `len(convos)` however many exports failed, and writes one non-empty page per
      successful export. */
  lemma RunReportsAllConversations(apiKey: Option<string>, deploymentId: Option<string>, cs: seq<ConvoCalls>)
    requires Truthy(apiKey) && Truthy(deploymentId) && cs != []
    requires forall k :: 0 <= k < |cs| ==> cs[k].convo.createdAt != Absent && cs[k].convo.name != Absent
    ensures RunOutcome(apiKey, deploymentId, Ok(cs)) == Done(|cs|)
    ensures RunEffect(apiKey, deploymentId, Ok(cs)).dirs == [OutDir(deploymentId.value)]
    ensures |RunEffect(apiKey, deploymentId, Ok(cs)).writes| == CountExported(cs)
    ensures forall w :: w in RunEffect(apiKey, deploymentId, Ok(cs)).writes ==> w.content != ""
  {
    LoopWrites(OutDir(deploymentId.value), cs);
  }

  method ExportConvo(fs: FileStore, dir: string, c: ConvoCalls) returns (raised: bool)
    modifies fs
    ensures Performed(old(fs.dirs), old(fs.files), fs.dirs, fs.files, ConvoEffect(dir, c))
    ensures raised == ConvoEffect(dir, c).raised
  {
    var stamp := OrElse(c.convo.createdAt, c.clock);
    var name := OrElse(c.convo.name, "convo_" + c.convo.id);
    if stamp.None? || name.None? {
      PerformedSkip(fs.dirs, fs.files);
      return true;
    }
    var file := SanitizeMapOnly(stamp.value, ExportMaxLen) + "__" + SanitizeMapOnly(name.value, ExportMaxLen)
      + "__" + c.convo.id + ".html";
    assert FileName(c) == Some(file);
    match c.exported {
      case Err(_) =>
        PerformedSkip(fs.dirs, fs.files);
      case Ok(html) =>
        var page := if Truthy(html) then html.value else EmptyExportPage(c.convo.id);
        fs.WriteText(dir + "/" + file, page);
    }
    raised := false;
  }

  /** `export_deployment_conversations()`. */
  method ExportDeploymentConversations(fs: FileStore, apiKey: Option<string>, deploymentId: Option<string>,
                                       listing: Outcome<seq<ConvoCalls>>) returns (result: RunResult)
    modifies fs
    ensures Performed(old(fs.dirs), old(fs.files), fs.dirs, fs.files, RunEffect(apiKey, deploymentId, listing))
    ensures result == RunOutcome(apiKey, deploymentId, listing)
  {
    if !Truthy(apiKey) {
      PerformedSkip(fs.dirs, fs.files);
      return MissingApiKey;
    }
    if !Truthy(deploymentId) {
      PerformedSkip(fs.dirs, fs.files);
      return MissingDeploymentId;
    }
    var dir := OutDir(deploymentId.value);
    ghost var d0, f0 := fs.dirs, fs.files;
    fs.MakeDirs(dir);
    ghost var d1, f1 := fs.dirs, fs.files;
    if listing.Err? {
      PerformedThen(d0, f0, d1, f1, d1, f1, MakeDir(dir), Raise);
      return Raised;
    }
    var convos := listing.value;
    if convos == [] {
      PerformedThen(d0, f0, d1, f1, d1, f1, MakeDir(dir), Skip);
      return NoConversations;
    }
    var i := 0;
    while i < |convos|
      invariant 0 <= i <= |convos|
      invariant Performed(d1, f1, fs.dirs, fs.files, ForEach(convos[..i], ConvoStep(dir)))
      invariant !ForEach(convos[..i], ConvoStep(dir)).raised
    {
      ghost var dm, fm := fs.dirs, fs.files;
      var r := ExportConvo(fs, dir, convos[i]);
      ForEachStep(d1, f1, dm, fm, fs.dirs, fs.files, convos, i, ConvoStep(dir));
      if r {
        PerformedThen(d0, f0, d1, f1, fs.dirs, fs.files, MakeDir(dir), ForEach(convos, ConvoStep(dir)));
        return Raised;
      }
      i := i + 1;
    }
    assert convos[..i] == convos;
    PerformedThen(d0, f0, d1, f1, fs.dirs, fs.files, MakeDir(dir), ForEach(convos, ConvoStep(dir)));
    result := Done(|convos|);
  }
}
