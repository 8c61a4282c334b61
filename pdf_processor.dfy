/** process_pdfs.py: upload every PDF to a deployment, ask three fixed prompts about it,
    and append one entry per PDF to `pdf_processing_logs/processing_activity.json`. */
module PdfProcessor {
  import opened Outcomes
  import opened PyText
  import opened Json

  // ---------------------------------------------------------------------------
  // Yes/no answers

  /** `answer.strip().lower() == 'n'`: the only answer that turns recursion off or cancels. */
  predicate SaysNo(answer: string)
  {
    Lower(Strip(answer)) == "n"
  }

  /** Only a lone `n` or `N`, with any surrounding whitespace, says no; the empty answer
      (the default) says yes. */
  lemma SaysNoIff(answer: string)
    ensures SaysNo(answer) <==> Strip(answer) == "n" || Strip(answer) == "N"
    ensures !SaysNo("")
  {
    var t := Strip(answer);
    if SaysNo(answer) {
      assert |t| == 1;
      assert Lower(t)[0] == LowerChar(t[0]);
      assert t == [t[0]];
    } else {
      assert Lower("n") == "n";
      assert Lower("N")[0] == 'n';
      assert Lower("N") == "n";
    }
    assert Strip("") == "";
    assert Lower("") == "";
  }

  /** What `main` does before the batch starts. */
  datatype Start = NoApiKey | NoDeploymentId | NoPdfs | Cancelled | Proceed(deploymentId: string)

  /** The checks of `main` in their order: the API key, the stripped deployment id, the
      PDF count, then the confirmation. */
  function StartDecision(apiKey: Option<string>, deploymentInput: string, pdfCount: nat, confirm: string): (s: Start)
    ensures s.Proceed? <==> Truthy(apiKey) && Strip(deploymentInput) != "" && pdfCount > 0 && !SaysNo(confirm)
    ensures s.Proceed? ==> s.deploymentId == Strip(deploymentInput)
    ensures s == Cancelled ==> Truthy(apiKey) && pdfCount > 0 && SaysNo(confirm)
    ensures !Truthy(apiKey) ==> s == NoApiKey
    ensures Truthy(apiKey) && Strip(deploymentInput) == "" ==> s == NoDeploymentId
    ensures Truthy(apiKey) && Strip(deploymentInput) != "" && pdfCount == 0 ==> s == NoPdfs
  {
    if !Truthy(apiKey) then NoApiKey
    else if Strip(deploymentInput) == "" then NoDeploymentId
    else if pdfCount == 0 then NoPdfs
    else if SaysNo(confirm) then Cancelled
    else Proceed(Strip(deploymentInput))
  }

  /** The log directory is created after the PDFs are found and before the confirmation,
      so a cancelled run leaves it behind. */
  predicate MakesLogDir(s: Start)
  {
    s.Cancelled? || s.Proceed?
  }

  /** The log directory exists once the key, the deployment id and the PDFs are there,
      whatever the confirmation says. */
  lemma LogDirBeforeConfirm(apiKey: Option<string>, deploymentInput: string, pdfCount: nat, confirm: string)
    ensures MakesLogDir(StartDecision(apiKey, deploymentInput, pdfCount, confirm)) <==>
      Truthy(apiKey) && Strip(deploymentInput) != "" && pdfCount > 0
  {
  }

  // ---------------------------------------------------------------------------
  // upload_document

  /** The dict `upload_document` returns; the call is given as its outcome (the
      `str()` of the SDK's response, or the exception's message). */
  function UploadResult(name: string, path: string, response: Outcome<string>): seq<(string, Json)>
  {
    match response
    case Ok(shown) =>
      [("status", JStr("success")), ("filename", JStr(name)), ("path", JStr(path)), ("upload_response", JStr(shown))]
    case Err(e) =>
      [("status", JStr("failed")), ("filename", JStr(name)), ("path", JStr(path)), ("error", JStr(e))]
  }

  /** `upload_document` never raises: its status says whether the upload succeeded, it
      always names the file and its path, and it has an `upload_response` exactly on
      success and an `error` exactly on failure. */
  lemma UploadResultFacts(name: string, path: string, response: Outcome<string>)
    ensures var r := UploadResult(name, path, response);
      Get(r, "status") == Some(JStr(if response.Ok? then "success" else "failed")) &&
      Get(r, "filename") == Some(JStr(name)) && Get(r, "path") == Some(JStr(path)) &&
      (Get(r, "upload_response").Some? <==> response.Ok?) &&
      (Get(r, "error").Some? <==> response.Err?)
  {
    var r := UploadResult(name, path, response);
    GetAt(r, 0, "status");
    GetAt(r, 1, "filename");
    GetAt(r, 2, "path");
    GetSome(r, "upload_response");
    GetSome(r, "error");
    assert Keys(r) == [r[0].0, r[1].0, r[2].0, r[3].0];
  }

  // ---------------------------------------------------------------------------
  // process_with_prompts

  const PromptKeys: seq<string> := ["summarize", "symbolic_logic", "cpp_examples"]

  const Prompts: seq<(string, string)> := [
    ("summarize", "Summarize this paper."),
    ("symbolic_logic", "Refactor the paper's core insights using symbolic logic."),
    ("cpp_examples", "Refactor the paper's core insights using C++ code examples.")]

  /** A reply of `create_deployment_conversation_message`: one with a `response`
      attribute, or any other object with its `str()`. */
  datatype Reply = HasResponse(response: Json) | NoResponse(shown: string)

  /** The outcomes of the three prompt messages, in prompt order. */
  datatype PromptAnswers = PromptAnswers(summarize: Outcome<Reply>, symbolicLogic: Outcome<Reply>, cppExamples: Outcome<Reply>)

  function Answer(a: PromptAnswers, k: nat): Outcome<Reply>
  {
    if k == 0 then a.summarize else if k == 1 then a.symbolicLogic else a.cppExamples
  }

  function ReplyText(r: Reply): Json
  {
    match r
    case HasResponse(v) => v
    case NoResponse(shown) => JStr(shown)
  }

  /** The record stored under a prompt's key. */
  function PromptEntry(text: string, answer: Outcome<Reply>): Json
  {
    match answer
    case Ok(r) => JObj([("prompt", JStr(text)), ("response", ReplyText(r)), ("status", JStr("success"))])
    case Err(e) => JObj([("prompt", JStr(text)), ("error", JStr(e)), ("status", JStr("failed"))])
  }

  /** Each prompt's record keeps the prompt text and its own status: the reply on success,
      the error message on failure. */
  lemma PromptEntryFacts(text: string, answer: Outcome<Reply>)
    ensures var e := PromptEntry(text, answer);
      e.JObj? && Get(e.members, "prompt") == Some(JStr(text)) &&
      Get(e.members, "status") == Some(JStr(if answer.Ok? then "success" else "failed")) &&
      (answer.Ok? ==> Get(e.members, "response") == Some(ReplyText(answer.value))) &&
      (answer.Err? ==> Get(e.members, "error") == Some(JStr(answer.message)))
  {
    var m := PromptEntry(text, answer).members;
    GetAt(m, 0, "prompt");
    GetAt(m, 1, m[1].0);
    GetAt(m, 2, "status");
  }

  /** `results` after the first `n` prompts have been sent. */
  function PromptResults(base: seq<(string, Json)>, a: PromptAnswers, n: nat): seq<(string, Json)>
    requires n <= |Prompts|
  {
    if n == 0 then base
    else Put(PromptResults(base, a, n - 1), Prompts[n - 1].0, PromptEntry(Prompts[n - 1].1, Answer(a, n - 1)))
  }

  /** The dict `process_with_prompts` returns. A conversation is created only when no id
      is passed; when that raises, no prompt is sent. */
  function ProcessResult(conversationId: Option<string>, create: Outcome<string>, a: PromptAnswers): seq<(string, Json)>
  {
    if Truthy(conversationId) then PromptResults([], a, |Prompts|)
    else match create
      case Err(e) => [("error", JStr(e)), ("status", JStr("failed"))]
      case Ok(id) => PromptResults([("conversation_id", JStr(id))], a, |Prompts|)
  }

  lemma {:induction false} PromptResultsKeys(base: seq<(string, Json)>, a: PromptAnswers, n: nat)
    requires n <= |Prompts|
    requires forall k :: 0 <= k < |PromptKeys| ==> PromptKeys[k] !in Keys(base)
    ensures Keys(PromptResults(base, a, n)) == Keys(base) + PromptKeys[..n]
  {
    if n > 0 {
      PromptResultsKeys(base, a, n - 1);
      var key := Prompts[n - 1].0;
      assert key == PromptKeys[n - 1];
      assert key !in PromptKeys[..n - 1];
      KeysPut(PromptResults(base, a, n - 1), key, PromptEntry(Prompts[n - 1].1, Answer(a, n - 1)));
      assert PromptKeys[..n] == PromptKeys[..n - 1] + [key];
    }
  }

  lemma {:induction false} PromptResultsGet(base: seq<(string, Json)>, a: PromptAnswers, n: nat, k: nat)
    requires k < n <= |Prompts|
    ensures Get(PromptResults(base, a, n), PromptKeys[k]) == Some(PromptEntry(Prompts[k].1, Answer(a, k)))
  {
    var prev := PromptResults(base, a, n - 1);
    GetPut(prev, Prompts[n - 1].0, PromptEntry(Prompts[n - 1].1, Answer(a, n - 1)), PromptKeys[k]);
    if k < n - 1 {
      PromptResultsGet(base, a, n - 1, k);
    }
  }

  lemma {:induction false} PromptResultsOther(base: seq<(string, Json)>, a: PromptAnswers, n: nat, key: string)
    requires n <= |Prompts| && key !in PromptKeys
    ensures Get(PromptResults(base, a, n), key) == Get(base, key)
  {
    if n > 0 {
      PromptResultsOther(base, a, n - 1, key);
      GetPut(PromptResults(base, a, n - 1), Prompts[n - 1].0, PromptEntry(Prompts[n - 1].1, Answer(a, n - 1)), key);
    }
  }

  /** When a conversation is available, the result holds the new conversation's id (only
      when one was created) and then one record per prompt, in the fixed order, whatever
      the individual prompts did; it has no top-level `status`. When creating the
      conversation raises, the result is exactly the error and a failed status. */
  lemma ProcessResultShape(conversationId: Option<string>, create: Outcome<string>, a: PromptAnswers)
    ensures var r := ProcessResult(conversationId, create, a);
      if !Truthy(conversationId) && create.Err? then
        r == [("error", JStr(create.message)), ("status", JStr("failed"))]
      else
        Keys(r) == (if Truthy(conversationId) then [] else ["conversation_id"]) + PromptKeys &&
        (!Truthy(conversationId) ==> Get(r, "conversation_id") == Some(JStr(create.value))) &&
        (forall k :: 0 <= k < |Prompts| ==> Get(r, PromptKeys[k]) == Some(PromptEntry(Prompts[k].1, Answer(a, k)))) &&
        Get(r, "status") == None
  {
    if Truthy(conversationId) || create.Ok? {
      var base: seq<(string, Json)> := if Truthy(conversationId) then [] else [("conversation_id", JStr(create.value))];
      assert Keys(base) == (if Truthy(conversationId) then [] else ["conversation_id"]);
      PromptResultsKeys(base, a, |Prompts|);
      assert PromptKeys[..|Prompts|] == PromptKeys;
      forall k | 0 <= k < |Prompts|
        ensures Get(PromptResults(base, a, |Prompts|), PromptKeys[k]) == Some(PromptEntry(Prompts[k].1, Answer(a, k)))
      {
        PromptResultsGet(base, a, |Prompts|, k);
      }
      PromptResultsOther(base, a, |Prompts|, "status");
      PromptResultsOther(base, a, |Prompts|, "conversation_id");
    }
  }

  /** `process_with_prompts`: a loop over the prompts that fills `results`. */
  method ProcessWithPrompts(conversationId: Option<string>, create: Outcome<string>, a: PromptAnswers)
    returns (results: seq<(string, Json)>)
    ensures results == ProcessResult(conversationId, create, a)
  {
    results := [];
    if !Truthy(conversationId) {
      match create {
        case Err(e) => return [("error", JStr(e)), ("status", JStr("failed"))];
        case Ok(id) => results := Put(results, "conversation_id", JStr(id));
      }
    }
    ghost var base := results;
    var i := 0;
    while i < |Prompts|
      invariant 0 <= i <= |Prompts|
      invariant results == PromptResults(base, a, i)
    {
      var (key, text) := Prompts[i];
      var entry;
      match Answer(a, i) {
        case Ok(reply) =>
          entry := JObj([("prompt", JStr(text)), ("response", ReplyText(reply)), ("status", JStr("success"))]);
        case Err(e) =>
          entry := JObj([("prompt", JStr(text)), ("error", JStr(e)), ("status", JStr("failed"))]);
      }
      results := Put(results, key, entry);
      i := i + 1;
    }
  }

  // ---------------------------------------------------------------------------
  // save_activity_log

  const ProcessedFiles := "processed_files"
  const LastUpdated := "last_updated"

  /** The log file before a save: missing, not valid JSON, or a parsed JSON value. */
  datatype LogState = NoLog | Corrupt | Log(value: Json)

  /** The members after appending `entry` and stamping the time; Err when the existing
      `processed_files` is not a list, whose `append` raises. */
  function AppendEntry(members: seq<(string, Json)>, entry: Json, now: string): Outcome<seq<(string, Json)>>
  {
    match Get(members, ProcessedFiles)
    case None => Ok(Put(Put(members, ProcessedFiles, JArr([entry])), LastUpdated, JStr(now)))
    case Some(JArr(items)) => Ok(Put(Put(members, ProcessedFiles, JArr(items + [entry])), LastUpdated, JStr(now)))
    case Some(_) => Err("AttributeError")
  }

  /** `save_activity_log(entry, ...)`: the log written back, or Err when loading, indexing
      or appending raises (nothing is written then). */
  function SaveLog(state: LogState, entry: Json, now: string): Outcome<Json>
  {
    match state
    case NoLog => Ok(JObj([(ProcessedFiles, JArr([entry])), (LastUpdated, JStr(now))]))
    case Corrupt => Err("JSONDecodeError")
    case Log(JObj(members)) =>
      (match AppendEntry(members, entry, now)
       case Ok(m) => Ok(JObj(m))
       case Err(e) => Err(e))
    case Log(_) => Err("TypeError")
  }

  /** A log a save accepts: missing, or an object whose `processed_files` is a list or absent. */
  predicate Appendable(state: LogState)
  {
    state.NoLog? ||
    (state.Log? && state.value.JObj? &&
     (Get(state.value.members, ProcessedFiles).None? || Get(state.value.members, ProcessedFiles).value.JArr?))
  }

  /** The entries logged so far. */
  function LoggedEntries(state: LogState): seq<Json>
  {
    if state.Log? && state.value.JObj? then
      match Get(state.value.members, ProcessedFiles)
      case Some(JArr(items)) => items
      case _ => []
    else []
  }

  /** A save appends exactly the new entry to `processed_files` (which starts empty when the
      file or the key is missing), overwrites `last_updated`, keeps every other key and
      its value, and leaves an appendable log. Anything else raises. */
  lemma SaveLogAppends(state: LogState, entry: Json, now: string)
    ensures SaveLog(state, entry, now).Ok? <==> Appendable(state)
    ensures SaveLog(state, entry, now).Ok? ==>
      var after := Log(SaveLog(state, entry, now).value);
      Appendable(after) &&
      LoggedEntries(after) == LoggedEntries(state) + [entry] &&
      Get(after.value.members, LastUpdated) == Some(JStr(now)) &&
      (state.Log? ==> forall key :: key != ProcessedFiles && key != LastUpdated ==>
         Get(after.value.members, key) == Get(state.value.members, key))
  {
    if state.Log? && state.value.JObj? && Appendable(state) {
      var m := state.value.members;
      var items := if Get(m, ProcessedFiles).Some? then Get(m, ProcessedFiles).value.items else [];
      var m1 := Put(m, ProcessedFiles, JArr(items + [entry]));
      if Get(m, ProcessedFiles).None? {
        assert [entry] == items + [entry];
      }
      assert AppendEntry(m, entry, now) == Ok(Put(m1, LastUpdated, JStr(now)));
      GetPut(m, ProcessedFiles, JArr(items + [entry]), LastUpdated);
      GetPut(m1, LastUpdated, JStr(now), ProcessedFiles);
      forall key | key != ProcessedFiles && key != LastUpdated
        ensures Get(Put(m1, LastUpdated, JStr(now)), key) == Get(m, key)
      {
        GetPut(m, ProcessedFiles, JArr(items + [entry]), key);
        GetPut(m1, LastUpdated, JStr(now), key);
      }
    }
  }

  /** A log read from a dict with distinct keys is written back as one. */
  lemma SaveLogKeepsDistinct(state: LogState, entry: Json, now: string)
    requires state.Log? && state.value.JObj? ==> DistinctKeys(state.value.members)
    ensures SaveLog(state, entry, now).Ok? && SaveLog(state, entry, now).value.JObj? ==>
      DistinctKeys(SaveLog(state, entry, now).value.members)
  {
    if state.Log? && state.value.JObj? {
      var m := state.value.members;
      var items := if Get(m, ProcessedFiles).Some? && Get(m, ProcessedFiles).value.JArr? then Get(m, ProcessedFiles).value.items else [];
      PutDistinct(m, ProcessedFiles, JArr(items + [entry]));
      PutDistinct(Put(m, ProcessedFiles, JArr(items + [entry])), LastUpdated, JStr(now));
      if Get(m, ProcessedFiles).None? {
        assert [entry] == items + [entry];
      }
    } else if state.NoLog? {
      assert Keys([(ProcessedFiles, JArr([entry])), (LastUpdated, JStr(now))]) == [ProcessedFiles, LastUpdated];
    }
  }

  /** The log file as the batch sees it. */
  class LogStore {
    var state: LogState

    constructor (initial: LogState)
      ensures state == initial
    {
      state := initial;
    }

    /** `save_activity_log`: the file is rewritten only when the append succeeded. */
    method Save(entry: Json, now: string) returns (raised: bool)
      modifies this
      ensures raised == SaveLog(old(state), entry, now).Err?
      ensures state == (if raised then old(state) else Log(SaveLog(old(state), entry, now).value))
    {
      var r := SaveLog(state, entry, now);
      if r.Err? {
        return true;
      }
      state := Log(r.value);
      raised := false;
    }
  }

  // ---------------------------------------------------------------------------
  // The batch loop of main

  /** Everything the batch learns about one PDF: its name and path, the clock readings for
      the entry's `timestamp` and the log's `last_updated`, and the SDK's answers. */
  datatype PdfCalls = PdfCalls(
    name: string,
    path: string,
    clock: string,
    savedAt: string,
    upload: Outcome<string>,
    create: Outcome<string>,
    answers: PromptAnswers)

  /** The processing result `main` gets: `process_with_prompts` without a conversation id. */
  function Processing(p: PdfCalls): seq<(string, Json)>
  {
    ProcessResult(None, p.create, p.answers)
  }

  /** `overall_status`: decided by the upload's status, then by the processing result's
      top-level `status` alone. */
  function OverallStatus(p: PdfCalls): string
  {
    if Get(UploadResult(p.name, p.path, p.upload), "status") == Some(JStr("success")) then
      (if Get(Processing(p), "status") != Some(JStr("failed")) then "success" else "failed")
    else "upload_failed"
  }

  /** The log entry for the `idx`-th (1-based) of `total` PDFs. */
  function LogEntry(deploymentId: string, idx: nat, total: nat, p: PdfCalls): Json
  {
    var head := [
      ("timestamp", JStr(p.clock)),
      ("file_number", JInt(idx)),
      ("total_files", JInt(total)),
      ("pdf_path", JStr(p.path)),
      ("pdf_name", JStr(p.name)),
      ("deployment_id", JStr(deploymentId)),
      ("upload", JObj(UploadResult(p.name, p.path, p.upload)))];
    if p.upload.Ok? then
      JObj(head + [("processing", JObj(Processing(p))), ("overall_status", JStr(OverallStatus(p)))])
    else
      JObj(head + [("overall_status", JStr(OverallStatus(p)))])
  }

  /** A failed upload, and only that, gives `upload_failed`; after a successful upload
      the PDF fails only when creating the conversation fails, and succeeds even when every
      prompt failed. */
  lemma OverallStatusRule(p: PdfCalls)
    ensures OverallStatus(p) in {"success", "failed", "upload_failed"}
    ensures OverallStatus(p) == "upload_failed" <==> p.upload.Err?
    ensures OverallStatus(p) == "success" <==> p.upload.Ok? && p.create.Ok?
  {
    UploadResultFacts(p.name, p.path, p.upload);
    ProcessResultShape(None, p.create, p.answers);
    if p.create.Err? {
      GetAt(Processing(p), 1, "status");
    }
  }

  /** The entry holds a `processing` record iff the upload succeeded: after a failed
      upload no conversation is created and no prompt is sent. */
  lemma EntryProcessingIffUploaded(deploymentId: string, idx: nat, total: nat, p: PdfCalls)
    ensures LogEntry(deploymentId, idx, total, p).JObj?
    ensures Get(LogEntry(deploymentId, idx, total, p).members, "processing").None? <==> p.upload.Err?
    ensures p.upload.Ok? ==>
      Get(LogEntry(deploymentId, idx, total, p).members, "processing") == Some(JObj(Processing(p)))
  {
    var m := LogEntry(deploymentId, idx, total, p).members;
    var head, tail := m[..7], m[7..];
    assert m == head + tail;
    assert forall i :: 0 <= i < |head| ==> Keys(head)[i] != "processing" by {
      forall i | 0 <= i < |head| ensures Keys(head)[i] != "processing" {
        assert Keys(head)[i] == m[i].0;
      }
    }
    GetAppend(head, tail, "processing");
    if p.upload.Ok? {
      assert tail == [("processing", JObj(Processing(p))), ("overall_status", JStr(OverallStatus(p)))];
    } else {
      assert tail == [("overall_status", JStr(OverallStatus(p)))];
    }
  }

  function Entries(deploymentId: string, pdfs: seq<PdfCalls>): (es: seq<(Json, string)>)
    ensures |es| == |pdfs|
  {
    seq(|pdfs|, k requires 0 <= k < |pdfs| => (LogEntry(deploymentId, k + 1, |pdfs|, pdfs[k]), pdfs[k].savedAt))
  }

  /** Saving `items` in order, stopping at the first save that raises: the final log and
      whether a save raised. */
  function SaveAll(state: LogState, items: seq<(Json, string)>): (LogState, bool)
    decreases |items|
  {
    if items == [] then (state, false)
    else match SaveLog(state, items[0].0, items[0].1)
      case Err(_) => (state, true)
      case Ok(j) => SaveAll(Log(j), items[1..])
  }

  function CountSuccessful(pdfs: seq<PdfCalls>): nat
  {
    if pdfs == [] then 0 else (if OverallStatus(pdfs[0]) == "success" then 1 else 0) + CountSuccessful(pdfs[1..])
  }

  lemma {:induction false} CountSuccessfulPrefix(pdfs: seq<PdfCalls>, i: nat)
    requires i < |pdfs|
    ensures CountSuccessful(pdfs[..i + 1]) == CountSuccessful(pdfs[..i]) + (if OverallStatus(pdfs[i]) == "success" then 1 else 0)
  {
    if i == 0 {
      assert pdfs[..1][1..] == [];
    } else {
      assert pdfs[..i + 1][1..] == pdfs[1..][..i];
      assert pdfs[..i][1..] == pdfs[1..][..i - 1];
      CountSuccessfulPrefix(pdfs[1..], i - 1);
    }
  }

  /** Starting from an appendable log, every save succeeds and `processed_files` ends with
      the entries of this run, one per PDF, in order. */
  lemma {:induction false} SaveAllAppends(state: LogState, items: seq<(Json, string)>)
    requires Appendable(state)
    decreases |items|
    ensures !SaveAll(state, items).1 && Appendable(SaveAll(state, items).0)
    ensures LoggedEntries(SaveAll(state, items).0) ==
      LoggedEntries(state) + seq(|items|, k requires 0 <= k < |items| => items[k].0)
  {
    if items != [] {
      var saved := SaveLog(state, items[0].0, items[0].1);
      SaveLogAppends(state, items[0].0, items[0].1);
      var next := Log(saved.value);
      assert SaveAll(state, items) == SaveAll(next, items[1..]);
      SaveAllAppends(next, items[1..]);
      var all := seq(|items|, k requires 0 <= k < |items| => items[k].0);
      var rest := seq(|items[1..]|, k requires 0 <= k < |items[1..]| => items[1..][k].0);
      assert all == [items[0].0] + rest;
      assert LoggedEntries(next) == LoggedEntries(state) + [items[0].0];
    }
  }

  /** The entries of a run carry `file_number` 1..n and `total_files` n, in PDF order. */
  lemma EntriesNumbered(deploymentId: string, pdfs: seq<PdfCalls>, k: nat)
    requires k < |pdfs|
    ensures var e := Entries(deploymentId, pdfs)[k].0;
      e.JObj? && Get(e.members, "file_number") == Some(JInt(k + 1)) &&
      Get(e.members, "total_files") == Some(JInt(|pdfs|)) &&
      Get(e.members, "pdf_name") == Some(JStr(pdfs[k].name)) &&
      Get(e.members, "overall_status") == Some(JStr(OverallStatus(pdfs[k])))
  {
    var m := Entries(deploymentId, pdfs)[k].0.members;
    GetAt(m, 1, "file_number");
    GetAt(m, 2, "total_files");
    GetAt(m, 4, "pdf_name");
    GetAt(m, |m| - 1, "overall_status");
  }

  /** A run that starts from an appendable log saves every PDF's entry, and
      `processed_files` ends with one entry per PDF in PDF order, numbered 1..n. */
  lemma BatchLogsEveryPdf(state: LogState, deploymentId: string, pdfs: seq<PdfCalls>)
    requires Appendable(state)
    ensures var (after, raised) := SaveAll(state, Entries(deploymentId, pdfs));
      !raised &&
      LoggedEntries(after) ==
        LoggedEntries(state) + seq(|pdfs|, k requires 0 <= k < |pdfs| => LogEntry(deploymentId, k + 1, |pdfs|, pdfs[k]))
  {
    var items := Entries(deploymentId, pdfs);
    SaveAllAppends(state, items);
    assert seq(|items|, k requires 0 <= k < |items| => items[k].0) ==
      seq(|pdfs|, k requires 0 <= k < |pdfs| => LogEntry(deploymentId, k + 1, |pdfs|, pdfs[k]));
  }

  /** One iteration of the batch loop up to the save: the log entry, and whether the PDF
      counts as successful. */
  method BuildEntry(deploymentId: string, idx: nat, total: nat, p: PdfCalls) returns (entry: Json, success: bool)
    ensures entry == LogEntry(deploymentId, idx, total, p)
    ensures success <==> OverallStatus(p) == "success"
  {
    var upload := UploadResult(p.name, p.path, p.upload);
    var members := [
      ("timestamp", JStr(p.clock)),
      ("file_number", JInt(idx)),
      ("total_files", JInt(total)),
      ("pdf_path", JStr(p.path)),
      ("pdf_name", JStr(p.name)),
      ("deployment_id", JStr(deploymentId)),
      ("upload", JObj(upload))];
    UploadResultFacts(p.name, p.path, p.upload);
    if Get(upload, "status") == Some(JStr("success")) {
      var processing := ProcessWithPrompts(None, p.create, p.answers);
      members := members + [("processing", JObj(processing))];
      success := Get(processing, "status") != Some(JStr("failed"));
      members := members + [("overall_status", JStr(if success then "success" else "failed"))];
      assert members == LogEntry(deploymentId, idx, total, p).members;
    } else {
      success := false;
      members := members + [("overall_status", JStr("upload_failed"))];
    }
    entry := JObj(members);
  }

  /** The loop over the PDFs with its `successful` and `failed` counters and one log save
      per PDF; a save that raises ends `main`. */
  method ProcessBatch(store: LogStore, deploymentId: string, pdfs: seq<PdfCalls>)
    returns (successful: nat, failed: nat, raised: bool)
    modifies store
    ensures (store.state, raised) == SaveAll(old(store.state), Entries(deploymentId, pdfs))
    ensures !raised ==> successful == CountSuccessful(pdfs) && successful + failed == |pdfs|
  {
    ghost var items := Entries(deploymentId, pdfs);
    ghost var start := store.state;
    successful, failed := 0, 0;
    var i := 0;
    while i < |pdfs|
      invariant 0 <= i <= |pdfs|
      invariant SaveAll(start, items) == SaveAll(store.state, items[i..])
      invariant successful == CountSuccessful(pdfs[..i]) && successful + failed == i
    {
      var entry, success := BuildEntry(deploymentId, i + 1, |pdfs|, pdfs[i]);
      if success {
        successful := successful + 1;
      } else {
        failed := failed + 1;
      }
      CountSuccessfulPrefix(pdfs, i);
      assert items[i..][0] == (entry, pdfs[i].savedAt) && items[i..][1..] == items[i + 1..];
      var r := store.Save(entry, pdfs[i].savedAt);
      if r {
        return successful, failed, true;
      }
      i := i + 1;
    }
    assert pdfs[..i] == pdfs;
    raised := false;
  }
}
