# Abacus.AI chat exporter, modelled in Dafny

This project models the scripts of the Abacus.AI chat exporter. They list chat sessions,
deployment conversations and projects through the vendor SDK and write each of them as an
HTML page, and for chat sessions also as a JSON file. They also hold a PDF batch processor
that uploads PDFs, asks three fixed prompts and keeps a cumulative JSON activity log, and
a search script that looks a chat up by id or name.

The copies under `scripts/` are byte-identical to the scripts at the top of the
repository. The model follows the top-level copies and cites them as the source.

Modules:

- `Outcomes`: `Option` and `Outcome` (a value, or the message of an exception).
- `PyText`:
  - SDK attributes as `Absent | Null | Text(s)`;
  - `x or d`, `getattr(o, a, d)` and `str(getattr(...))`;
  - `in` on strings, ASCII `lower()`/`upper()`, `strip()` and `"sep".join`.
- `Sanitize`: the two `sanitize_filename` variants. The map-only one replaces `/`, space
  and `:`. The map-and-delete one also removes parentheses.
- `Effects`: an algebra of what a piece of a script does, with the file store it does it to.
  - An `Effect` holds the directories it creates, its file writes in order, the items it
    counts and whether it raised.
  - `Then` is statement sequencing. `Catch` is `try`/`except: print`. `ForEach` is a `for`
    loop that an uncaught exception leaves.
  - `FileStore` is a class whose `dirs` set and `files` map change in place.
  - `Performed` ties a state change to an `Effect`.
- `Records`: the SDK records the scripts read, and the answers of the SDK calls they make.
- `Render`: the two local fallback HTML renderers and the placeholder pages for empty
  exports.
- `AiChatExport`: `bulk_export_ai_chat.py`.
- `ProjectExport`: `bulk_export_all_projects.py`.
- `DeploymentExport`: `bulk_export_deployment_convos.py`.
- `AllDeploymentsExport`: `bulk_export_all_deployment_conversations.py`.
- `Json` and `PdfProcessor`: `process_pdfs.py`. A JSON object is a sequence of members in
  insertion order, as a Python dict is.
- `Search`: `search_for_chat` of `search_chat.py`.

Each driver is modelled twice:

- as a specification function that mirrors the script's `try`/`except` nesting and returns
  an `Effect`;
- as an imperative method with the script's loops, over a `FileStore`.

The method is proved to perform exactly that `Effect` and to return what the script
returns or prints as its total.

The properties are proved as lemmas about the specification functions. They cover:

- how the counters relate to the pages written;
- which failures are caught, and where;
- the file names and directory layout;
- the log contents.

The SDK is not modelled. Each call it makes is an input: either the value it returns or
an exception. Clock readings are inputs too.

## Model

| member | source | states |
|---|---|---|
| Sanitize.MapOnlyCharwise | bulk_export_ai_chat.py:33-35 | the map-only sanitizer keeps `min(len, max_len)` characters; `/` and space become `_`, `:` becomes `-`, every other character is kept |
| Sanitize.MapOnlyClean | bulk_export_ai_chat.py:33-35 | the map-only result holds no `/`, space or `:` |
| Sanitize.MapOnlyIdempotent | bulk_export_ai_chat.py:33-35 | sanitizing twice with the same bound equals sanitizing once |
| Sanitize.ReplaceSeparatorsIsMap | bulk_export_ai_chat.py:35 | the chain of three `replace` calls is one per-character map |
| Sanitize.DeleteParensIsDrop | bulk_export_all_projects.py:22 | the two `replace(..., "")` calls remove exactly the parentheses |
| Sanitize.StripParensIsFilterOfMap | bulk_export_all_projects.py:20-22 | the map-and-delete sanitizer is truncation after dropping parentheses after the character map |
| Sanitize.StripParensLength | bulk_export_all_projects.py:20-22 | the map-and-delete result has length `min(len - number of parentheses, max_len)` |
| Sanitize.StripParensClean | bulk_export_all_projects.py:20-22 | the map-and-delete result holds none of `/`, space, `:`, `(`, `)` |
| Sanitize.StripParensIdempotent | bulk_export_all_projects.py:20-22 | the map-and-delete sanitizer is idempotent for a fixed bound |
| PyText.ContainsIff | search_chat.py:52 | Python's substring test holds iff the needle occurs at some index |
| Effects.ForEachStopsAtRaise | bulk_export_ai_chat.py:67-152 | once an iteration raises out of a loop, no later item is visited |
| Effects.ForEachNoRaise | bulk_export_ai_chat.py:67-152 | a loop whose body never raises does not raise, and writes the sum of the bodies' writes |
| Effects.ApplyWritesLast | bulk_export_ai_chat.py:76-96 | after a sequence of `open(p, "w")` writes, a path holds the content of the last write to it, whatever later writes go to other paths, or its old content if no write touches it |
| Effects.FileStore.MakeDirs | bulk_export_ai_chat.py:44-45 | `mkdir(parents=True, exist_ok=True)` adds the directory and leaves the files unchanged |
| Effects.FileStore.WriteText | bulk_export_ai_chat.py:90-91 | `open(path, "w").write(content)` replaces the file at `path` and nothing else |
| Render.ChatMessagePartsShape | bulk_export_ai_chat.py:125-141 | a message renders as `<h3>` with the upper-cased `role or "user"`, `<pre>` with its text, then `<hr/>`; it fails iff its role attribute is missing or its text list holds a None |
| Render.ChatFallbackLayout | bulk_export_ai_chat.py:108-143 | the page body is exactly three parts per message, in message order; the page renders iff every message does |
| Render.ChatFallbackNullHistory | bulk_export_ai_chat.py:106 | a `chat_history` of None renders the header and the closing tag only |
| Render.ChatListText | bulk_export_ai_chat.py:128-135 | a list-valued text is the items joined by newlines, dicts giving their `text` entry or `""`, other items their `str` |
| Render.RenderChatFallback | bulk_export_ai_chat.py:104-146 | the appending loop yields the page `"\n".join(html_parts)` of the fallback layout, or fails exactly when that layout does |
| Render.ProjectFallbackLayout | bulk_export_all_projects.py:86-104 | the all-projects fallback has one part per message, in order, with the message's role and `str(text)`; it renders iff no role is None |
| Render.ProjectFallbackNullHistoryFails | bulk_export_all_projects.py:87-99 | a `chat_history` of None makes the fallback raise |
| Render.RenderProjectFallback | bulk_export_all_projects.py:86-107 | the appending loop yields the joined page of the layout above, or fails exactly when that layout does |
| Render.DeploymentPageFacts | bulk_export_deployment_convos.py:70-78 | the page written is the export when non-empty, otherwise a placeholder containing the conversation id; it is never empty |
| AiChatExport.BaseNamesDistinct | bulk_export_ai_chat.py:68-71 | the base name ends with `"__" + sid`; two sessions with the same name and creation attributes but different ids get different base names |
| AiChatExport.SessionWrites | bulk_export_ai_chat.py:67-152 | a session whose names can be computed never stops the loop; it writes the `.json` file with `to_dict()`'s text (empty when it fails), then the `.html` file exactly when a page was obtained: a str response as it is, a bytes response decoded, otherwise the fallback renderer's joined page |
| AiChatExport.RunReportsAllSessions | bulk_export_ai_chat.py:59-154 | with a key and named sessions, the run ends normally and reports `len(sessions)`; it creates the output directory and writes one JSON file per session plus one HTML file per page obtained |
| AiChatExport.MissingKeyTouchesNothing | bulk_export_ai_chat.py:40-42 | a missing or empty API key raises before anything is created |
| AiChatExport.ExportSession | bulk_export_ai_chat.py:67-151 | one iteration performs exactly the session's effect: JSON in its own `try`, then the export endpoint with the fallback renderer |
| AiChatExport.ExportChatSessions | bulk_export_ai_chat.py:38-155 | the script performs exactly the run's effect and returns its outcome |
| ProjectExport.ChatSessionCounted | bulk_export_all_projects.py:53-111 | in a CHAT_LLM session the counter is raised exactly once per `.html` write; the session raises iff a name cannot be computed, and otherwise writes the `.json` file, then the export endpoint's page (str as it is, bytes decoded) or the fallback's joined page, or no page when both fail |
| ProjectExport.ConvoCounted | bulk_export_all_projects.py:142-156 | an agent conversation counts exactly the page it writes |
| ProjectExport.ProjectCounted | bulk_export_all_projects.py:25-175 | `export_project_chats` returns exactly the number of `.html` writes it made (two agents with the same sanitized name rewrite one path and count it twice, as the script does); it raises iff the project's name is missing, and then before creating anything |
| ProjectExport.MainTotalIsPagesWritten | bulk_export_all_projects.py:199-211 | the grand total is the number of `.html` writes made over all projects; the loop never stops early |
| ProjectExport.OtherUseCaseOnlyMakesDir | bulk_export_all_projects.py:38-167 | a project of any other use case gets its directory and nothing else |
| ProjectExport.AgentExportsAll | bulk_export_all_projects.py:125-160 | an agent whose deployments all export counts every listed conversation |
| ProjectExport.EveryAgentExportsEveryConversation | bulk_export_all_projects.py:121-160 | deployments are listed per project, so when everything succeeds each agent exports every conversation again: the total is agents × conversations |
| ProjectExport.FailedDeploymentEndsAgent | bulk_export_all_projects.py:131-160 | a deployment that raises ends its agent's deployment loop, keeping what was exported before; the agent itself does not raise |
| ProjectExport.ExportChatSession | bulk_export_all_projects.py:53-111 | one CHAT_LLM session performs its effect and returns its count |
| ProjectExport.ExportChatLlm | bulk_export_all_projects.py:44-115 | the CHAT_LLM branch performs its effect and returns its count |
| ProjectExport.ExportConvo | bulk_export_all_projects.py:142-156 | one agent conversation performs its effect and returns its count |
| ProjectExport.ExportDeployment | bulk_export_all_projects.py:134-158 | one deployment performs its effect and returns its count |
| ProjectExport.ExportAgent | bulk_export_all_projects.py:125-160 | one agent performs its effect; the inner `except` keeps the count reached before a failure |
| ProjectExport.ExportAgents | bulk_export_all_projects.py:117-164 | the AI_AGENT branch performs its effect and returns its count |
| ProjectExport.ExportProjectChats | bulk_export_all_projects.py:25-175 | `export_project_chats` performs the project's effect and returns `total_exported` |
| ProjectExport.ExportAllProjects | bulk_export_all_projects.py:178-213 | `main` performs its effect; a project that raises adds nothing to the total |
| DeploymentExport.ConfigurationChecks | bulk_export_deployment_convos.py:27-33 | the API key is checked first, then the deployment id, both before anything is created |
| DeploymentExport.ConvoWrites | bulk_export_deployment_convos.py:53-85 | a conversation with a creation attribute and a name never stops the loop; it writes exactly one non-empty page when its export succeeds and nothing when it fails |
| DeploymentExport.RunReportsAllConversations | bulk_export_deployment_convos.py:39-87 | the run reports `len(convos)` however many exports failed, creates the output directory, and writes one non-empty page per successful export |
| DeploymentExport.ExportConvo | bulk_export_deployment_convos.py:53-83 | one iteration performs the conversation's effect |
| DeploymentExport.ExportDeploymentConversations | bulk_export_deployment_convos.py:25-88 | the script performs exactly the run's effect and returns its outcome |
| AllDeploymentsExport.ConvoRaisesIffNull | bulk_export_all_deployment_conversations.py:76-101 | a conversation raises out of the innermost `try` iff its name or creation attribute is None; a failed export is caught |
| AllDeploymentsExport.NullNameEndsDeployment | bulk_export_all_deployment_conversations.py:62-108 | such a conversation ends its deployment's loop; the conversations before it stay exported |
| AllDeploymentsExport.DeploymentFacts | bulk_export_all_deployment_conversations.py:55-108 | a deployment creates `{project}/{deployment}_{id}` only for a non-empty conversation list, writes only non-empty pages inside it and counts each page; it raises iff its name is missing |
| AllDeploymentsExport.ProjectFacts | bulk_export_all_deployment_conversations.py:40-111 | a project counts exactly the pages written; it raises iff its name is missing |
| AllDeploymentsExport.TotalIsPagesWritten | bulk_export_all_deployment_conversations.py:37-116 | the final total is the number of pages written over all projects |
| AllDeploymentsExport.MissingKeyTouchesNothing | bulk_export_all_deployment_conversations.py:23-25 | a missing API key raises before anything is created |
| AllDeploymentsExport.ProgressLineCount | bulk_export_all_deployment_conversations.py:85-86 | of `n` conversations, the first `min(n, 5)`, the multiples of 50 and the last get a progress line |
| AllDeploymentsExport.ExportConvo | bulk_export_all_deployment_conversations.py:76-101 | one conversation performs its effect and returns its count |
| AllDeploymentsExport.ExportDeployment | bulk_export_all_deployment_conversations.py:55-108 | one deployment performs its effect and returns its count |
| AllDeploymentsExport.ExportProject | bulk_export_all_deployment_conversations.py:40-111 | one project performs its effect and returns its count |
| AllDeploymentsExport.ExportAllDeploymentConversations | bulk_export_all_deployment_conversations.py:22-117 | `main` performs exactly the run's effect and returns its outcome |
| Json.GetPut | process_pdfs.py:167-168 | after `d[key] = value`, reading `key` gives `value` and every other key is unchanged |
| Json.PutDistinct | process_pdfs.py:167-168 | assigning a key to a dict with distinct keys leaves its keys distinct |
| Json.KeysPut | process_pdfs.py:127-141 | a new key is appended to the dict's key order; an existing key keeps its place |
| PdfProcessor.SaysNoIff | process_pdfs.py:34-35 | only a lone `n` or `N`, with any surrounding whitespace, says no; the empty default says yes |
| PdfProcessor.StartDecision | process_pdfs.py:183-222 | the checks come in order (API key, stripped deployment id, PDFs, confirmation): the first failing one decides the outcome; the batch proceeds iff all pass, with the stripped id |
| PdfProcessor.LogDirBeforeConfirm | process_pdfs.py:205-222 | the log directory is created iff the key, the deployment id and the PDFs are there, so also when the user then cancels |
| PdfProcessor.UploadResultFacts | process_pdfs.py:52-86 | `upload_document` never raises; its status says whether the upload succeeded; it names the file and path, with `upload_response` exactly on success and `error` exactly on failure |
| PdfProcessor.PromptEntryFacts | process_pdfs.py:117-141 | each prompt's record keeps the prompt text and its own status, with the reply on success and the error on failure |
| PdfProcessor.ProcessResultShape | process_pdfs.py:89-150 | the result holds a created conversation id, then one record per prompt in fixed order, and no top-level `status`; a failed conversation creation gives exactly the error and a failed status |
| PdfProcessor.ProcessWithPrompts | process_pdfs.py:89-150 | the prompt loop builds exactly that result |
| PdfProcessor.SaveLogAppends | process_pdfs.py:153-174 | a save appends exactly the new entry to `processed_files` (empty if the file or key is missing), sets `last_updated`, keeps every other key, and succeeds iff the log is appendable |
| PdfProcessor.SaveLogKeepsDistinct | process_pdfs.py:158-172 | a log loaded as a dict with distinct keys is written back with distinct keys |
| PdfProcessor.LogStore.Save | process_pdfs.py:153-174 | the log file is rewritten only when the append succeeded |
| PdfProcessor.OverallStatusRule | process_pdfs.py:245-266 | `upload_failed` iff the upload failed; `success` iff the upload succeeded and the conversation was created, even if every prompt failed |
| PdfProcessor.EntryProcessingIffUploaded | process_pdfs.py:245-266 | the log entry has a `processing` record, the result of the prompts, iff the upload succeeded; an `upload_failed` entry has none |
| PdfProcessor.EntriesNumbered | process_pdfs.py:232-243 | the entries carry `file_number` 1..n and `total_files` n in PDF order, with the PDF's name and its overall status |
| PdfProcessor.SaveAllAppends | process_pdfs.py:232-269 | from an appendable log every save succeeds and `processed_files` gains the run's entries in order |
| PdfProcessor.BatchLogsEveryPdf | process_pdfs.py:232-269 | a run from an appendable log logs one entry per PDF, in PDF order, numbered 1..n |
| PdfProcessor.BuildEntry | process_pdfs.py:236-266 | one iteration builds the log entry and decides whether the PDF counts as successful |
| PdfProcessor.ProcessBatch | process_pdfs.py:229-279 | the batch loop leaves the log as saving every entry in order would, ending at a save that raises; otherwise `successful` counts the successes and `successful + failed` is the number of PDFs |
| Search.AnyMatch | search_chat.py:49-54 | some listed item matches iff one at some index satisfies the id-or-name rule |
| Search.MatchIgnoresCase | search_chat.py:52 | the match ignores the case of the term, and an item whose id equals the term matches |
| Search.MissingNameMatchesById | search_chat.py:51-52 | a missing name reads as `''`, so such an item matches only by id; the empty term matches everything |
| Search.DetailTestIsCaseSensitive | search_chat.py:72-73 | the project-details test is case-sensitive, unlike the id-or-name rule |
| Search.DetailTestKeepsCase | search_chat.py:72-73 | for all inputs, a term with an upper-case letter never hits project details that hold no upper-case letter |
| Search.OnlyAgentProjectsScanConversations | search_chat.py:80-94 | deployment conversations are searched only for `use_case == 'AI_AGENT'` |
| Search.DirectHitReturnsAtOnce | search_chat.py:27-38 | a successful direct `get_chat_session(term)` is returned, whatever the later strategies would get |
| Search.ListedMatchesReturnNone | search_chat.py:122-132 | matches found only by strategies 2 and 3 set `found`, yet the function returns None |
| Search.LookupIsFirstSuccess | search_chat.py:101-117 | strategy 4 returns the first successful lookup, one per listed deployment; it finds nothing when no project lists a deployment |
| Search.ScanDeployments | search_chat.py:82-94 | the deployments loop of an AI_AGENT project finds a match iff a conversation of some deployment before the first failing conversation listing matches |
| Search.ScanProjects | search_chat.py:63-96 | the project loop, with its swallowed inner errors, finds a match iff some project before the first one without a name matches |
| Search.SearchForChat | search_chat.py:16-132 | the strategies in order, with their early returns, give the specification's result and `found` flag |

## Left out

- The SDK: every call is an input, either what it returns or its exception.
  - `ApiClient(key)` is assumed to succeed.
  - An export response of bytes is given already decoded. `decode("utf-8", errors="ignore")` is not modelled.
  - Attribute reads the scripts make without a default (`chat_session_id`, `project_id`, `deployment_id` and the like) are assumed to succeed.
- `lower()` and `upper()` are ASCII-only. Unicode case mapping is not modelled.
- `time.time()` and `datetime.now()` are inputs: one per session, conversation or PDF where the script reads them.
- `print`, `input`, `sys.exit` and `KeyboardInterrupt` are not modelled. The inputs `main` of `process_pdfs.py` reads are parameters.
- The directory prompt loop of `get_user_input` is not modelled. It loops until a directory exists; only its yes/no answer is modelled.
- `find_pdfs` is not modelled. It depends on filesystem globbing and ordering, so the PDFs are an input sequence.
- Paths are plain strings: `pathlib` normalisation, `resolve()` and parent-directory creation are left out.
- `FileStore` holds the directories and files the exporters create. Reading files back and file-system errors are not modelled.
- `LogStore` holds only the activity log.
- `json.dump` and `json.load` are not modelled. `Json` is the parsed value, and `LogState.Corrupt` stands for a file that does not parse. Serialisation failures are left out.
- `ProjectExport`: `list_chat_sessions()` is unscoped, but each CHAT_LLM project is given its own listing. The model therefore does not state that every CHAT_LLM project sees the same list.
- `Search`: the answers of the four strategies are independent inputs. The model does not state that strategies 3 and 4 call `list_projects()` on the same account. Strategy 4's lookup ignores the deployment, so each listed deployment has one lookup outcome.
- `process_pdfs.py` defines `sanitize_filename` with `max_len` 100, but never calls it. Only the constant `Sanitize.PdfMaxLen` is kept.
- `sanitize_filename` is modelled as the scripts write it (bulk_export_ai_chat.py:33-35, bulk_export_all_projects.py:20-22):
  - it does not trim whitespace;
  - it gives no placeholder for empty input;
  - the map-only variant keeps characters such as `\`, `(` and `;`.
- `max_len` is a `nat`. Python's negative slice bounds are not modelled.
