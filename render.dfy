/** The local HTML renderers used when the SDK's export endpoint gives no body,
    and the placeholder pages written for empty exports. */
module Render {
  import opened Outcomes
  import opened PyText
  import opened Records
  import opened Effects

  // ---------------------------------------------------------------------------
  // Steps shared by the two chat-session exporters.

  /** The body the export endpoint gave: bytes are decoded, a str is kept; None for any
      other return value and for an exception, both of which go to the fallback. */
  function PrimaryHtml(c: SessionCalls): Option<string>
  {
    match c.exported
    case Ok(Bytes(text)) => Some(text)
    case Ok(Str(text)) => Some(text)
    case _ => None
  }

  /** The `.json` step: `open` runs before `to_dict()`, so a failing `to_dict()` leaves
      the file created and empty. */
  function JsonEffect(path: string, c: SessionCalls): Effect
  {
    match c.toDict
    case Ok(text) => Write(path + ".json", text)
    case Err(_) => Write(path + ".json", "")
  }

  // ---------------------------------------------------------------------------
  // Fallback renderer of bulk_export_ai_chat.py: 14 header parts, 3 per message.

  const ChatHeaderLen: nat := 14

  /** The five style rules between `<style>` and `</style>`. */
  const ChatCss: seq<string> := [
      "body { font-family: sans-serif; max-width: 900px; margin: 40px auto; padding: 20px; }",
      "h1 { color: #333; }",
      "h3 { color: #666; margin-top: 20px; }",
      "pre { background: #f5f5f5; padding: 15px; border-radius: 5px; overflow-x: auto; }",
      "hr { border: none; border-top: 1px solid #ddd; margin: 20px 0; }"]

  function ChatHeader(name: string, sid: string, created: string): (r: seq<string>)
    ensures |r| == ChatHeaderLen
  {
    [ "<!DOCTYPE html>",
      "<html><head><meta charset='utf-8'>",
      "<title>" + name + "</title>",
      "<style>"] + ChatCss + [
      "</style></head><body>",
      "<h1>" + name + "</h1>",
      "<p><em>Session ID: " + sid + "</em></p>",
      "<p><em>Created: " + created + "</em></p>",
      "<hr/>" ]
  }

  /** One item of a list-valued text: `t.get("text", "")` for a dict, `str(t)` otherwise;
      None when the dict holds None, which `"\n".join` refuses. */
  function ItemText(t: TextItem): Option<string>
  {
    match t
    case DictItem(a) => GetAttrOr(a, "")
    case OtherItem(shown) => Some(shown)
  }

  function ItemTexts(items: seq<TextItem>): Option<seq<string>>
  {
    if items == [] then Some([])
    else match (ItemText(items[0]), ItemTexts(items[1..]))
      case (Some(t), Some(ts)) => Some([t] + ts)
      case _ => None
  }

  /** The text of a message: the list joined by newlines, `str(m.text)` for any other
      truthy value, and `str(m)` when the attribute is missing or falsy. */
  function ChatMessageText(m: Message): Option<string>
  {
    match m.text
    case NoTextAttr => Some(m.shown)
    case TextList(items, _) =>
      if items == [] then Some(m.shown)
      else (match ItemTexts(items)
            case Some(ts) => Some(Join(ts, "\n"))
            case None => None)
    case TextScalar(truthy, shown) => Some(if truthy then shown else m.shown)
  }

  /** The three parts of one message; None when rendering it raises. */
  function ChatMessageParts(m: Message): Option<seq<string>>
  {
    match (OrElse(m.role, "user"), ChatMessageText(m))
    case (Some(who), Some(text)) => Some(["<h3>" + Upper(who) + "</h3>", "<pre>" + text + "</pre>", "<hr/>"])
    case _ => None
  }

  /** The parts of all messages, in message order. */
  function ChatMessagesParts(msgs: seq<Message>): Option<seq<string>>
    decreases |msgs|
  {
    if msgs == [] then Some([])
    else match (ChatMessagesParts(msgs[..|msgs| - 1]), ChatMessageParts(msgs[|msgs| - 1]))
      case (Some(ps), Some(p)) => Some(ps + p)
      case _ => None
  }

  /** The messages `full.chat_history or []` iterates; None when the attribute is missing. */
  function ChatHistoryMessages(h: History): Option<seq<Message>>
  {
    match h
    case NoHistoryAttr => None
    case NullHistory => Some([])
    case Messages(ms) => Some(ms)
  }

  function ChatFallbackParts(name: string, sid: string, created: string, h: History): Option<seq<string>>
  {
    match ChatHistoryMessages(h)
    case None => None
    case Some(msgs) =>
      match ChatMessagesParts(msgs)
      case None => None
      case Some(body) => Some(ChatHeader(name, sid, created) + body + ["</body></html>"])
  }

  /** A message renders unless its role attribute is missing or its text list holds a None. */
  predicate ChatMessageRenders(m: Message)
  {
    m.role != Absent &&
    (m.text.TextList? ==> forall k :: 0 <= k < |m.text.items| ==> m.text.items[k] != DictItem(Null))
  }

  lemma {:induction false} ItemTextsFacts(items: seq<TextItem>)
    ensures ItemTexts(items).Some? <==> forall k :: 0 <= k < |items| ==> items[k] != DictItem(Null)
    ensures ItemTexts(items).Some? ==>
      |ItemTexts(items).value| == |items| &&
      forall k :: 0 <= k < |items| ==> ItemTexts(items).value[k] == ItemText(items[k]).value
  {
    if items != [] {
      ItemTextsFacts(items[1..]);
      assert forall k :: 1 <= k < |items| ==> items[k] == items[1..][k - 1];
    }
  }

  lemma ChatMessagePartsSome(m: Message)
    ensures ChatMessageParts(m).Some? <==> ChatMessageRenders(m)
  {
    if m.text.TextList? {
      ItemTextsFacts(m.text.items);
    }
  }

  /** The three parts of one message: its role (`m.role or "user"`) upper-cased in `<h3>`,
      its text in `<pre>`, then `<hr/>`; a message renders unless its role attribute is
      missing or its text list holds a None. */
  lemma ChatMessagePartsShape(m: Message)
    ensures ChatMessageParts(m).Some? <==> ChatMessageRenders(m)
    ensures ChatMessageParts(m).Some? ==>
      ChatMessageParts(m).value ==
        ["<h3>" + Upper(OrElse(m.role, "user").value) + "</h3>",
         "<pre>" + ChatMessageText(m).value + "</pre>",
         "<hr/>"]
  {
    ChatMessagePartsSome(m);
  }

  lemma SliceOfAppend<T>(a: seq<T>, b: seq<T>, i: nat, j: nat)
    requires i <= j <= |a| + |b|
    ensures j <= |a| ==> (a + b)[i..j] == a[i..j]
    ensures i == |a| ==> (a + b)[i..j] == b[..j - i]
  {
    if j <= |a| {
      assert forall n :: i <= n < j ==> (a + b)[n] == a[n];
    }
    if i == |a| {
      assert forall n :: i <= n < j ==> (a + b)[n] == b[n - i];
    }
  }

  /** The body of the fallback page of the single-project chat exporter is exactly three
      parts per message, in message order; it renders iff every message renders. */
  lemma {:induction false} ChatFallbackLayout(msgs: seq<Message>)
    ensures ChatMessagesParts(msgs).Some? <==> forall k :: 0 <= k < |msgs| ==> ChatMessageRenders(msgs[k])
    ensures ChatMessagesParts(msgs).Some? ==>
      var body := ChatMessagesParts(msgs).value;
      |body| == 3 * |msgs| &&
      forall k :: 0 <= k < |msgs| ==>
        ChatMessageParts(msgs[k]).Some? && body[3 * k..3 * k + 3] == ChatMessageParts(msgs[k]).value
    decreases |msgs|
  {
    if msgs != [] {
      var init := msgs[..|msgs| - 1];
      var last := msgs[|msgs| - 1];
      ChatFallbackLayout(init);
      ChatMessagePartsSome(last);
      assert forall k :: 0 <= k < |init| ==> init[k] == msgs[k];
      if ChatMessagesParts(msgs).Some? {
        var body := ChatMessagesParts(msgs).value;
        var b0 := ChatMessagesParts(init).value;
        assert body == b0 + ChatMessageParts(last).value;
        forall k | 0 <= k < |msgs|
          ensures body[3 * k..3 * k + 3] == ChatMessageParts(msgs[k]).value
        {
          var tail := ChatMessageParts(last).value;
          assert |b0| == 3 * |init| && |tail| == 3;
          if k < |init| {
            SliceOfAppend(b0, tail, 3 * k, 3 * k + 3);
          } else {
            SliceOfAppend(b0, tail, 3 * k, 3 * k + 3);
          }
        }
      }
    }
  }

  /** Once a prefix of the messages fails to render, the whole page fails. */
  lemma {:induction false} ChatMessagesPartsPrefixNone(msgs: seq<Message>, j: nat)
    requires j <= |msgs| && ChatMessagesParts(msgs[..j]).None?
    ensures ChatMessagesParts(msgs).None?
    decreases |msgs| - j
  {
    if j < |msgs| {
      assert msgs[..j + 1][..j] == msgs[..j];
      ChatMessagesPartsPrefixNone(msgs, j + 1);
    } else {
      assert msgs[..j] == msgs;
    }
  }

  /** A history of None renders the header and the closing tag and nothing else. */
  lemma ChatFallbackNullHistory(name: string, sid: string, created: string)
    ensures ChatFallbackParts(name, sid, created, NullHistory) ==
      Some(ChatHeader(name, sid, created) + ["</body></html>"])
  {
    assert ChatHeader(name, sid, created) + [] == ChatHeader(name, sid, created);
  }

  /** `text = "\n".join(...)` of a list-valued message text keeps the items in order. */
  lemma ChatListText(m: Message)
    requires m.text.TextList? && m.text.items != []
    requires forall k :: 0 <= k < |m.text.items| ==> m.text.items[k] != DictItem(Null)
    ensures ItemTexts(m.text.items).Some? && |ItemTexts(m.text.items).value| == |m.text.items|
    ensures ChatMessageText(m) == Some(Join(ItemTexts(m.text.items).value, "\n"))
    ensures forall k :: 0 <= k < |m.text.items| ==>
      ItemTexts(m.text.items).value[k] ==
        match m.text.items[k]
        case DictItem(a) => (if a == Absent then "" else a.s)
        case OtherItem(shown) => shown
  {
    ItemTextsFacts(m.text.items);
  }

  /** The loop of the renderer: builds `html_parts` with `append`, one message at a time. */
  method RenderChatFallback(name: string, sid: string, created: string, h: History) returns (html: Option<string>)
    ensures html == (match ChatFallbackParts(name, sid, created, h)
                     case Some(parts) => Some(Join(parts, "\n"))
                     case None => None)
  {
    var msgs: seq<Message>;
    match h {
      case NoHistoryAttr => return None;
      case NullHistory => msgs := [];
      case Messages(ms) => msgs := ms;
    }
    var parts := ChatHeader(name, sid, created);
    var i := 0;
    while i < |msgs|
      invariant 0 <= i <= |msgs|
      invariant ChatMessagesParts(msgs[..i]).Some?
      invariant parts == ChatHeader(name, sid, created) + ChatMessagesParts(msgs[..i]).value
    {
      var m := msgs[i];
      assert msgs[..i + 1][..i] == msgs[..i];
      var who := OrElse(m.role, "user");
      var text := ChatMessageText(m);
      if who.None? || text.None? {
        ChatMessagesPartsPrefixNone(msgs, i + 1);
        return None;
      }
      assert ChatMessageParts(m) == Some(["<h3>" + Upper(who.value) + "</h3>", "<pre>" + text.value + "</pre>", "<hr/>"]);
      parts := parts + ["<h3>" + Upper(who.value) + "</h3>"];
      parts := parts + ["<pre>" + text.value + "</pre>"];
      parts := parts + ["<hr/>"];
      i := i + 1;
    }
    assert msgs[..i] == msgs;
    parts := parts + ["</body></html>"];
    html := Some(Join(parts, "\n"));
  }

  // ---------------------------------------------------------------------------
  // Fallback renderer of bulk_export_all_projects.py: 7 header parts, 1 per message.

  const ProjectHeaderLen: nat := 7

  /** The three style parts, the last of which also closes the head and opens the body. */
  const ProjectCss: seq<string> := [
      "<style>body{font-family:sans-serif;max-width:900px;margin:40px auto;padding:20px;}",
      "h3{color:#666;margin-top:20px;}pre{background:#f5f5f5;padding:15px;border-radius:5px;overflow-x:auto;}",
      "hr{border:none;border-top:1px solid #ddd;margin:20px 0;}</style></head><body>"]

  function ProjectHeader(name: string, sid: string): (r: seq<string>)
    ensures |r| == ProjectHeaderLen
  {
    [ "<!DOCTYPE html>",
      "<html><head><meta charset='utf-8'>",
      "<title>" + name + "</title>"] + ProjectCss + [
      "<h1>" + name + "</h1><p><em>Session: " + sid + "</em></p><hr/>" ]
  }

  /** `str(getattr(m, 'text', m))`. */
  function ProjectMessageText(m: Message): string
  {
    match m.text
    case NoTextAttr => m.shown
    case TextList(_, shown) => shown
    case TextScalar(_, shown) => shown
  }

  /** The one part of a message; None when `getattr(m, 'role', 'user')` is None. */
  function ProjectMessagePart(m: Message): Option<string>
  {
    match GetAttrOr(m.role, "user")
    case Some(who) => Some("<h3>" + Upper(who) + "</h3><pre>" + ProjectMessageText(m) + "</pre><hr/>")
    case None => None
  }

  function ProjectMessagesParts(msgs: seq<Message>): Option<seq<string>>
    decreases |msgs|
  {
    if msgs == [] then Some([])
    else match (ProjectMessagesParts(msgs[..|msgs| - 1]), ProjectMessagePart(msgs[|msgs| - 1]))
      case (Some(ps), Some(p)) => Some(ps + [p])
      case _ => None
  }

  /** The messages `getattr(full, 'chat_history', [])` iterates; None when it is None. */
  function ProjectHistoryMessages(h: History): Option<seq<Message>>
  {
    match h
    case NoHistoryAttr => Some([])
    case NullHistory => None
    case Messages(ms) => Some(ms)
  }

  function ProjectFallbackParts(name: string, sid: string, h: History): Option<seq<string>>
  {
    match ProjectHistoryMessages(h)
    case None => None
    case Some(msgs) =>
      match ProjectMessagesParts(msgs)
      case None => None
      case Some(body) => Some(ProjectHeader(name, sid) + body + ["</body></html>"])
  }

  /** The fallback page of the all-projects exporter has 7 header parts, then one part
      per message in message order, then the closing tag. It fails iff the history is None
      or some message has a role of None. */
  lemma {:induction false} ProjectFallbackLayout(name: string, sid: string, msgs: seq<Message>)
    ensures ProjectMessagesParts(msgs).Some? <==> forall k :: 0 <= k < |msgs| ==> msgs[k].role != Null
    ensures ProjectMessagesParts(msgs).Some? ==>
      var body := ProjectMessagesParts(msgs).value;
      |body| == |msgs| &&
      forall k :: 0 <= k < |msgs| ==>
        body[k] == "<h3>" + Upper(GetAttrOr(msgs[k].role, "user").value) + "</h3><pre>"
                   + ProjectMessageText(msgs[k]) + "</pre><hr/>"
    decreases |msgs|
  {
    if msgs != [] {
      var init := msgs[..|msgs| - 1];
      ProjectFallbackLayout(name, sid, init);
      assert forall k :: 0 <= k < |init| ==> init[k] == msgs[k];
    }
  }

  lemma {:induction false} ProjectMessagesPartsPrefixNone(msgs: seq<Message>, j: nat)
    requires j <= |msgs| && ProjectMessagesParts(msgs[..j]).None?
    ensures ProjectMessagesParts(msgs).None?
    decreases |msgs| - j
  {
    if j < |msgs| {
      assert msgs[..j + 1][..j] == msgs[..j];
      ProjectMessagesPartsPrefixNone(msgs, j + 1);
    } else {
      assert msgs[..j] == msgs;
    }
  }

  lemma ProjectFallbackNullHistoryFails(name: string, sid: string)
    ensures ProjectFallbackParts(name, sid, NullHistory).None?
  {
  }

  /** The loop of the renderer: builds `html_parts` with `append`, one message at a time. */
  method RenderProjectFallback(name: string, sid: string, h: History) returns (html: Option<string>)
    ensures html == (match ProjectFallbackParts(name, sid, h)
                     case Some(parts) => Some(Join(parts, "\n"))
                     case None => None)
  {
    var msgs: seq<Message>;
    match h {
      case NoHistoryAttr => msgs := [];
      case NullHistory => return None;
      case Messages(ms) => msgs := ms;
    }
    var parts := ProjectHeader(name, sid);
    var i := 0;
    while i < |msgs|
      invariant 0 <= i <= |msgs|
      invariant ProjectMessagesParts(msgs[..i]).Some?
      invariant parts == ProjectHeader(name, sid) + ProjectMessagesParts(msgs[..i]).value
    {
      var m := msgs[i];
      assert msgs[..i + 1][..i] == msgs[..i];
      var who := GetAttrOr(m.role, "user");
      if who.None? {
        ProjectMessagesPartsPrefixNone(msgs, i + 1);
        return None;
      }
      parts := parts + ["<h3>" + Upper(who.value) + "</h3><pre>" + ProjectMessageText(m) + "</pre><hr/>"];
      i := i + 1;
    }
    assert msgs[..i] == msgs;
    parts := parts + ["</body></html>"];
    html := Some(Join(parts, "\n"));
  }

  // ---------------------------------------------------------------------------
  // Placeholders for an empty `conversation_export_html`.

  /** The page the deployment exporters write instead of an empty export. */
  function EmptyExportPage(cid: string): string
  {
    "<html><body><h1>Empty Export</h1><p>Conversation ID: " + cid + "</p></body></html>"
  }

  /** The page the all-projects exporter writes instead of an empty export. */
  const EmptyAgentPage := "<html><body>Empty</body></html>"

  /** `html or placeholder` for the deployment exporters. */
  function DeploymentPage(html: Option<string>, cid: string): string
  {
    if Truthy(html) then html.value else EmptyExportPage(cid)
  }

  /** The written page is the export when it is non-empty, else a placeholder that names
      the conversation; it is never empty. */
  lemma DeploymentPageFacts(html: Option<string>, cid: string)
    ensures Truthy(html) ==> DeploymentPage(html, cid) == html.value
    ensures !Truthy(html) ==> Contains(DeploymentPage(html, cid), cid)
    ensures DeploymentPage(html, cid) != ""
  {
    if !Truthy(html) {
      var page := EmptyExportPage(cid);
      var at := |"<html><body><h1>Empty Export</h1><p>Conversation ID: "|;
      assert page[at..at + |cid|] == cid;
      assert OccursAt(page, cid, at);
      ContainsIff(page, cid);
    }
  }
}
