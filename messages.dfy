/** Chat messages as the language-model SDK stores them ("core" messages) and as
    the chat panel shows them ("UI" messages), the fold that turns a list of the
    former into a list of the latter, the merge of tool results into earlier tool
    calls, and the title derived from a chat's first message. */
module Messages {

  datatype Option<T> = None | Some(value: T)

  /** Tool arguments and tool results are arbitrary structured values; nothing
      here inspects them. */
  datatype Json =
    | JNull
    | JBool(b: bool)
    | JNumber(n: int)
    | JString(s: string)
    | JArray(items: seq<Json>)
    | JObject(fields: seq<(string, Json)>)

  /** The roles a non-tool message can have. */
  datatype Role = System | User | Assistant

  /** One typed segment of a message whose content is an array. */
  datatype Part =
    | TextPart(text: string)
    | ToolCallPart(toolCallId: string, toolName: string, args: Json)
    | OtherPart  // image, file, reasoning or any other segment kind

  /** Message content: either a plain string or an array of typed segments. */
  datatype Content = Text(text: string) | Parts(parts: seq<Part>)

  datatype ToolResultPart = ToolResultPart(toolCallId: string, toolName: string, result: Json)

  /** A core message. A message with role "tool" carries only tool results. */
  datatype CoreMessage =
    | RoleMessage(role: Role, content: Content)
    | ToolMessage(results: seq<ToolResultPart>)

  datatype InvocationState = Call | Result(result: Json)

  datatype ToolInvocation =
    ToolInvocation(state: InvocationState, toolCallId: string, toolName: string, args: Json)

  /** A message ready for display. */
  datatype UIMessage =
    UIMessage(id: string, role: Role, content: string, toolInvocations: seq<ToolInvocation>)

  const UntitledTitle: string := "Untitled"

  // ---------------------------------------------------------------------------
  // Content of one non-tool message

  function PartText(p: Part): string {
    if p.TextPart? then p.text else ""
  }

  function PartCalls(p: Part): seq<ToolInvocation> {
    if p.ToolCallPart? then [ToolInvocation(Call, p.toolCallId, p.toolName, p.args)] else []
  }

  /** The text segments of `parts`, concatenated in order. */
  function TextOf(parts: seq<Part>): string
    decreases |parts|
  {
    if parts == [] then "" else TextOf(parts[..|parts| - 1]) + PartText(parts[|parts| - 1])
  }

  /** The tool-call segments of `parts`, in order, as invocations in state `Call`. */
  function CallsOf(parts: seq<Part>): (calls: seq<ToolInvocation>)
    ensures |calls| <= |parts|
    ensures forall inv <- calls ::
      inv.state == Call && ToolCallPart(inv.toolCallId, inv.toolName, inv.args) in parts
    decreases |parts|
  {
    if parts == [] then []
    else
      var prior := parts[..|parts| - 1];
      assert forall p <- prior :: p in parts;
      CallsOf(prior) + PartCalls(parts[|parts| - 1])
  }

  function ContentText(c: Content): string {
    match c
    case Text(s) => s
    case Parts(ps) => TextOf(ps)
  }

  function ContentCalls(c: Content): seq<ToolInvocation> {
    match c
    case Text(_) => []
    case Parts(ps) => CallsOf(ps)
  }

  lemma {:induction false} TextOfAppend(p: seq<Part>, q: seq<Part>)
    ensures TextOf(p + q) == TextOf(p) + TextOf(q)
    decreases |q|
  {
    if q == [] {
      assert p + q == p;
    } else {
      var q', last := q[..|q| - 1], q[|q| - 1];
      assert (p + q)[..|p + q| - 1] == p + q';
      assert (p + q)[|p + q| - 1] == last;
      calc {
        TextOf(p + q);
        TextOf(p + q') + PartText(last);
        { TextOfAppend(p, q'); }
        (TextOf(p) + TextOf(q')) + PartText(last);
        TextOf(p) + (TextOf(q') + PartText(last));
        TextOf(p) + TextOf(q);
      }
    }
  }

  lemma {:induction false} CallsOfAppend(p: seq<Part>, q: seq<Part>)
    ensures CallsOf(p + q) == CallsOf(p) + CallsOf(q)
    decreases |q|
  {
    if q == [] {
      assert p + q == p;
    } else {
      var q' := q[..|q| - 1];
      assert (p + q)[..|p + q| - 1] == p + q';
      CallsOfAppend(p, q');
    }
  }

  /** Segments that are neither text nor tool calls change nothing. */
  lemma {:induction false} OtherPartsIgnored(p: seq<Part>, q: seq<Part>)
    ensures TextOf(p + [OtherPart] + q) == TextOf(p + q)
    ensures CallsOf(p + [OtherPart] + q) == CallsOf(p + q)
  {
    var p' := p + [OtherPart];
    assert p' + q == p + [OtherPart] + q;
    assert p'[..|p'| - 1] == p;
    assert TextOf(p') == TextOf(p) && CallsOf(p') == CallsOf(p);
    TextOfAppend(p', q);
    TextOfAppend(p, q);
    CallsOfAppend(p', q);
    CallsOfAppend(p, q);
  }

  /** The loop body of the normaliser for one non-tool message: plain string
      content is taken as it is; for array content the text segments are
      appended to the text and the tool-call segments to the invocations. */
  method CollectContent(content: Content) returns (text: string, invocations: seq<ToolInvocation>)
    ensures text == ContentText(content)
    ensures invocations == ContentCalls(content)
  {
    text, invocations := "", [];
    match content
    case Text(s) =>
      text := s;
    case Parts(parts) =>
      for j := 0 to |parts|
        invariant text == TextOf(parts[..j])
        invariant invocations == CallsOf(parts[..j])
      {
        assert parts[..j + 1][..j] == parts[..j];
        match parts[j]
        case TextPart(t) =>
          text := text + t;
        case ToolCallPart(toolCallId, toolName, args) =>
          invocations := invocations + [ToolInvocation(Call, toolCallId, toolName, args)];
        case OtherPart =>
      }
      assert parts[..|parts|] == parts;
  }

  // ---------------------------------------------------------------------------
  // Merging a tool message into the messages so far

  /** Index of the first result whose id is `toolCallId`, or `|results|` if none. */
  function FirstMatch(results: seq<ToolResultPart>, toolCallId: string): (k: nat)
    ensures k <= |results|
    ensures k < |results| ==> results[k].toolCallId == toolCallId
    ensures forall j :: 0 <= j < k ==> results[j].toolCallId != toolCallId
  {
    if results == [] then 0
    else if results[0].toolCallId == toolCallId then 0
    else 1 + FirstMatch(results[1..], toolCallId)
  }

  /** The first result carrying `toolCallId`, if any. */
  function FindResult(results: seq<ToolResultPart>, toolCallId: string): Option<ToolResultPart> {
    var k := FirstMatch(results, toolCallId);
    if k < |results| then Some(results[k]) else None
  }

  function Resolve(results: seq<ToolResultPart>, inv: ToolInvocation): ToolInvocation {
    match FindResult(results, inv.toolCallId)
    case Some(r) => inv.(state := Result(r.result))
    case None => inv
  }

  /** Every invocation for which the tool message has a result moves to state
      `Result`, carrying the result of the first entry with its id; the others
      are kept as they are. */
  function ResolveInvocations(results: seq<ToolResultPart>, invocations: seq<ToolInvocation>)
    : (resolved: seq<ToolInvocation>)
    ensures |resolved| == |invocations|
    ensures forall j :: 0 <= j < |invocations| ==>
      && resolved[j].toolCallId == invocations[j].toolCallId
      && resolved[j].toolName == invocations[j].toolName
      && resolved[j].args == invocations[j].args
    ensures forall j :: 0 <= j < |invocations| ==>
      ((forall k :: 0 <= k < |results| ==> results[k].toolCallId != invocations[j].toolCallId)
       ==> resolved[j] == invocations[j])
    ensures forall j, k :: 0 <= j < |invocations| && 0 <= k < |results| ==>
      (results[k].toolCallId == invocations[j].toolCallId &&
       (forall i :: 0 <= i < k ==> results[i].toolCallId != invocations[j].toolCallId)
       ==> resolved[j].state == Result(results[k].result))
  {
    seq(|invocations|, j requires 0 <= j < |invocations| => Resolve(results, invocations[j]))
  }

  /** A tool message adds no entry: it only updates the invocations of the
      messages collected so far. */
  function AddToolMessageToChat(results: seq<ToolResultPart>, messages: seq<UIMessage>)
    : (updated: seq<UIMessage>)
    ensures |updated| == |messages|
    ensures forall k :: 0 <= k < |messages| ==>
      updated[k] == messages[k].(toolInvocations := ResolveInvocations(results, messages[k].toolInvocations))
  {
    seq(|messages|, k requires 0 <= k < |messages| =>
      messages[k].(toolInvocations := ResolveInvocations(results, messages[k].toolInvocations)))
  }

  /** No invocation's id occurs among the results. */
  ghost predicate NoMatch(results: seq<ToolResultPart>, messages: seq<UIMessage>) {
    forall k, j, i :: 0 <= k < |messages| && 0 <= j < |messages[k].toolInvocations| && 0 <= i < |results|
      ==> results[i].toolCallId != messages[k].toolInvocations[j].toolCallId
  }

  /** A tool message that answers none of the calls leaves the messages as they were. */
  lemma AddToolMessageNoMatch(results: seq<ToolResultPart>, messages: seq<UIMessage>)
    requires NoMatch(results, messages)
    ensures AddToolMessageToChat(results, messages) == messages
  {
    var updated := AddToolMessageToChat(results, messages);
    forall k | 0 <= k < |messages| ensures updated[k] == messages[k] {
      var invs := messages[k].toolInvocations;
      var resolved := ResolveInvocations(results, invs);
      forall j | 0 <= j < |invs| ensures resolved[j] == invs[j] {
        assert forall i :: 0 <= i < |results| ==> results[i].toolCallId != invs[j].toolCallId;
      }
      assert resolved == invs;
    }
  }

  /** Applying the same tool message twice has the effect of applying it once. */
  lemma AddToolMessageIdempotent(results: seq<ToolResultPart>, messages: seq<UIMessage>)
    ensures AddToolMessageToChat(results, AddToolMessageToChat(results, messages))
         == AddToolMessageToChat(results, messages)
  {
    var once := AddToolMessageToChat(results, messages);
    var twice := AddToolMessageToChat(results, once);
    forall k | 0 <= k < |messages| ensures twice[k] == once[k] {
      var a := once[k].toolInvocations;
      var b := ResolveInvocations(results, a);
      forall j | 0 <= j < |a| ensures b[j] == a[j] {
        assert Resolve(results, a[j]) == a[j];
      }
      assert b == a;
    }
  }

  // ---------------------------------------------------------------------------
  // The normaliser

  /** The non-tool messages of `messages`, in order: the ones that produce an entry. */
  function Entries(messages: seq<CoreMessage>): (entries: seq<CoreMessage>)
    ensures |entries| <= |messages|
    ensures forall m <- entries :: m.RoleMessage? && m in messages
    decreases |messages|
  {
    if messages == [] then []
    else
      var prior := messages[..|messages| - 1];
      var last := messages[|messages| - 1];
      assert forall m <- prior :: m in messages;
      Entries(prior) + (if last.RoleMessage? then [last] else [])
  }

  lemma {:induction false} EntriesOfPrefix(messages: seq<CoreMessage>, n: nat)
    requires n <= |messages|
    ensures |Entries(messages[..n])| <= |Entries(messages)|
    decreases |messages|
  {
    if n < |messages| {
      var prior := messages[..|messages| - 1];
      assert messages[..n] == prior[..n];
      EntriesOfPrefix(prior, n);
    } else {
      assert messages[..n] == messages;
    }
  }

  /** A list has no entry exactly when every message in it is a tool message. */
  lemma {:induction false} EntriesEmptyIff(messages: seq<CoreMessage>)
    ensures Entries(messages) == [] <==> forall m <- messages :: m.ToolMessage?
    decreases |messages|
  {
    if messages != [] {
      var prior := messages[..|messages| - 1];
      var last := messages[|messages| - 1];
      EntriesEmptyIff(prior);
      assert messages == prior + [last];
    }
  }

  /** The display list for `messages`, when the k-th entry created gets id `ids[k]`:
      the left fold of the source, one step per message. */
  function Normalize(messages: seq<CoreMessage>, ids: seq<string>): (chat: seq<UIMessage>)
    requires |Entries(messages)| <= |ids|
    ensures |chat| == |Entries(messages)|
    decreases |messages|
  {
    if messages == [] then []
    else
      var prior := Normalize(messages[..|messages| - 1], ids);
      match messages[|messages| - 1]
      case ToolMessage(results) =>
        AddToolMessageToChat(results, prior)
      case RoleMessage(role, content) =>
        prior + [UIMessage(ids[|prior|], role, ContentText(content), ContentCalls(content))]
  }

  /** Two invocations for the same call, whatever their states. */
  ghost predicate SameCall(a: ToolInvocation, b: ToolInvocation) {
    a.toolCallId == b.toolCallId && a.toolName == b.toolName && a.args == b.args
  }

  /** `u` is the entry produced for role message `m` with id `id`, up to the
      states of its invocations. */
  ghost predicate EntryFor(u: UIMessage, id: string, m: CoreMessage)
    requires m.RoleMessage?
  {
    && u.id == id
    && u.role == m.role
    && u.content == ContentText(m.content)
    && |u.toolInvocations| == |ContentCalls(m.content)|
    && forall j :: 0 <= j < |u.toolInvocations| ==>
         SameCall(u.toolInvocations[j], ContentCalls(m.content)[j])
  }

  /** Entry k of the output comes from the k-th non-tool message: same role,
      its text, its tool calls in order, and the k-th fresh id. */
  lemma {:induction false} NormalizeEntries(messages: seq<CoreMessage>, ids: seq<string>)
    requires |Entries(messages)| <= |ids|
    ensures forall k :: 0 <= k < |Entries(messages)| ==>
      Entries(messages)[k] in Entries(messages) &&
      EntryFor(Normalize(messages, ids)[k], ids[k], Entries(messages)[k])
    decreases |messages|
  {
    if messages != [] {
      var prefix := messages[..|messages| - 1];
      NormalizeEntries(prefix, ids);
      var prior := Normalize(prefix, ids);
      var chat := Normalize(messages, ids);
      var es := Entries(messages);
      match messages[|messages| - 1]
      case ToolMessage(results) =>
        assert es == Entries(prefix);
        forall k | 0 <= k < |es| ensures es[k] in es && EntryFor(chat[k], ids[k], es[k]) {
          assert es[k] in es;
          assert EntryFor(prior[k], ids[k], es[k]);
        }
      case RoleMessage(role, content) =>
        assert es == Entries(prefix) + [messages[|messages| - 1]];
    }
  }

  /** With no tool message, every message produces an entry. */
  lemma {:induction false} EntriesOfRoleMessages(messages: seq<CoreMessage>)
    requires forall m <- messages :: m.RoleMessage?
    ensures Entries(messages) == messages
    decreases |messages|
  {
    if messages != [] {
      var prefix := messages[..|messages| - 1];
      assert forall m <- prefix :: m in messages;
      EntriesOfRoleMessages(prefix);
      assert messages == prefix + [messages[|messages| - 1]];
    }
  }

  /** With no tool message, every invocation stays in state `Call`. */
  lemma {:induction false} NormalizeWithoutToolMessages(messages: seq<CoreMessage>, ids: seq<string>)
    requires forall m <- messages :: m.RoleMessage?
    requires |messages| <= |ids|
    ensures Entries(messages) == messages
    ensures forall k :: 0 <= k < |messages| ==>
      messages[k].RoleMessage? &&
      Normalize(messages, ids)[k].toolInvocations == ContentCalls(messages[k].content)
    decreases |messages|
  {
    EntriesOfRoleMessages(messages);
    if messages != [] {
      var prefix, last := messages[..|messages| - 1], messages[|messages| - 1];
      assert forall m <- prefix :: m in messages;
      NormalizeWithoutToolMessages(prefix, ids);
      var prior := Normalize(prefix, ids);
      var chat := Normalize(messages, ids);
      assert last.RoleMessage?;
      assert chat == prior + [UIMessage(ids[|prior|], last.role, ContentText(last.content), ContentCalls(last.content))];
      forall k | 0 <= k < |prefix|
        ensures messages[k].RoleMessage? && chat[k].toolInvocations == ContentCalls(messages[k].content)
      {
        assert messages[k] == prefix[k];
        assert chat[k] == prior[k];
      }
    }
  }

  /** The ids affect nothing but the ids: normalising twice yields the same
      roles, contents and invocations. */
  lemma {:induction false} NormalizeIgnoresIds(messages: seq<CoreMessage>, ids1: seq<string>, ids2: seq<string>)
    requires |Entries(messages)| <= |ids1| && |Entries(messages)| <= |ids2|
    ensures forall k :: 0 <= k < |Entries(messages)| ==>
      Normalize(messages, ids1)[k] == Normalize(messages, ids2)[k].(id := ids1[k])
    decreases |messages|
  {
    if messages != [] {
      var prefix := messages[..|messages| - 1];
      NormalizeIgnoresIds(prefix, ids1, ids2);
      var p1, p2 := Normalize(prefix, ids1), Normalize(prefix, ids2);
      match messages[|messages| - 1]
      case ToolMessage(results) =>
        var c1, c2 := Normalize(messages, ids1), Normalize(messages, ids2);
        forall k | 0 <= k < |c1| ensures c1[k] == c2[k].(id := ids1[k]) {
          assert p1[k] == p2[k].(id := ids1[k]);
        }
      case RoleMessage(role, content) =>
    }
  }

  /** The normaliser as the source writes it: a reduce over the messages whose
      accumulator grows by one entry per non-tool message, while a tool message
      rewrites the invocations collected so far. Entry k gets `ids[k]`, the k-th
      freshly generated id. */
  method ConvertToUIMessages(messages: seq<CoreMessage>, ids: seq<string>) returns (chat: seq<UIMessage>)
    requires |Entries(messages)| <= |ids|
    ensures chat == Normalize(messages, ids)
  {
    chat := [];
    for i := 0 to |messages|
      invariant |Entries(messages[..i])| <= |ids|
      invariant chat == Normalize(messages[..i], ids)
    {
      assert messages[..i + 1][..i] == messages[..i];
      EntriesOfPrefix(messages, i + 1);
      match messages[i]
      case ToolMessage(results) =>
        chat := AddToolMessageToChat(results, chat);
      case RoleMessage(role, content) =>
        var text, invocations := CollectContent(content);
        chat := chat + [UIMessage(ids[|chat|], role, text, invocations)];
    }
    assert messages[..|messages|] == messages;
  }

  // ---------------------------------------------------------------------------
  // Title

  /** The title of a chat: the content of its first display entry, or
      "Untitled" when there is none. The ids the normaliser would draw do not
      matter (see TitleMatchesAnyIds), so empty placeholders stand for them. */
  function GetTitleFromChat(messages: seq<CoreMessage>): (title: string)
    ensures Entries(messages) == [] ==> title == UntitledTitle
    ensures Entries(messages) != [] ==>
      Entries(messages)[0].RoleMessage? && title == ContentText(Entries(messages)[0].content)
  {
    var ids := seq(|Entries(messages)|, _ => "");
    NormalizeEntries(messages, ids);
    var chat := Normalize(messages, ids);
    if chat == [] then UntitledTitle else chat[0].content
  }

  /** The title is the first entry's content whatever ids the normaliser draws. */
  lemma TitleMatchesAnyIds(messages: seq<CoreMessage>, ids: seq<string>)
    requires |Entries(messages)| <= |ids|
    ensures GetTitleFromChat(messages) ==
      (var chat := Normalize(messages, ids); if chat == [] then UntitledTitle else chat[0].content)
  {
  }

  /** A chat is titled "Untitled" when every message in it is a tool message;
      when some message is not, the title is the text of the first such one. */
  lemma UntitledExactlyWhenOnlyToolMessages(messages: seq<CoreMessage>)
    ensures (forall m <- messages :: m.ToolMessage?) ==> GetTitleFromChat(messages) == UntitledTitle
    ensures (exists m <- messages :: m.RoleMessage?) ==>
      Entries(messages) != [] && GetTitleFromChat(messages) == ContentText(Entries(messages)[0].content)
  {
    EntriesEmptyIff(messages);
  }
}
