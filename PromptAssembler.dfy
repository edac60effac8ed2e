/** `convertToLines` and `convertToOpenAIFormatWithFilter` (utils/convertToAIFormat.ts):
    the shared context rendered as the message list sent to a model. */
module PromptAssembler {
  import opened Wrappers
  import opened Assoc
  import opened JsString
  import opened ContextTypes

  /** An `LLMConversation` entry; `kind` is its `type` property. */
  datatype LlmMessage = LlmMessage(kind: string, role: string, content: string)

  /** What reading `file.mergedLines.length` throws when `file` is a character of a
      stored diff text rather than an `AgentFile`. */
  const UndefinedLength := "Cannot read properties of undefined (reading 'length')"

  /** `file.lineStatus[i]` as a template literal prints it. */
  function StatusAt(f: AgentFile, i: nat): string {
    if i < |f.lineStatus| then f.lineStatus[i] else "undefined"
  }

  /** The first `n` lines of a file, each as `[status] line`. */
  function FileLines(f: AgentFile, n: nat): string
    requires n <= |f.mergedLines|
  {
    if n == 0 then ""
    else FileLines(f, n - 1) + ("[" + StatusAt(f, n - 1) + "] " + f.mergedLines[n - 1] + "\n")
  }

  function FileBlock(name: string, f: AgentFile): string {
    "From File " + name + ":\n" + FileLines(f, |f.mergedLines|)
  }

  function FileBlocks(entries: AList<string, AgentFile>): string {
    if entries == [] then ""
    else FileBlocks(entries[..|entries| - 1]) + FileBlock(entries[|entries| - 1].0, entries[|entries| - 1].1)
  }

  function AgentHeader(agent: string): string {
    "Context from agent " + agent + ":\n"
  }

  /** The agent's section: the header alone when the agent has no entry, else its text
      and files; stored diff text can only be read when it is empty. */
  function AgentLines(ctx: Context, agent: string): (r: Result<string>)
    ensures r.Ok? ==> StartsWith(r.value, AgentHeader(agent))
  {
    var header := AgentHeader(agent);
    match ctx.agents
    case None => Ok(header)
    case Some(agents) =>
      match Get(agents, agent)
      case None => Ok(header)
      case Some(d) =>
        match d.files
        case Tagged(entries) => Ok(header + d.text + "\n\n" + FileBlocks(entries))
        case Flat(s) => if s == "" then Ok(header + d.text + "\n\n") else Err(UndefinedLength)
  }

  method ConvertToLines(context: Context, agent: string) returns (r: Result<string>)
    ensures r == AgentLines(context, agent)
  {
    var lines := "Context from agent " + agent + ":\n";
    var agentData := if context.agents.Some? then Get(context.agents.value, agent) else None;
    if agentData.None? {
      return Ok(lines);
    }
    lines := lines + agentData.value.text + "\n\n";
    match agentData.value.files {
      case Flat(s) =>
        if s != "" {
          return Err(UndefinedLength);
        }
        return Ok(lines);
      case Tagged(entries) =>
        ghost var base := lines;
        for k := 0 to |entries|
          invariant lines == base + FileBlocks(entries[..k])
        {
          assert entries[..k + 1][..k] == entries[..k];
          ghost var before := lines;
          var header := "From File " + entries[k].0 + ":\n";
          lines := lines + header;
          ghost var start := lines;
          var file := entries[k].1;
          for i := 0 to |file.mergedLines|
            invariant lines == start + FileLines(file, i)
          {
            var status := if i < |file.lineStatus| then file.lineStatus[i] else "undefined";
            var line := "[" + status + "] " + file.mergedLines[i] + "\n";
            Associative(start, FileLines(file, i), line);
            lines := lines + line;
          }
          Associative(before, header, FileLines(file, |file.mergedLines|));
          Associative(base, FileBlocks(entries[..k]), FileBlock(entries[k].0, file));
        }
        assert entries[..|entries|] == entries;
        return Ok(lines);
    }
  }

  /** The opening message when the project has a name. */
  function ProjectHeader(ctx: Context): LlmMessage {
    LlmMessage("text", "assistant",
               "Project: " + ctx.name + "\nSummary: " + (if ctx.summary != "" then ctx.summary else "No summary provided."))
  }

  /** An absent or empty `rolesToTake` keeps every agent. */
  predicate Kept(rolesToTake: Option<seq<string>>, agent: string) {
    rolesToTake.None? || |rolesToTake.value| == 0 || agent in rolesToTake.value
  }

  function TransportRole(agent: string): string {
    if agent == "USER" then "user" else "assistant"
  }

  /** `r` is `s` with some entries left out, the rest in their order. */
  predicate Subsequence<T(==)>(r: seq<T>, s: seq<T>)
    decreases |s|
  {
    if r == [] then true
    else if s == [] then false
    else Subsequence(r, s[..|s| - 1]) || (r[|r| - 1] == s[|s| - 1] && Subsequence(r[..|r| - 1], s[..|s| - 1]))
  }

  /** The agents that pass the filter, in key order. */
  function KeptAgents(rolesToTake: Option<seq<string>>, agents: seq<string>): (r: seq<string>)
    ensures forall i :: 0 <= i < |r| ==> r[i] in agents && Kept(rolesToTake, r[i])
    ensures |r| <= |agents|
    ensures Subsequence(r, agents)
  {
    if agents == [] then []
    else
      var front := KeptAgents(rolesToTake, agents[..|agents| - 1]);
      var last := agents[|agents| - 1];
      if Kept(rolesToTake, last) then front + [last] else front
  }

  /** One message per kept agent, in key order; the first unreadable section aborts. */
  function AgentMessages(ctx: Context, rolesToTake: Option<seq<string>>, agents: seq<string>): Result<seq<LlmMessage>> {
    if agents == [] then Ok([])
    else
      var last := agents[|agents| - 1];
      match AgentMessages(ctx, rolesToTake, agents[..|agents| - 1])
      case Err(e) => Err(e)
      case Ok(ms) =>
        if !Kept(rolesToTake, last) then Ok(ms)
        else
          match AgentLines(ctx, last)
          case Err(e) => Err(e)
          case Ok(c) => Ok(ms + [LlmMessage("text", TransportRole(last), c)])
  }

  function AgentKeys(ctx: Context): seq<string> {
    if ctx.agents.Some? then Keys(ctx.agents.value) else []
  }

  function Conversation(ctx: Context, rolesToTake: Option<seq<string>>): Result<seq<LlmMessage>> {
    var head := if ctx.name != "" then [ProjectHeader(ctx)] else [];
    if ctx.agents.Some? && |ctx.agents.value| > 0 then
      match AgentMessages(ctx, rolesToTake, Keys(ctx.agents.value))
      case Err(e) => Err(e)
      case Ok(ms) => Ok(head + ms)
    else Ok(head)
  }

  method ConvertToOpenAIFormatWithFilter(context: Context, rolesToTake: Option<seq<string>>)
    returns (r: Result<seq<LlmMessage>>)
    ensures r == Conversation(context, rolesToTake)
  {
    var msg: seq<LlmMessage> := [];
    if context.name != "" {
      msg := msg + [LlmMessage("text", "assistant",
                               "Project: " + context.name + "\nSummary: "
                               + (if context.summary != "" then context.summary else "No summary provided."))];
    }
    assert msg == if context.name != "" then [ProjectHeader(context)] else [];
    if context.agents.Some? && |context.agents.value| > 0 {
      var agents := Keys(context.agents.value);
      ghost var head := msg;
      ghost var ms: seq<LlmMessage> := [];
      for k := 0 to |agents|
        invariant AgentMessages(context, rolesToTake, agents[..k]) == Ok(ms)
        invariant msg == head + ms
      {
        var agent := agents[k];
        AgentMessagesSnoc(context, rolesToTake, agents, k);
        if rolesToTake.Some? && |rolesToTake.value| > 0 && agent !in rolesToTake.value {
          continue;
        }
        var contextLines := ConvertToLines(context, agent);
        if contextLines.Err? {
          ErrorAborts(context, rolesToTake, agents, k + 1);
          assert agents[..|agents|] == agents;
          return Err(contextLines.message);
        }
        var entry := LlmMessage("text", if agent == "USER" then "user" else "assistant", contextLines.value);
        msg := msg + [entry];
        ms := ms + [entry];
      }
      assert agents[..|agents|] == agents;
    }
    return Ok(msg);
  }

  /** One more agent: its message is appended when it is kept and readable. */
  lemma AgentMessagesSnoc(ctx: Context, rolesToTake: Option<seq<string>>, agents: seq<string>, k: nat)
    requires k < |agents|
    ensures AgentMessages(ctx, rolesToTake, agents[..k + 1]) ==
      match AgentMessages(ctx, rolesToTake, agents[..k])
      case Err(e) => Err(e)
      case Ok(ms) =>
        if !Kept(rolesToTake, agents[k]) then Ok(ms)
        else
          match AgentLines(ctx, agents[k])
          case Err(e) => Err(e)
          case Ok(c) => Ok(ms + [LlmMessage("text", TransportRole(agents[k]), c)])
  {
    assert agents[..k + 1][..k] == agents[..k];
  }

  /** Once a prefix of the agents fails, the whole list fails with the same error. */
  lemma {:induction false} ErrorAborts(ctx: Context, rolesToTake: Option<seq<string>>, agents: seq<string>, k: nat)
    requires k <= |agents| && AgentMessages(ctx, rolesToTake, agents[..k]).Err?
    ensures AgentMessages(ctx, rolesToTake, agents) == AgentMessages(ctx, rolesToTake, agents[..k])
    decreases |agents| - k
  {
    if k < |agents| {
      assert agents[..k + 1][..k] == agents[..k];
      ErrorAborts(ctx, rolesToTake, agents, k + 1);
    } else {
      assert agents[..k] == agents;
    }
  }

  /** An agent section is unreadable exactly when that agent's files hold non-empty
      diff text. */
  predicate Unreadable(ctx: Context, agent: string) {
    ctx.agents.Some? && Get(ctx.agents.value, agent).Some? &&
    Get(ctx.agents.value, agent).value.files.Flat? && Get(ctx.agents.value, agent).value.files.text != ""
  }

  lemma AgentLinesErrIff(ctx: Context, agent: string)
    ensures AgentLines(ctx, agent).Err? <==> Unreadable(ctx, agent)
    ensures AgentLines(ctx, agent).Err? ==> AgentLines(ctx, agent).message == UndefinedLength
  {
  }

  /** The agent messages come in the kept agents' order, one each, with the transport
      role `user` exactly for the user's section; building them fails exactly when a kept
      agent's section is unreadable. */
  lemma {:induction false} AgentMessagesShape(ctx: Context, rolesToTake: Option<seq<string>>, agents: seq<string>)
    ensures var kept := KeptAgents(rolesToTake, agents);
      (AgentMessages(ctx, rolesToTake, agents).Err? <==> exists i :: 0 <= i < |kept| && Unreadable(ctx, kept[i]))
      && (AgentMessages(ctx, rolesToTake, agents).Ok? ==>
         var ms := AgentMessages(ctx, rolesToTake, agents).value;
         |ms| == |kept| &&
         forall i :: 0 <= i < |ms| ==>
           ms[i] == LlmMessage("text", TransportRole(kept[i]), AgentLines(ctx, kept[i]).value))
    decreases |agents|
  {
    if agents != [] {
      var front := agents[..|agents| - 1];
      var last := agents[|agents| - 1];
      AgentMessagesShape(ctx, rolesToTake, front);
      AgentLinesErrIff(ctx, last);
      var keptFront := KeptAgents(rolesToTake, front);
      var kept := KeptAgents(rolesToTake, agents);
      if Kept(rolesToTake, last) {
        assert kept == keptFront + [last];
        assert forall i :: 0 <= i < |keptFront| ==> kept[i] == keptFront[i];
        if exists i :: 0 <= i < |keptFront| && Unreadable(ctx, keptFront[i]) {
          var i :| 0 <= i < |keptFront| && Unreadable(ctx, keptFront[i]);
          assert Unreadable(ctx, kept[i]);
        }
        if Unreadable(ctx, last) {
          assert Unreadable(ctx, kept[|kept| - 1]);
        }
      }
    }
  }

  /** The whole conversation: the project header first exactly when the project has a
      name, then the kept agents' sections in key order. */
  lemma ConversationShape(ctx: Context, rolesToTake: Option<seq<string>>)
    ensures var kept := KeptAgents(rolesToTake, AgentKeys(ctx));
            var head := if ctx.name != "" then [ProjectHeader(ctx)] else [];
      (Conversation(ctx, rolesToTake).Err? <==> exists i :: 0 <= i < |kept| && Unreadable(ctx, kept[i]))
      && (Conversation(ctx, rolesToTake).Ok? ==>
         var v := Conversation(ctx, rolesToTake).value;
         |v| == |head| + |kept| && |v| <= |AgentKeys(ctx)| + 1 && v[..|head|] == head &&
         forall i :: 0 <= i < |kept| ==>
           v[|head| + i] == LlmMessage("text", TransportRole(kept[i]), AgentLines(ctx, kept[i]).value))
  {
    var head := if ctx.name != "" then [ProjectHeader(ctx)] else [];
    var am := AgentMessages(ctx, rolesToTake, AgentKeys(ctx));
    ConversationFrom(ctx, rolesToTake);
    AgentMessagesShape(ctx, rolesToTake, AgentKeys(ctx));
    assert Conversation(ctx, rolesToTake).Err? <==> am.Err?;
    if am.Ok? {
      assert Conversation(ctx, rolesToTake).value == head + am.value;
      AfterHead(head, am.value);
    }
  }

  /** The conversation is the header, if any, then the agent messages over all keys. */
  lemma ConversationFrom(ctx: Context, rolesToTake: Option<seq<string>>)
    ensures var head := if ctx.name != "" then [ProjectHeader(ctx)] else [];
      Conversation(ctx, rolesToTake) ==
        match AgentMessages(ctx, rolesToTake, AgentKeys(ctx))
        case Err(e) => Err(e)
        case Ok(ms) => Ok(head + ms)
  {
    if !(ctx.agents.Some? && |ctx.agents.value| > 0) {
      assert AgentKeys(ctx) == [];
      var head := if ctx.name != "" then [ProjectHeader(ctx)] else [];
      assert head + [] == head;
    }
  }

  lemma AfterHead<T>(head: seq<T>, ms: seq<T>)
    ensures (head + ms)[..|head|] == head
    ensures forall i :: 0 <= i < |ms| ==> (head + ms)[|head| + i] == ms[i]
  {
  }

  /** With no `rolesToTake`, or an empty one, every agent is kept. */
  lemma {:induction false} NoFilterKeepsAll(rolesToTake: Option<seq<string>>, agents: seq<string>)
    requires rolesToTake.None? || rolesToTake.value == []
    ensures KeptAgents(rolesToTake, agents) == agents
    decreases |agents|
  {
    if agents != [] {
      NoFilterKeepsAll(rolesToTake, agents[..|agents| - 1]);
      assert agents == agents[..|agents| - 1] + [agents[|agents| - 1]];
    }
  }

  /** A non-empty `rolesToTake` keeps exactly the listed agents (in key order, as
      `KeptAgents` states). */
  lemma {:induction false} FilterKeepsListed(roles: seq<string>, agents: seq<string>)
    requires roles != []
    ensures forall a :: a in KeptAgents(Some(roles), agents) <==> a in agents && a in roles
    decreases |agents|
  {
    if agents != [] {
      var front := agents[..|agents| - 1];
      FilterKeepsListed(roles, front);
      assert agents == front + [agents[|agents| - 1]];
    }
  }
}
