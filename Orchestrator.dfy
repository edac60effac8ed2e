/** The agent chain of the chat (modules/projects/ui/components/MessageContainer.tsx):
    `processNextStep` routes the last message through `getNextAgent` to a handler, and
    the handlers call the agents, create messages, update the shared context and call
    the next handler. The agents' results are inputs (`Workers`). */
module Orchestrator {
  import opened Wrappers
  import opened Assoc
  import opened ContextTypes
  import opened TaggedDiff
  import opened ContextStore
  import opened PromptAssembler
  import opened Routing
  import opened ModelMapper

  datatype FragmentType = Doc | Code

  datatype Fragment = Fragment(kind: FragmentType, files: AList<string, string>, title: string)

  /** A chat message as the handlers create it; `events` is empty where the code sets
      none, and `fragment` is absent on project-manager and user messages. */
  datatype Message = Message(
    content: string,
    role: string,
    inputTokens: int,
    outputTokens: int,
    model: string,
    state: string,
    events: seq<string>,
    fragment: Option<Fragment>)

  /** The project manager's answer: the next state, the project name and summary
      (`''` where absent) and the token counts. */
  datatype PmResult = PmResult(text: string, state: string, name: string, summary: string,
                               inputTokens: int, outputTokens: int)

  /** The business analyst's or system architect's answer (`''` for a missing response). */
  datatype AgentResult = AgentResult(response: string, inputTokens: int, outputTokens: int)

  datatype DevResult = DevResult(files: AList<string, string>, inputTokens: int, outputTokens: int)

  /** One result per agent; `None` is a result on which the handler throws (or, for the
      tester, an undefined result). A chain calls each agent at most once. */
  datatype Workers = Workers(
    pm: Option<PmResult>,
    ba: Option<AgentResult>,
    sa: Option<AgentResult>,
    tester: Option<AList<string, string>>,
    dev: Option<DevResult>)

  /** The calls the handlers make to the agents, with the arguments they pass. */
  datatype Invocation =
    | PmCall(phase: string, conversation: seq<LlmMessage>, model: string)
    | AgentCall(role: string, conversation: seq<LlmMessage>, model: string)
    | TesterCall(prompt: string)
    | DevCall(conversation: seq<LlmMessage>, files: AList<string, string>, tdd: bool, model: string)

  /** What a chain reads but never changes. */
  datatype Env = Env(tdd: bool, modelType: string, diff: LineDiff, workers: Workers)

  /** The state a chain changes: the message list (the parent's, through
      `onCreateMessage`), the context, the developer's merged files, the agent calls made,
      and the two indicators `nextFrom` and `isProcessing`. */
  datatype State = State(
    log: seq<Message>,
    context: Context,
    mergedFiles: AList<string, string>,
    calls: seq<Invocation>,
    nextFrom: string,
    processing: bool)

  /** The handler about to run, with its arguments. */
  datatype Pending =
    | Halt
    | RunPM(prompt: string, phase: string, ctx: Context)
    | RunBA(prompt: string, ctx: Context)
    | RunSA(prompt: string, ctx: Context)
    | RunTester(prompt: string, ctx: Context)
    | RunDev(prompt: string, ctx: Context)

  /** The position of a handler in the chain PM > BA > SA > tester > developer. */
  function Rank(p: Pending): nat {
    match p
    case Halt => 0
    case RunPM(_, _, _) => 5
    case RunBA(_, _) => 4
    case RunSA(_, _) => 3
    case RunTester(_, _) => 2
    case RunDev(_, _) => 1
  }

  function CallRank(c: Invocation): nat {
    match c
    case PmCall(_, _, _) => 5
    case AgentCall(role, _, _) => if role == BUSINESS_ANALYST then 4 else 3
    case TesterCall(_) => 2
    case DevCall(_, _, _, _) => 1
  }

  /** The role of the messages a handler creates. */
  function HandlerRole(p: Pending): string
    requires !p.Halt?
  {
    match p
    case RunPM(_, _, _) => PROJECT_MANAGER
    case RunBA(_, _) => BUSINESS_ANALYST
    case RunSA(_, _) => SYSTEM_ARCHITECT
    case RunTester(_, _) => TESTER
    case RunDev(_, _) => DEVELOPER
  }

  /** Only five of the seven agents have a handler. */
  predicate Handled(n: NextAgent) {
    n.Next? && n.agent != SecurityEngineer && n.agent != DevOps
  }

  /** `processNextStep`: the handler for the message's next agent, given the message
      content as prompt; security engineer, DevOps and invalid pairs halt. */
  function Dispatch(msg: Message, ctx: Context): (p: Pending)
    ensures p.Halt? <==> !Handled(GetNextAgent(msg.role, msg.state))
    ensures !p.Halt? ==> p.prompt == msg.content && p.ctx == ctx
    ensures p.RunPM? <==> GetNextAgent(msg.role, msg.state) == Next(ProjectManager)
    ensures p.RunPM? ==> p.phase == msg.state
    ensures p.RunBA? <==> GetNextAgent(msg.role, msg.state) == Next(BusinessAnalyst)
    ensures p.RunSA? <==> GetNextAgent(msg.role, msg.state) == Next(SystemArchitect)
    ensures p.RunTester? <==> GetNextAgent(msg.role, msg.state) == Next(Tester)
    ensures p.RunDev? <==> GetNextAgent(msg.role, msg.state) == Next(Developer)
    ensures msg.role != USER ==> Rank(p) < 5
  {
    match GetNextAgent(msg.role, msg.state)
    case Next(ProjectManager) => RunPM(msg.content, msg.state, ctx)
    case Next(BusinessAnalyst) => RunBA(msg.content, ctx)
    case Next(SystemArchitect) => RunSA(msg.content, ctx)
    case Next(Tester) => RunTester(msg.content, ctx)
    case Next(Developer) => RunDev(msg.content, ctx)
    case Next(SecurityEngineer) => Halt
    case Next(DevOps) => Halt
    case InvalidRoleOrState => Halt
  }

  /** `updateInfo`: the context with `projectName` and `projectSummary` set. */
  function UpdateInfo(name: string, summary: string, ctx: Context): (r: Context)
    ensures r.name == ctx.name && r.summary == ctx.summary && r.agents == ctx.agents
    ensures r.projectName == Some(name) && r.projectSummary == Some(summary)
  {
    ctx.(projectName := Some(name), projectSummary := Some(summary))
  }

  function PmMessage(env: Env, res: PmResult): Message {
    Message(res.text, PROJECT_MANAGER, res.inputTokens, res.outputTokens, ModelFor(env.modelType, Think), res.state,
            if res.name != "" then ["Updated project name to \"" + res.name + "\"", "Updated project summary"] else [],
            None)
  }

  const BA_CONTENT := "@sys_arch here's the requirement. Design the system architecture and define the key modules."
  const SA_CONTENT := "@dev here's the system design. Implement it as a complete NPM package."
  const DEV_CONTENT := "@security_engineer code is ready. Review for security issues and vulnerabilities."

  function BaMessage(env: Env, res: AgentResult): Message {
    Message(BA_CONTENT, BUSINESS_ANALYST, res.inputTokens, res.outputTokens, ModelFor(env.modelType, Think), "DESIGN", [],
            Some(Fragment(Doc, [("Analysis Report", res.response)], "Analysis Report")))
  }

  function SaMessage(env: Env, res: AgentResult): Message {
    Message(SA_CONTENT, SYSTEM_ARCHITECT, res.inputTokens, res.outputTokens, ModelFor(env.modelType, Think),
            if env.tdd then "TEST" else "CODE", [],
            Some(Fragment(Doc, [("System Architecture", res.response)], "System Architecture")))
  }

  function TesterMessage(files: AList<string, string>): Message {
    Message("", TESTER, 0, 0, "", "CODE", [], Some(Fragment(Code, files, "Code")))
  }

  function DevMessage(env: Env, res: DevResult, files: AList<string, string>): Message {
    Message(DEV_CONTENT, DEVELOPER, res.inputTokens, res.outputTokens, ModelFor(env.modelType, Dev),
            if env.tdd then "RETEST" else "REVIEW", [], Some(Fragment(Code, files, "Code")))
  }

  function UserMessage(content: string, modelType: string): Message {
    Message(content, USER, 0, 0, modelType, "REVISE", [], None)
  }

  /** `handlePM` up to its call of `processNextStep`: a failing prompt build or result
      ends in the catch; otherwise the message is created, the context records the
      text, and the chain goes on only when the answer used input tokens. */
  function StepPM(env: Env, phase: string, ctx: Context, s: State): (r: (Pending, State))
    ensures Rank(r.0) < 5
  {
    var s1 := s.(processing := true, nextFrom := PROJECT_MANAGER);
    match Conversation(ctx, None)
    case Err(_) => (Halt, s1)
    case Ok(conv) =>
      var s2 := s1.(calls := s1.calls + [PmCall(phase, conv, ModelFor(env.modelType, Think))]);
      match env.workers.pm
      case None => (Halt, s2)
      case Some(res) => PmAnswer(env, phase, ctx, s2, res)
  }

  /** What `handlePM` does with the manager's answer: `updateInfo` in phase INIT, the
      message, then the context update. */
  function PmAnswer(env: Env, phase: string, ctx: Context, s: State, res: PmResult): (r: (Pending, State))
    ensures Rank(r.0) < 5
  {
    var s1 := if phase == "INIT" then s.(context := UpdateInfo(res.name, res.summary, ctx)) else s;
    PmRecord(env, ctx, s1.(log := s1.log + [PmMessage(env, res)]), res)
  }

  /** The end of `handlePM`. A throwing `updateContext` leaves the handler for its
      `catch`: nothing is committed to the context, and no successor runs. */
  function PmRecord(env: Env, ctx: Context, s: State, res: PmResult): (r: (Pending, State))
    ensures Rank(r.0) < 5
    ensures HoldsSnapshot(ctx, PROJECT_MANAGER) ==> r == (Halt, s)
    ensures !HoldsSnapshot(ctx, PROJECT_MANAGER) ==>
      r.1.context.agents.Some? && Get(r.1.context.agents.value, PROJECT_MANAGER).Some? &&
      Get(r.1.context.agents.value, PROJECT_MANAGER).value.text == res.text
  {
    match UpdateContext(res.text, PROJECT_MANAGER, [], ctx, env.diff)
    case Err(_) => (Halt, s)
    case Ok(updated) => (PmNext(res.inputTokens > 0, PmMessage(env, res), updated), s.(context := updated))
  }

  lemma PmRecordCases(env: Env, ctx: Context, s: State, res: PmResult, u: Result<Context>)
    requires u == UpdateContext(res.text, PROJECT_MANAGER, [], ctx, env.diff)
    ensures PmRecord(env, ctx, s, res)
      == if u.Err? then (Halt, s) else (PmNext(res.inputTokens > 0, PmMessage(env, res), u.value), s.(context := u.value))
  {
  }

  /** The manager's message is routed on only when the answer used input tokens. */
  function PmNext(used: bool, msg: Message, ctx: Context): (p: Pending)
    ensures used ==> p == Dispatch(msg, ctx)
    ensures !used ==> p.Halt?
    ensures msg.role != USER ==> Rank(p) < 5
  {
    if used then Dispatch(msg, ctx) else Halt
  }

  function StepBA(env: Env, ctx: Context, s: State): (r: (Pending, State))
    ensures r.0.Halt? || r.0.RunSA?
    ensures Rank(r.0) < 4
  {
    var s1 := s.(processing := true, nextFrom := BUSINESS_ANALYST);
    match Conversation(ctx, None)
    case Err(_) => (Halt, s1)
    case Ok(conv) =>
      var s2 := s1.(calls := s1.calls + [AgentCall(BUSINESS_ANALYST, conv, ModelFor(env.modelType, Think))]);
      match env.workers.ba
      case None => (Halt, s2)
      case Some(res) => BaAnswer(env, ctx, s2, res)
  }

  /** What `handleBusinessAnalyst` does with the analyst's answer; a throwing
      `updateContext` goes to the `catch` with the message logged. */
  function BaAnswer(env: Env, ctx: Context, s: State, res: AgentResult): (r: (Pending, State))
    ensures r.0.Halt? || r.0.RunSA?
    ensures Rank(r.0) < 4
  {
    BaRecord(env, ctx, s.(log := s.log + [BaMessage(env, res)]), res)
  }

  /** The end of `handleBusinessAnalyst`: the context update, then the successor. */
  function BaRecord(env: Env, ctx: Context, s: State, res: AgentResult): (r: (Pending, State))
    ensures r.0.Halt? || r.0.RunSA?
    ensures Rank(r.0) < 4
    ensures HoldsSnapshot(ctx, BUSINESS_ANALYST) ==> r == (Halt, s)
    ensures !HoldsSnapshot(ctx, BUSINESS_ANALYST) ==> r.1.context.agents.Some? && Get(r.1.context.agents.value, BUSINESS_ANALYST).Some?
  {
    match UpdateContext("", BUSINESS_ANALYST, [("Analysis Report", res.response)], ctx, env.diff)
    case Err(_) => (Halt, s)
    case Ok(updated) => (BaNext(res.response, updated), s.(context := updated))
  }

  lemma BaRecordCases(env: Env, ctx: Context, s: State, res: AgentResult, u: Result<Context>)
    requires u == UpdateContext("", BUSINESS_ANALYST, [("Analysis Report", res.response)], ctx, env.diff)
    ensures BaRecord(env, ctx, s, res) == if u.Err? then (Halt, s) else (BaNext(res.response, u.value), s.(context := u.value))
  {
  }

  /** The analyst hands a non-empty response on to the architect. */
  function BaNext(response: string, ctx: Context): (p: Pending)
    ensures p.Halt? <==> response == ""
    ensures p.RunSA? ==> p == RunSA(response, ctx)
    ensures Rank(p) < 4
  {
    if response != "" then RunSA(response, ctx) else Halt
  }

  function StepSA(env: Env, ctx: Context, s: State): (r: (Pending, State))
    ensures r.0.Halt? || r.0.RunTester?
    ensures Rank(r.0) < 3
  {
    var s1 := s.(processing := true, nextFrom := SYSTEM_ARCHITECT);
    match Conversation(ctx, None)
    case Err(_) => (Halt, s1)
    case Ok(conv) =>
      var s2 := s1.(calls := s1.calls + [AgentCall(SYSTEM_ARCHITECT, conv, ModelFor(env.modelType, Think))]);
      match env.workers.sa
      case None => (Halt, s2)
      case Some(res) => SaAnswer(env, ctx, s2, res)
  }

  /** What `handleSystemArchitect` does with the architect's answer; a throwing
      `updateContext` goes to the `catch` with the message logged. */
  function SaAnswer(env: Env, ctx: Context, s: State, res: AgentResult): (r: (Pending, State))
    ensures r.0.Halt? || r.0.RunTester?
    ensures Rank(r.0) < 3
  {
    SaRecord(env, ctx, s.(log := s.log + [SaMessage(env, res)]), res)
  }

  /** The end of `handleSystemArchitect`: the context update, then the successor. */
  function SaRecord(env: Env, ctx: Context, s: State, res: AgentResult): (r: (Pending, State))
    ensures r.0.Halt? || r.0.RunTester?
    ensures Rank(r.0) < 3
    ensures HoldsSnapshot(ctx, SYSTEM_ARCHITECT) ==> r == (Halt, s)
    ensures !HoldsSnapshot(ctx, SYSTEM_ARCHITECT) ==> r.1.context.agents.Some? && Get(r.1.context.agents.value, SYSTEM_ARCHITECT).Some?
  {
    match UpdateContext("", SYSTEM_ARCHITECT, [("System Architecture", res.response)], ctx, env.diff)
    case Err(_) => (Halt, s)
    case Ok(updated) => (SaNext(res.response, updated), s.(context := updated))
  }

  lemma SaRecordCases(env: Env, ctx: Context, s: State, res: AgentResult, u: Result<Context>)
    requires u == UpdateContext("", SYSTEM_ARCHITECT, [("System Architecture", res.response)], ctx, env.diff)
    ensures SaRecord(env, ctx, s, res) == if u.Err? then (Halt, s) else (SaNext(res.response, u.value), s.(context := u.value))
  {
  }

  /** The architect hands a non-empty response on to the tester handler. */
  function SaNext(response: string, ctx: Context): (p: Pending)
    ensures p.Halt? <==> response == ""
    ensures p.RunTester? ==> p == RunTester(response, ctx)
    ensures Rank(p) < 3
  {
    if response != "" then RunTester(response, ctx) else Halt
  }

  /** With test-driven development off the tester is skipped entirely. */
  function StepTester(env: Env, prompt: string, ctx: Context, s: State): (r: (Pending, State))
    ensures r.0.Halt? || r.0 == RunDev(prompt, ctx)
    ensures Rank(r.0) < 2
  {
    if !env.tdd then (RunDev(prompt, ctx), s)
    else
      var s1 := s.(processing := true, nextFrom := TESTER, calls := s.calls + [TesterCall(prompt)]);
      var files := env.workers.tester.GetOr([]);
      (if env.workers.tester.Some? then RunDev(prompt, ctx) else Halt, s1.(log := s1.log + [TesterMessage(files)]))
  }

  /** The developer's files are merged into `mergedFiles` before the result is read, so
      even a throwing result leaves the (unchanged) merge committed; the chain always
      stops here. */
  function StepDev(env: Env, ctx: Context, s: State): (r: (Pending, State))
    ensures r.0.Halt?
  {
    var s1 := s.(processing := true, nextFrom := DEVELOPER);
    match Conversation(ctx, None)
    case Err(_) => (Halt, s1)
    case Ok(conv) =>
      (Halt, DevCommit(env, ctx, s1.(calls := s1.calls + [DevCall(conv, s.mergedFiles, env.tdd, ModelFor(env.modelType, Dev))])))
  }

  /** What follows the developer's call: the merge, then, on a result, its message and
      the context update. */
  function DevCommit(env: Env, ctx: Context, s: State): State {
    var newFiles := if env.workers.dev.Some? then env.workers.dev.value.files else [];
    var updated := PutAll(s.mergedFiles, newFiles);
    match env.workers.dev
    case None => s.(mergedFiles := updated)
    case Some(res) => DevRecord(env, ctx, s.(mergedFiles := updated, log := s.log + [DevMessage(env, res, updated)]), updated)
  }

  /** The end of `handleDev`: the developer's files recorded in the context, which a
      throwing `updateContext` skips. */
  function DevRecord(env: Env, ctx: Context, s: State, files: AList<string, string>): (r: State)
    ensures HoldsSnapshot(ctx, DEVELOPER) ==> r == s
    ensures !HoldsSnapshot(ctx, DEVELOPER) ==> r.context.agents.Some? && Get(r.context.agents.value, DEVELOPER).Some?
  {
    match UpdateContext("", DEVELOPER, files, ctx, env.diff)
    case Err(_) => s
    case Ok(c) => s.(context := c)
  }

  function Step(env: Env, p: Pending, s: State): (r: (Pending, State))
    requires !p.Halt?
    ensures Rank(r.0) < Rank(p)
  {
    if p.RunPM? then StepPM(env, p.phase, p.ctx, s)
    else if p.RunBA? then StepBA(env, p.ctx, s)
    else if p.RunSA? then StepSA(env, p.ctx, s)
    else if p.RunTester? then StepTester(env, p.prompt, p.ctx, s)
    else StepDev(env, p.ctx, s)
  }

  /** A whole chain; every handler's `finally` clears `isProcessing` once the handlers it
      called have returned. */
  function Run(env: Env, p: Pending, s: State): State
    decreases Rank(p)
  {
    if p.Halt? then s
    else
      var (p', s') := Step(env, p, s);
      Run(env, p', s').(processing := false)
  }

  /** One step of a chain, then the rest of it. */
  lemma RunOneStep(env: Env, p: Pending, s: State)
    requires !p.Halt?
    ensures Run(env, p, s) == Run(env, Step(env, p, s).0, Step(env, p, s).1).(processing := false)
  {
  }

  /** A developer step is the whole chain it starts. */
  lemma RunDevUnfold(env: Env, prompt: string, ctx: Context, s: State)
    ensures Run(env, RunDev(prompt, ctx), s) == StepDev(env, ctx, s).1.(processing := false)
  {
  }

  /** `handleSend` on non-empty input: the user message, the user's text recorded in
      the context, then the project manager in phase REVISE. `handleSend` has no
      `catch`: a throwing `updateContext` leaves it with only the message logged. */
  function SendRun(env: Env, content: string, s: State): State {
    var s1 := s.(log := s.log + [UserMessage(content, env.modelType)]);
    match UpdateContext(content, USER, [], s.context, env.diff)
    case Err(_) => s1
    case Ok(ctx) => Run(env, RunPM(content, "REVISE", ctx), s1.(context := ctx))
  }

  /** `SendRun` by the outcome of recording the user's text. */
  lemma SendRunCases(env: Env, content: string, s: State, u: Result<Context>)
    requires u == UpdateContext(content, USER, [], s.context, env.diff)
    ensures u.Err? ==> SendRun(env, content, s) == s.(log := s.log + [UserMessage(content, env.modelType)])
    ensures u.Ok? ==>
      SendRun(env, content, s) == Run(env, RunPM(content, "REVISE", u.value), s.(log := s.log + [UserMessage(content, env.modelType)], context := u.value))
  {
  }

  /** The last message satisfying a role test, as `findLast` finds it. */
  function FindLast(log: seq<Message>, user: bool): (r: Option<Message>)
    ensures r.None? <==> forall i :: 0 <= i < |log| ==> (log[i].role == USER) != user
    ensures r.Some? ==> exists i :: 0 <= i < |log| && log[i] == r.value && (log[i].role == USER) == user &&
                          forall j :: i < j < |log| ==> (log[j].role == USER) != user
  {
    if log == [] then None
    else if (log[|log| - 1].role == USER) == user then Some(log[|log| - 1])
    else FindLast(log[..|log| - 1], user)
  }

  function FindLastDev(log: seq<Message>): (r: Option<Message>)
    ensures r.None? <==> forall i :: 0 <= i < |log| ==> log[i].role != DEVELOPER
    ensures r.Some? ==> exists i :: 0 <= i < |log| && log[i] == r.value && log[i].role == DEVELOPER &&
                          forall j :: i < j < |log| ==> log[j].role != DEVELOPER
  {
    if log == [] then None
    else if log[|log| - 1].role == DEVELOPER then Some(log[|log| - 1])
    else FindLastDev(log[..|log| - 1])
  }

  class ChatSession {
    var log: seq<Message>
    var context: Context
    var mergedFiles: AList<string, string>
    var calls: seq<Invocation>
    var nextFrom: string
    var isProcessing: bool
    var inputValue: string
    var modelType: string
    var hasProcessedInitialMessage: bool
    /** The fragment last passed to `onFragmentClicked`. */
    var activeFragment: Option<Fragment>
    const tddEnabled: bool
    const diffLines: LineDiff
    const workers: Workers

    /** The component's initial state. */
    constructor(messages: seq<Message>, projectContext: Context, tdd: bool, diffLines: LineDiff, workers: Workers)
      ensures log == messages && context == projectContext && mergedFiles == [] && calls == []
      ensures nextFrom == BUSINESS_ANALYST && !isProcessing && inputValue == "" && modelType == "MID"
      ensures !hasProcessedInitialMessage && activeFragment == None
      ensures tddEnabled == tdd && this.diffLines == diffLines && this.workers == workers
    {
      log := messages;
      context := projectContext;
      mergedFiles := [];
      calls := [];
      nextFrom := BUSINESS_ANALYST;
      isProcessing := false;
      inputValue := "";
      modelType := "MID";
      hasProcessedInitialMessage := false;
      activeFragment := None;
      tddEnabled := tdd;
      this.diffLines := diffLines;
      this.workers := workers;
    }

    function Environment(): Env
      reads this`modelType
    {
      Env(tddEnabled, modelType, diffLines, workers)
    }

    function Snapshot(): State
      reads this`log, this`context, this`mergedFiles, this`calls, this`nextFrom, this`isProcessing
    {
      State(log, context, mergedFiles, calls, nextFrom, isProcessing)
    }

    /** The fields a chain leaves alone. */
    function Ui(): (string, string, bool, Option<Fragment>)
      reads this`inputValue, this`modelType, this`hasProcessedInitialMessage, this`activeFragment
    {
      (inputValue, modelType, hasProcessedInitialMessage, activeFragment)
    }

    method ProcessNextStep(lastMessage: Option<Message>, currentContext: Context)
      modifies this
      decreases if lastMessage.Some? then Rank(Dispatch(lastMessage.value, currentContext)) else 0, 1
      ensures lastMessage.None? ==> Snapshot() == old(Snapshot())
      ensures lastMessage.Some? ==>
        Snapshot() == Run(old(Environment()), Dispatch(lastMessage.value, currentContext), old(Snapshot()))
      ensures Ui() == old(Ui())
    {
      if lastMessage.None? {
        return;
      }
      var message := lastMessage.value;
      var nextAgent := GetNextAgent(message.role, message.state);
      match nextAgent {
        case Next(ProjectManager) => HandlePM(message.content, message.state, currentContext);
        case Next(BusinessAnalyst) => HandleBusinessAnalyst(message.content, currentContext);
        case Next(SystemArchitect) => HandleSystemArchitect(message.content, currentContext);
        case Next(Tester) => HandleTester(message.content, currentContext);
        case Next(Developer) => HandleDev(message.content, currentContext);
        case Next(SecurityEngineer) =>
        case Next(DevOps) =>
        case InvalidRoleOrState =>
      }
    }

    method HandlePM(prompt: string, state: string, currentContext: Context)
      modifies this
      decreases 5, 0
      ensures Snapshot() == Run(old(Environment()), RunPM(prompt, state, currentContext), old(Snapshot()))
      ensures Ui() == old(Ui())
    {
      RunOneStep(Environment(), RunPM(prompt, state, currentContext), Snapshot());
      var message, updatedContext := CallPM(state, currentContext);
      if message.Some? {
        ProcessNextStep(message, updatedContext);
      }
      isProcessing := false;
    }

    /** `handlePM` up to its call of `processNextStep`: the message to route next, when
        the answer used input tokens, and the context to route it with. */
    method CallPM(state: string, currentContext: Context) returns (next: Option<Message>, updatedContext: Context)
      modifies this
      ensures StepPM(old(Environment()), state, currentContext, old(Snapshot()))
           == (if next.Some? then Dispatch(next.value, updatedContext) else Halt, Snapshot())
      ensures next.Some? ==> next.value.role == PROJECT_MANAGER
      ensures Ui() == old(Ui())
    {
      next := None;
      updatedContext := currentContext;
      isProcessing := true;
      nextFrom := PROJECT_MANAGER;
      var conversation := ConvertToOpenAIFormatWithFilter(currentContext, None);
      if conversation.Err? {
        return;
      }
      calls := calls + [PmCall(state, conversation.value, ModelFor(modelType, Think))];
      if workers.pm.None? {
        return;
      }
      next, updatedContext := AnswerPM(state, workers.pm.value, currentContext);
    }

    /** The rest of `handlePM`, on the manager's answer. */
    method AnswerPM(state: string, res: PmResult, currentContext: Context) returns (next: Option<Message>, updatedContext: Context)
      modifies this
      ensures PmAnswer(old(Environment()), state, currentContext, old(Snapshot()), res)
           == (if next.Some? then Dispatch(next.value, updatedContext) else Halt, Snapshot())
      ensures next.Some? ==> next.value.role == PROJECT_MANAGER
      ensures Ui() == old(Ui())
    {
      next := None;
      if state == "INIT" {
        context := UpdateInfo(res.name, res.summary, currentContext);
      }
      var message := Message(res.text, PROJECT_MANAGER, res.inputTokens, res.outputTokens,
                             ModelFor(modelType, Think), res.state, [], None);
      if res.name != "" {
        message := message.(events := ["Updated project name to \"" + res.name + "\"", "Updated project summary"]);
      }
      log := log + [message];
      assert message == PmMessage(old(Environment()), res);
      next, updatedContext := RecordPM(res, message, currentContext);
    }

    /** The end of `handlePM`: the context update, and the manager's message as the next
        step when the answer used input tokens. */
    method RecordPM(res: PmResult, message: Message, currentContext: Context)
      returns (next: Option<Message>, updatedContext: Context)
      requires message == PmMessage(Environment(), res)
      modifies this
      ensures PmRecord(old(Environment()), currentContext, old(Snapshot()), res)
           == (if next.Some? then Dispatch(next.value, updatedContext) else Halt, Snapshot())
      ensures next.Some? ==> next.value.role == PROJECT_MANAGER
      ensures Ui() == old(Ui())
    {
      next := None;
      updatedContext := currentContext;
      var updated := UpdateContext(res.text, PROJECT_MANAGER, [], currentContext, diffLines);
      PmRecordCases(old(Environment()), currentContext, old(Snapshot()), res, updated);
      if updated.Err? {
        // `updateContext` threw: on to the `catch`
        return;
      }
      updatedContext := updated.value;
      context := updatedContext;
      if res.inputTokens > 0 {
        next := Some(message);
      }
    }

    method HandleBusinessAnalyst(prompt: string, currentContext: Context)
      modifies this
      decreases 4, 0
      ensures Snapshot() == Run(old(Environment()), RunBA(prompt, currentContext), old(Snapshot()))
      ensures Ui() == old(Ui())
    {
      RunOneStep(Environment(), RunBA(prompt, currentContext), Snapshot());
      var next := CallBusinessAnalyst(currentContext);
      if next.RunSA? {
        HandleSystemArchitect(next.prompt, next.ctx);
      }
      isProcessing := false;
    }

    /** `handleBusinessAnalyst` up to its call of `handleSystemArchitect`, which it makes
        with the response and the updated context when the response is not empty. */
    method CallBusinessAnalyst(currentContext: Context) returns (next: Pending)
      modifies this
      ensures StepBA(old(Environment()), currentContext, old(Snapshot())) == (next, Snapshot())
      ensures Ui() == old(Ui())
    {
      next := Halt;
      isProcessing := true;
      nextFrom := BUSINESS_ANALYST;
      var conversation := ConvertToOpenAIFormatWithFilter(currentContext, None);
      if conversation.Err? {
        return;
      }
      calls := calls + [AgentCall(BUSINESS_ANALYST, conversation.value, ModelFor(modelType, Think))];
      if workers.ba.None? {
        return;
      }
      next := AnswerBusinessAnalyst(workers.ba.value, currentContext);
    }

    /** The rest of `handleBusinessAnalyst`, on the analyst's answer. */
    method AnswerBusinessAnalyst(res: AgentResult, currentContext: Context) returns (next: Pending)
      modifies this
      ensures BaAnswer(old(Environment()), currentContext, old(Snapshot()), res) == (next, Snapshot())
      ensures Ui() == old(Ui())
    {
      var files := [("Analysis Report", res.response)];
      log := log + [Message(BA_CONTENT, BUSINESS_ANALYST, res.inputTokens, res.outputTokens, ModelFor(modelType, Think),
                            "DESIGN", [], Some(Fragment(Doc, files, "Analysis Report")))];
      next := RecordBusinessAnalyst(res, currentContext);
    }

    /** The end of `handleBusinessAnalyst`. */
    method RecordBusinessAnalyst(res: AgentResult, currentContext: Context) returns (next: Pending)
      modifies this
      ensures BaRecord(old(Environment()), currentContext, old(Snapshot()), res) == (next, Snapshot())
      ensures Ui() == old(Ui())
    {
      next := Halt;
      var updated := UpdateContext("", BUSINESS_ANALYST, [("Analysis Report", res.response)], currentContext, diffLines);
      BaRecordCases(old(Environment()), currentContext, old(Snapshot()), res, updated);
      if updated.Err? {
        // `updateContext` threw: on to the `catch`
        return;
      }
      var updatedContext := updated.value;
      context := updatedContext;
      if res.response != "" {
        next := RunSA(res.response, updatedContext);
      }
    }

    method HandleSystemArchitect(prompt: string, currentContext: Context)
      modifies this
      decreases 3, 0
      ensures Snapshot() == Run(old(Environment()), RunSA(prompt, currentContext), old(Snapshot()))
      ensures Ui() == old(Ui())
    {
      RunOneStep(Environment(), RunSA(prompt, currentContext), Snapshot());
      var next := CallSystemArchitect(currentContext);
      if next.RunTester? {
        HandleTester(next.prompt, next.ctx);
      }
      isProcessing := false;
    }

    /** `handleSystemArchitect` up to its call of `handleTester`, which it makes with the
        response and the updated context when the response is not empty. */
    method CallSystemArchitect(currentContext: Context) returns (next: Pending)
      modifies this
      ensures StepSA(old(Environment()), currentContext, old(Snapshot())) == (next, Snapshot())
      ensures Ui() == old(Ui())
    {
      next := Halt;
      isProcessing := true;
      nextFrom := SYSTEM_ARCHITECT;
      var conversation := ConvertToOpenAIFormatWithFilter(currentContext, None);
      if conversation.Err? {
        return;
      }
      calls := calls + [AgentCall(SYSTEM_ARCHITECT, conversation.value, ModelFor(modelType, Think))];
      if workers.sa.None? {
        return;
      }
      next := AnswerSystemArchitect(workers.sa.value, currentContext);
    }

    /** The rest of `handleSystemArchitect`, on the architect's answer. */
    method AnswerSystemArchitect(res: AgentResult, currentContext: Context) returns (next: Pending)
      modifies this
      ensures SaAnswer(old(Environment()), currentContext, old(Snapshot()), res) == (next, Snapshot())
      ensures Ui() == old(Ui())
    {
      var files := [("System Architecture", res.response)];
      log := log + [Message(SA_CONTENT, SYSTEM_ARCHITECT, res.inputTokens, res.outputTokens, ModelFor(modelType, Think),
                            if tddEnabled then "TEST" else "CODE", [], Some(Fragment(Doc, files, "System Architecture")))];
      next := RecordSystemArchitect(res, currentContext);
    }

    /** The end of `handleSystemArchitect`. */
    method RecordSystemArchitect(res: AgentResult, currentContext: Context) returns (next: Pending)
      modifies this
      ensures SaRecord(old(Environment()), currentContext, old(Snapshot()), res) == (next, Snapshot())
      ensures Ui() == old(Ui())
    {
      next := Halt;
      var updated := UpdateContext("", SYSTEM_ARCHITECT, [("System Architecture", res.response)], currentContext, diffLines);
      SaRecordCases(old(Environment()), currentContext, old(Snapshot()), res, updated);
      if updated.Err? {
        // `updateContext` threw: on to the `catch`
        return;
      }
      var updatedContext := updated.value;
      context := updatedContext;
      if res.response != "" {
        next := RunTester(res.response, updatedContext);
      }
    }

    method HandleTester(prompt: string, currentContext: Context)
      modifies this
      decreases 2, 0
      ensures Snapshot() == Run(old(Environment()), RunTester(prompt, currentContext), old(Snapshot()))
      ensures Ui() == old(Ui())
    {
      if tddEnabled {
        isProcessing := true;
        nextFrom := TESTER;
        calls := calls + [TesterCall(prompt)];
        var testerRes := workers.tester;
        log := log + [Message("", TESTER, 0, 0, "", "CODE", [], Some(Fragment(Code, testerRes.GetOr([]), "Code")))];
        if testerRes.Some? {
          HandleDev(prompt, currentContext);
        }
      } else {
        HandleDev(prompt, currentContext);
      }
      isProcessing := false;
    }

    method HandleDev(prompt: string, currentContext: Context)
      modifies this
      decreases 1, 0
      ensures Snapshot() == Run(old(Environment()), RunDev(prompt, currentContext), old(Snapshot()))
      ensures Ui() == old(Ui())
    {
      RunDevUnfold(Environment(), prompt, currentContext, Snapshot());
      isProcessing := true;
      nextFrom := DEVELOPER;
      var conversation := ConvertToOpenAIFormatWithFilter(currentContext, None);
      if conversation.Err? {
        isProcessing := false;
        return;
      }
      calls := calls + [DevCall(conversation.value, mergedFiles, tddEnabled, ModelFor(modelType, Dev))];
      MergeDevResult(currentContext);
      isProcessing := false;
    }

    /** The part of `handleDev` after the developer's call. */
    method MergeDevResult(currentContext: Context)
      modifies this
      ensures Snapshot() == DevCommit(old(Environment()), currentContext, old(Snapshot()))
      ensures Ui() == old(Ui())
    {
      var devRes := workers.dev;
      var newFiles := if devRes.Some? then devRes.value.files else [];
      var updatedFiles := PutAll(mergedFiles, newFiles);
      mergedFiles := updatedFiles;
      if devRes.None? {
        return;
      }
      log := log + [Message(DEV_CONTENT, DEVELOPER, devRes.value.inputTokens, devRes.value.outputTokens,
                            ModelFor(modelType, Dev), if tddEnabled then "RETEST" else "REVIEW", [],
                            Some(Fragment(Code, updatedFiles, "Code")))];
      RecordDev(updatedFiles, currentContext);
    }

    /** The end of `handleDev`. */
    method RecordDev(updatedFiles: AList<string, string>, currentContext: Context)
      modifies this
      ensures Snapshot() == DevRecord(old(Environment()), currentContext, old(Snapshot()), updatedFiles)
      ensures Ui() == old(Ui())
    {
      var updated := UpdateContext("", DEVELOPER, updatedFiles, currentContext, diffLines);
      if updated.Err? {
        // `updateContext` threw: on to the `catch`
        return;
      }
      context := updated.value;
    }

    method HandleSend()
      modifies this
      ensures old(inputValue) == "" ==> Snapshot() == old(Snapshot()) && inputValue == ""
      ensures old(inputValue) != "" ==>
        inputValue == "" && Snapshot() == SendRun(old(Environment()), old(inputValue), old(Snapshot()))
      ensures modelType == old(modelType) && hasProcessedInitialMessage == old(hasProcessedInitialMessage)
      ensures activeFragment == old(activeFragment)
    {
      if inputValue == "" {
        return;
      }
      var messageContent := inputValue;
      inputValue := "";
      SendMessage(messageContent);
    }

    /** The part of `handleSend` after the input is cleared. */
    method SendMessage(messageContent: string)
      modifies this
      ensures Snapshot() == SendRun(old(Environment()), messageContent, old(Snapshot()))
      ensures Ui() == old(Ui())
    {
      ghost var env, s := Environment(), Snapshot();
      log := log + [Message(messageContent, USER, 0, 0, modelType, "REVISE", [], None)];
      ghost var s1 := s.(log := s.log + [UserMessage(messageContent, env.modelType)]);
      assert Snapshot() == s1;
      var updated := UpdateContext(messageContent, USER, [], context, diffLines);
      SendRunCases(env, messageContent, s, updated);
      if updated.Err? {
        // `updateContext` threw, and `handleSend` has no `catch`
        return;
      }
      context := updated.value;
      assert Snapshot() == s1.(context := updated.value);
      HandlePM(messageContent, "REVISE", updated.value);
    }

    /** The mount effect: the last message is routed once, when there is one. */
    method Mount()
      modifies this
      ensures old(hasProcessedInitialMessage) || old(log) == [] ==>
        Snapshot() == old(Snapshot()) && hasProcessedInitialMessage == old(hasProcessedInitialMessage)
      ensures !old(hasProcessedInitialMessage) && old(log) != [] ==>
        hasProcessedInitialMessage &&
        Snapshot() == Run(old(Environment()), Dispatch(old(log)[|old(log)| - 1], old(context)), old(Snapshot()))
      ensures inputValue == old(inputValue) && modelType == old(modelType) && activeFragment == old(activeFragment)
    {
      if hasProcessedInitialMessage {
        return;
      }
      if log == [] {
        return;
      }
      ProcessNextStep(Some(log[|log| - 1]), context);
      hasProcessedInitialMessage := true;
    }

    /** The two effects on a new message list: the developer's last files become the
        merged files, the model tier follows the last user message (`''` when there is
        none, which selects the mid tier), and the last assistant fragment is shown. */
    method OnMessagesChanged()
      modifies this
      ensures FindLastDev(log).Some? && FindLastDev(log).value.fragment.Some? ==>
        mergedFiles == FindLastDev(log).value.fragment.value.files
      ensures !(FindLastDev(log).Some? && FindLastDev(log).value.fragment.Some?) ==> mergedFiles == old(mergedFiles)
      ensures modelType == if FindLast(log, true).Some? then FindLast(log, true).value.model else ""
      ensures FindLast(log, false).Some? && FindLast(log, false).value.fragment.Some? ==>
        activeFragment == FindLast(log, false).value.fragment
      ensures !(FindLast(log, false).Some? && FindLast(log, false).value.fragment.Some?) ==> activeFragment == old(activeFragment)
      ensures log == old(log) && context == old(context) && calls == old(calls) && nextFrom == old(nextFrom)
      ensures isProcessing == old(isProcessing) && inputValue == old(inputValue)
      ensures hasProcessedInitialMessage == old(hasProcessedInitialMessage)
    {
      var lastDevMsg := FindLastDev(log);
      if lastDevMsg.Some? && lastDevMsg.value.fragment.Some? {
        mergedFiles := lastDevMsg.value.fragment.value.files;
      }
      var lastAssistantMessage := FindLast(log, false);
      var lastUserMessage := FindLast(log, true);
      modelType := if lastUserMessage.Some? then lastUserMessage.value.model else "";
      if lastAssistantMessage.Some? && lastAssistantMessage.value.fragment.Some? {
        activeFragment := lastAssistantMessage.value.fragment;
      }
    }
  }
}
