/** Properties of the agent chain of MessageContainer.tsx, stated on the chain function
    `Run` that the handler methods are proved to follow. */
module ChainProperties {
  import opened Wrappers
  import opened Assoc
  import opened ContextTypes
  import opened TaggedDiff
  import opened ContextStore
  import opened PromptAssembler
  import opened Routing
  import opened ModelMapper
  import opened Orchestrator

  /** Agent calls ranked no higher than `bound`, in strictly descending rank. */
  predicate Descending(cs: seq<Invocation>, bound: nat) {
    (forall i :: 0 <= i < |cs| ==> CallRank(cs[i]) <= bound) &&
    (forall i, j :: 0 <= i < j < |cs| ==> CallRank(cs[i]) > CallRank(cs[j]))
  }

  /** The name, summary, version and project information of two contexts agree. */
  predicate SameInfo(a: Context, b: Context) {
    a.name == b.name && a.summary == b.summary && a.version == b.version &&
    a.projectName == b.projectName && a.projectSummary == b.projectSummary
  }

  /** `s'` is `s` with at most one message of `role` and at most one call of rank
      `rank` appended. */
  predicate AppendsOne(s: State, s': State, role: string, rank: nat) {
    (s'.log == s.log || (|s'.log| == |s.log| + 1 && s'.log[..|s.log|] == s.log && s'.log[|s.log|].role == role))
    && (s'.calls == s.calls ||
        (|s'.calls| == |s.calls| + 1 && s'.calls[..|s.calls|] == s.calls && CallRank(s'.calls[|s.calls|]) == rank))
  }

  lemma AppendOne(s: State, s': State, role: string, rank: nat, m: Option<Message>, c: Option<Invocation>)
    requires s'.log == s.log + (if m.Some? then [m.value] else [])
    requires s'.calls == s.calls + (if c.Some? then [c.value] else [])
    requires m.Some? ==> m.value.role == role
    requires c.Some? ==> CallRank(c.value) == rank
    ensures AppendsOne(s, s', role, rank)
  {
    if m.Some? {
      assert s'.log[..|s.log|] == s.log;
    }
    if c.Some? {
      assert s'.calls[..|s.calls|] == s.calls;
    }
  }

  /** One handler adds at most one message, of its own role, and at most one agent call,
      of its own rank; with test-driven development off the tester step changes nothing. */
  lemma StepFacts(env: Env, p: Pending, s: State)
    requires !p.Halt?
    ensures AppendsOne(s, Step(env, p, s).1, HandlerRole(p), Rank(p))
    ensures !env.tdd && p.RunTester? ==> Step(env, p, s) == (RunDev(p.prompt, p.ctx), s)
  {
    match p
    case RunPM(_, phase, ctx) => PmAppendsOne(env, phase, ctx, s);
    case RunBA(_, ctx) => BaAppendsOne(env, ctx, s);
    case RunSA(_, ctx) => SaAppendsOne(env, ctx, s);
    case RunTester(prompt, ctx) => TesterAppendsOne(env, prompt, ctx, s);
    case RunDev(_, ctx) => DevAppendsOne(env, ctx, s);
  }

  lemma PmAppendsOne(env: Env, phase: string, ctx: Context, s: State)
    ensures AppendsOne(s, StepPM(env, phase, ctx, s).1, PROJECT_MANAGER, 5)
  {
    var conv := Conversation(ctx, None);
    var cs := if conv.Ok? then Some(PmCall(phase, conv.value, ModelFor(env.modelType, Think))) else None;
    var ms := if conv.Ok? && env.workers.pm.Some? then Some(PmMessage(env, env.workers.pm.value)) else None;
    AppendOne(s, StepPM(env, phase, ctx, s).1, PROJECT_MANAGER, 5, ms, cs);
  }

  lemma BaAppendsOne(env: Env, ctx: Context, s: State)
    ensures AppendsOne(s, StepBA(env, ctx, s).1, BUSINESS_ANALYST, 4)
  {
    var conv := Conversation(ctx, None);
    var cs := if conv.Ok? then Some(AgentCall(BUSINESS_ANALYST, conv.value, ModelFor(env.modelType, Think))) else None;
    var ms := if conv.Ok? && env.workers.ba.Some? then Some(BaMessage(env, env.workers.ba.value)) else None;
    AppendOne(s, StepBA(env, ctx, s).1, BUSINESS_ANALYST, 4, ms, cs);
  }

  lemma SaAppendsOne(env: Env, ctx: Context, s: State)
    ensures AppendsOne(s, StepSA(env, ctx, s).1, SYSTEM_ARCHITECT, 3)
  {
    var conv := Conversation(ctx, None);
    var cs := if conv.Ok? then Some(AgentCall(SYSTEM_ARCHITECT, conv.value, ModelFor(env.modelType, Think))) else None;
    var ms := if conv.Ok? && env.workers.sa.Some? then Some(SaMessage(env, env.workers.sa.value)) else None;
    AppendOne(s, StepSA(env, ctx, s).1, SYSTEM_ARCHITECT, 3, ms, cs);
  }

  lemma TesterAppendsOne(env: Env, prompt: string, ctx: Context, s: State)
    ensures AppendsOne(s, StepTester(env, prompt, ctx, s).1, TESTER, 2)
  {
    var cs := if env.tdd then Some(TesterCall(prompt)) else None;
    var ms := if env.tdd then Some(TesterMessage(env.workers.tester.GetOr([]))) else None;
    AppendOne(s, StepTester(env, prompt, ctx, s).1, TESTER, 2, ms, cs);
  }

  lemma DevAppendsOne(env: Env, ctx: Context, s: State)
    ensures AppendsOne(s, StepDev(env, ctx, s).1, DEVELOPER, 1)
  {
    var conv := Conversation(ctx, None);
    var cs := if conv.Ok? then Some(DevCall(conv.value, s.mergedFiles, env.tdd, ModelFor(env.modelType, Dev))) else None;
    var ms := if conv.Ok? && env.workers.dev.Some? then
                Some(DevMessage(env, env.workers.dev.value, PutAll(s.mergedFiles, env.workers.dev.value.files)))
              else None;
    AppendOne(s, StepDev(env, ctx, s).1, DEVELOPER, 1, ms, cs);
  }

  /** The list `r` ends with: `r` extends `s` and the calls it adds descend from `bound`. */
  predicate Extends(s: State, r: State, bound: nat) {
    |s.log| <= |r.log| && r.log[..|s.log|] == s.log &&
    |s.calls| <= |r.calls| && r.calls[..|s.calls|] == s.calls &&
    Descending(r.calls[|s.calls|..], bound)
  }

  /** One handler's additions in front of the rest of the chain's. */
  lemma ExtendsStep(s: State, s': State, r: State, role: string, hi: nat, lo: nat)
    requires AppendsOne(s, s', role, hi) && Extends(s', r, lo) && lo < hi
    ensures Extends(s, r, hi)
  {
    var tail := r.calls[|s'.calls|..];
    if s'.calls != s.calls {
      var c := s'.calls[|s.calls|];
      assert r.calls[..|s'.calls|] == s'.calls;
      assert r.calls[|s.calls|..] == [c] + tail;
      assert r.calls[..|s.calls|] == r.calls[..|s'.calls|][..|s.calls|];
    }
    if s'.log != s.log {
      assert r.log[..|s.log|] == r.log[..|s'.log|][..|s.log|];
    }
  }

  /** A chain only appends to the message list and the call list, and the calls it makes
      descend strictly in rank from the handler it starts at. */
  lemma {:induction false} RunCallsDescend(env: Env, p: Pending, s: State)
    ensures Extends(s, Run(env, p, s), Rank(p))
    decreases Rank(p)
  {
    if p.Halt? {
      assert s.calls[|s.calls|..] == [];
    } else {
      var (p', s') := Step(env, p, s);
      StepFacts(env, p, s);
      RunCallsDescend(env, p', s');
      ExtendsStep(s, s', Run(env, p', s'), HandlerRole(p), Rank(p), Rank(p'));
    }
  }

  lemma {:induction false} DescendingBound(cs: seq<Invocation>, bound: nat)
    requires Descending(cs, bound)
    ensures |cs| <= bound
    decreases |cs|
  {
    if cs != [] {
      var b := CallRank(cs[0]);
      assert b >= 1;
      forall i | 0 <= i < |cs[1..]|
        ensures CallRank(cs[1..][i]) <= b - 1
      {
        assert cs[1..][i] == cs[i + 1];
      }
      DescendingBound(cs[1..], b - 1);
    }
  }

  lemma PrefixAt<T>(a: seq<T>, b: seq<T>, x: T)
    requires |a| + 1 <= |b| && b[..|a| + 1] == a + [x]
    ensures b[|a|] == x && b[..|a|] == a
  {
    assert b[|a|] == b[..|a| + 1][|a|];
    assert b[..|a|] == b[..|a| + 1][..|a|];
  }

  /** What a send adds: the user's message, then the messages and the descending calls
      of a chain started at the project manager. */
  lemma SendTail(s: State, s1: State, r: State, m: Message)
    requires s1.log == s.log + [m] && s1.calls == s.calls && Extends(s1, r, 5)
    ensures |r.log| > |s.log| && r.log[..|s.log|] == s.log && r.log[|s.log|] == m
    ensures |s.calls| <= |r.calls| <= |s.calls| + 5 && r.calls[..|s.calls|] == s.calls
    ensures forall i, j :: |s.calls| <= i < j < |r.calls| ==> CallRank(r.calls[i]) != CallRank(r.calls[j])
  {
    assert r.log[..|s1.log|] == s.log + [m];
    PrefixAt(s.log, r.log, m);
    var cs := r.calls[|s.calls|..];
    DescendingBound(cs, 5);
    forall i, j | |s.calls| <= i < j < |r.calls|
      ensures CallRank(r.calls[i]) != CallRank(r.calls[j])
    {
      assert r.calls[i] == cs[i - |s.calls|] && r.calls[j] == cs[j - |s.calls|];
    }
  }

  /** A send enters the chain at the project manager: the user's message comes first,
      followed by the messages of the chain, which calls each agent at most once, so at
      most five calls, each of another agent. */
  lemma SendCallsEachAgentOnce(env: Env, content: string, s: State)
    ensures var r := SendRun(env, content, s);
      |r.log| > |s.log| && r.log[..|s.log|] == s.log && r.log[|s.log|] == UserMessage(content, env.modelType) &&
      |s.calls| <= |r.calls| <= |s.calls| + 5 && r.calls[..|s.calls|] == s.calls &&
      forall i, j :: |s.calls| <= i < j < |r.calls| ==> CallRank(r.calls[i]) != CallRank(r.calls[j])
  {
    var m := UserMessage(content, env.modelType);
    var s0 := s.(log := s.log + [m]);
    match UpdateContext(content, USER, [], s.context, env.diff)
    case Err(_) =>
      assert SendRun(env, content, s) == s0;
      assert s0.calls[|s0.calls|..] == [];
      SendTail(s, s0, s0, m);
    case Ok(ctx) =>
      var s1 := s0.(context := ctx);
      var r := Run(env, RunPM(content, "REVISE", ctx), s1);
      assert SendRun(env, content, s) == r;
      RunCallsDescend(env, RunPM(content, "REVISE", ctx), s1);
      SendTail(s, s1, r, m);
  }

  lemma PmStepCall(env: Env, phase: string, ctx: Context, s: State)
    requires Conversation(ctx, None).Ok?
    ensures StepPM(env, phase, ctx, s).1.calls == s.calls + [PmCall(phase, Conversation(ctx, None).value, ModelFor(env.modelType, Think))]
  {
  }

  /** A chain entered at the project manager calls the manager first. */
  lemma PmChainFirstCall(env: Env, prompt: string, phase: string, ctx: Context, s: State)
    requires Conversation(ctx, None).Ok?
    ensures var r := Run(env, RunPM(prompt, phase, ctx), s);
      |r.calls| > |s.calls| &&
      r.calls[|s.calls|] == PmCall(phase, Conversation(ctx, None).value, ModelFor(env.modelType, Think))
  {
    var st := StepPM(env, phase, ctx, s);
    var r := Run(env, st.0, st.1);
    RunOneStep(env, RunPM(prompt, phase, ctx), s);
    var c := PmCall(phase, Conversation(ctx, None).value, ModelFor(env.modelType, Think));
    PmStepCall(env, phase, ctx, s);
    RunCallsDescend(env, st.0, st.1);
    PrefixAt(s.calls, r.calls, c);
  }

  /** A context that cannot be rendered stops the manager before any call or message. */
  lemma PmChainUnrenderable(env: Env, prompt: string, phase: string, ctx: Context, s: State)
    requires Conversation(ctx, None).Err?
    ensures var r := Run(env, RunPM(prompt, phase, ctx), s);
      r.calls == s.calls && r.log == s.log && r.context == s.context && !r.processing
  {
    assert StepPM(env, phase, ctx, s).0 == Halt;
  }

  /** The first call of a send is the project manager's, in phase REVISE, on the context
      that already holds the user's text. When recording that text throws, or that
      context cannot be rendered, the send adds only the user's message and calls no
      agent. */
  lemma SendStartsAtProjectManager(env: Env, content: string, s: State)
    ensures var u := UpdateContext(content, USER, [], s.context, env.diff);
            var r := SendRun(env, content, s);
      (u.Err? <==> HoldsSnapshot(s.context, USER)) &&
      (u.Err? ==> r == s.(log := s.log + [UserMessage(content, env.modelType)])) &&
      (u.Ok? && Conversation(u.value, None).Ok? ==>
         |r.calls| > |s.calls| &&
         r.calls[|s.calls|] == PmCall("REVISE", Conversation(u.value, None).value, ModelFor(env.modelType, Think))) &&
      (u.Ok? && Conversation(u.value, None).Err? ==> r.calls == s.calls && r.log == s.log + [UserMessage(content, env.modelType)])
  {
    var u := UpdateContext(content, USER, [], s.context, env.diff);
    if u.Ok? {
      var ctx := u.value;
      var s0 := s.(log := s.log + [UserMessage(content, env.modelType)], context := ctx);
      assert SendRun(env, content, s) == Run(env, RunPM(content, "REVISE", ctx), s0);
      if Conversation(ctx, None).Ok? {
        PmChainFirstCall(env, content, "REVISE", ctx, s0);
      } else {
        PmChainUnrenderable(env, content, "REVISE", ctx, s0);
      }
    }
  }

  /** No tester call and no tester message were added on the way from `s` to `r`. */
  predicate NoTester(s: State, r: State) {
    (forall i :: |s.calls| <= i < |r.calls| ==> !r.calls[i].TesterCall?) &&
    (forall i :: |s.log| <= i < |r.log| ==> r.log[i].role != TESTER)
  }

  lemma NoTesterStep(s: State, s': State, r: State, role: string, rank: nat)
    requires AppendsOne(s, s', role, rank) && role != TESTER && rank != 2 && NoTester(s', r)
    requires |s'.log| <= |r.log| && r.log[..|s'.log|] == s'.log
    requires |s'.calls| <= |r.calls| && r.calls[..|s'.calls|] == s'.calls
    ensures NoTester(s, r)
  {
    if s'.calls != s.calls {
      PrefixAt(s.calls, r.calls, s'.calls[|s.calls|]);
    }
    if s'.log != s.log {
      PrefixAt(s.log, r.log, s'.log[|s.log|]);
    }
  }

  /** With test-driven development off the tester agent is never called and no tester
      message is created. */
  lemma {:induction false} TddOffSkipsTester(env: Env, p: Pending, s: State)
    requires !env.tdd
    ensures NoTester(s, Run(env, p, s))
    decreases Rank(p)
  {
    if !p.Halt? {
      var (p', s') := Step(env, p, s);
      StepFacts(env, p, s);
      TddOffSkipsTester(env, p', s');
      if !p.RunTester? {
        RunCallsDescend(env, p', s');
        NoTesterStep(s, s', Run(env, p', s'), HandlerRole(p), Rank(p));
      }
    }
  }

  /** Where the context of a chain ends up changed, its name, summary, version and
      project information are those of the context the chain started from, unless the
      chain is a manager's INIT turn whose context update threw: then only `updateInfo`
      was committed. */
  lemma {:induction false} RunKeepsInfo(env: Env, p: Pending, s: State)
    requires !p.Halt?
    ensures var c := Run(env, p, s).context;
      c == s.context || SameInfo(c, p.ctx) ||
      (p.RunPM? && p.phase == "INIT" && env.workers.pm.Some? &&
       c == UpdateInfo(env.workers.pm.value.name, env.workers.pm.value.summary, p.ctx))
    decreases Rank(p)
  {
    var (p', s') := Step(env, p, s);
    var r := Run(env, p', s');
    assert Run(env, p, s) == r.(processing := false);
    StepKeepsInfo(env, p, s);
    if !p'.Halt? {
      RunKeepsInfo(env, p', s');
    }
  }

  /** What one handler, handed `ctx`, does to the context: it commits one with the
      information of `ctx`, and the handler it calls gets such a context. */
  predicate KeepsInfo(ctx: Context, s: State, p': Pending, s': State) {
    (!p'.Halt? ==> !p'.RunPM? && SameInfo(p'.ctx, ctx) && (s'.context == s.context || SameInfo(s'.context, ctx))) &&
    (s'.context == s.context || SameInfo(s'.context, ctx))
  }

  /** One handler keeps the information of the context it was handed, except that a
      manager's INIT turn whose update throws commits only `updateInfo`, and stops. */
  lemma StepKeepsInfo(env: Env, p: Pending, s: State)
    requires !p.Halt?
    ensures var (p', s') := Step(env, p, s);
      KeepsInfo(p.ctx, s, p', s') ||
      (p.RunPM? && p.phase == "INIT" && env.workers.pm.Some? && p'.Halt? &&
       s'.context == UpdateInfo(env.workers.pm.value.name, env.workers.pm.value.summary, p.ctx))
  {
    match p
    case RunPM(_, phase, ctx) => PmKeepsInfo(env, phase, ctx, s);
    case RunBA(_, ctx) => BaKeepsInfo(env, ctx, s);
    case RunSA(_, ctx) => SaKeepsInfo(env, ctx, s);
    case RunTester(_, _) =>
    case RunDev(_, ctx) => DevKeepsInfo(env, ctx, s);
  }

  lemma PmKeepsInfo(env: Env, phase: string, ctx: Context, s: State)
    ensures var (p', s') := StepPM(env, phase, ctx, s);
      KeepsInfo(ctx, s, p', s') ||
      (phase == "INIT" && env.workers.pm.Some? && p'.Halt? &&
       s'.context == UpdateInfo(env.workers.pm.value.name, env.workers.pm.value.summary, ctx))
  {
    if Conversation(ctx, None).Ok? && env.workers.pm.Some? {
      var res := env.workers.pm.value;
      var s1 := if phase == "INIT" then s.(context := UpdateInfo(res.name, res.summary, ctx)) else s;
      PmRecordCases(env, ctx, s1.(log := s1.log + [PmMessage(env, res)]), res,
                    UpdateContext(res.text, PROJECT_MANAGER, [], ctx, env.diff));
    }
  }

  lemma BaKeepsInfo(env: Env, ctx: Context, s: State)
    ensures KeepsInfo(ctx, s, StepBA(env, ctx, s).0, StepBA(env, ctx, s).1)
  {
  }

  lemma SaKeepsInfo(env: Env, ctx: Context, s: State)
    ensures KeepsInfo(ctx, s, StepSA(env, ctx, s).0, StepSA(env, ctx, s).1)
  {
  }

  lemma DevKeepsInfo(env: Env, ctx: Context, s: State)
    ensures KeepsInfo(ctx, s, StepDev(env, ctx, s).0, StepDev(env, ctx, s).1)
  {
    if Conversation(ctx, None).Ok? {
      var s1 := s.(processing := true, nextFrom := DEVELOPER,
                   calls := s.calls + [DevCall(Conversation(ctx, None).value, s.mergedFiles, env.tdd, ModelFor(env.modelType, Dev))]);
      assert StepDev(env, ctx, s).1 == DevCommit(env, ctx, s1);
    }
  }

  /** `updateInfo` never survives a manager's INIT turn whose context update succeeds:
      the context committed is rebuilt from the one the handler was given, so the project
      name and summary it wrote are lost. When the update throws, `updateInfo` is all
      that is committed. */
  lemma InitInfoIsOverwritten(env: Env, prompt: string, ctx: Context, s: State)
    requires Conversation(ctx, None).Ok? && env.workers.pm.Some?
    ensures !HoldsSnapshot(ctx, PROJECT_MANAGER) ==> SameInfo(Run(env, RunPM(prompt, "INIT", ctx), s).context, ctx)
    ensures HoldsSnapshot(ctx, PROJECT_MANAGER) ==>
      Run(env, RunPM(prompt, "INIT", ctx), s).context
        == UpdateInfo(env.workers.pm.value.name, env.workers.pm.value.summary, ctx)
  {
    var (p', s') := Step(env, RunPM(prompt, "INIT", ctx), s);
    var r := Run(env, p', s');
    assert Run(env, RunPM(prompt, "INIT", ctx), s) == r.(processing := false);
    if !HoldsSnapshot(ctx, PROJECT_MANAGER) {
      assert SameInfo(s'.context, ctx);
      if !p'.Halt? {
        RunKeepsInfo(env, p', s');
        assert SameInfo(p'.ctx, ctx);
      }
    } else {
      assert p' == Halt;
    }
  }

  /** The project manager's step: its message carries its answer; when the context update
      throws, the chain stops with only `updateInfo` committed in phase INIT; otherwise
      the context records its text under its role with no files, and the chain goes on
      exactly when the answer used input tokens and names a state the table routes to a
      handler. */
  lemma PmStepShape(env: Env, phase: string, ctx: Context, s: State)
    ensures var (p', s') := StepPM(env, phase, ctx, s);
      (Conversation(ctx, None).Err? ==> p' == Halt && s'.log == s.log && s'.calls == s.calls && s'.context == s.context) &&
      (Conversation(ctx, None).Ok? && env.workers.pm.Some? ==>
         var res := env.workers.pm.value;
         s'.log == s.log + [s'.log[|s.log|]] &&
         s'.log[|s.log|].role == PROJECT_MANAGER && s'.log[|s.log|].state == res.state &&
         s'.log[|s.log|].content == res.text && s'.log[|s.log|].inputTokens == res.inputTokens &&
         (|s'.log[|s.log|].events| > 0 <==> res.name != "") &&
         (HoldsSnapshot(ctx, PROJECT_MANAGER) ==>
            p' == Halt && s'.context == if phase == "INIT" then UpdateInfo(res.name, res.summary, ctx) else s.context) &&
         (!HoldsSnapshot(ctx, PROJECT_MANAGER) ==>
            SameInfo(s'.context, ctx) &&
            Get(s'.context.agents.value, PROJECT_MANAGER) ==
              Some(AgentData(res.text, MergedFiles(PrevFiles(ctx, PROJECT_MANAGER), [], env.diff).value)) &&
            (forall j :: j != PROJECT_MANAGER ==> Get(s'.context.agents.value, j) == Get(Agents(ctx), j)) &&
            (!p'.Halt? <==> res.inputTokens > 0 && Handled(GetNextAgent(PROJECT_MANAGER, res.state))) &&
            (!p'.Halt? ==> p'.prompt == res.text && p'.ctx == s'.context)))
  {
  }

  /** A project-manager answer that used no input tokens ends the chain after the
      manager's own message. */
  lemma PmZeroTokensHalts(env: Env, prompt: string, phase: string, ctx: Context, s: State)
    requires Conversation(ctx, None).Ok? && env.workers.pm.Some? && env.workers.pm.value.inputTokens <= 0
    ensures var r := Run(env, RunPM(prompt, phase, ctx), s);
      r.log == s.log + [PmMessage(env, env.workers.pm.value)] &&
      r.calls == s.calls + [PmCall(phase, Conversation(ctx, None).value, ModelFor(env.modelType, Think))] &&
      !r.processing
  {
    var (p', s') := Step(env, RunPM(prompt, phase, ctx), s);
    assert p' == Halt;
  }

  /** The analyst's message routes, by the table, to the architect the handler calls
      next, and the architect is called exactly when the analyst's answer is non-empty
      and recording it does not throw. */
  lemma AnalystFollowsTable(env: Env, ctx: Context, s: State)
    ensures var (p', s') := StepBA(env, ctx, s);
      (p'.RunSA? <==> Conversation(ctx, None).Ok? && env.workers.ba.Some? && env.workers.ba.value.response != "" &&
                      !HoldsSnapshot(ctx, BUSINESS_ANALYST)) &&
      (Conversation(ctx, None).Ok? && env.workers.ba.Some? ==>
         |s'.log| == |s.log| + 1 &&
         var m := s'.log[|s.log|];
         m.role == BUSINESS_ANALYST && m.state == "DESIGN" &&
         m.fragment == Some(Fragment(Doc, [("Analysis Report", env.workers.ba.value.response)], "Analysis Report")) &&
         GetNextAgent(m.role, m.state) == Next(SystemArchitect))
  {
    HandlerRows();
  }

  /** The tester step follows exactly when the architect's answer is non-empty and
      recording it does not throw. */
  lemma ArchitectContinues(env: Env, ctx: Context, s: State)
    ensures StepSA(env, ctx, s).0.RunTester? <==>
      Conversation(ctx, None).Ok? && env.workers.sa.Some? && env.workers.sa.value.response != "" &&
      !HoldsSnapshot(ctx, SYSTEM_ARCHITECT)
  {
    if Conversation(ctx, None).Ok? && env.workers.sa.Some? && !HoldsSnapshot(ctx, SYSTEM_ARCHITECT) {
      var res := env.workers.sa.value;
      var updated := UpdateContext("", SYSTEM_ARCHITECT, [("System Architecture", res.response)], ctx, env.diff).value;
      assert StepSA(env, ctx, s).0 == if res.response != "" then RunTester(res.response, updated) else Halt;
    }
  }

  /** The architect emits TEST with test-driven development and CODE without; the table
      routes these to the tester and the developer (without test-driven development the
      tester step goes straight on to the developer, by `StepFacts`). */
  lemma ArchitectFollowsTable(env: Env, ctx: Context, s: State)
    requires Conversation(ctx, None).Ok? && env.workers.sa.Some?
    ensures var s' := StepSA(env, ctx, s).1;
      |s'.log| == |s.log| + 1 &&
      var m := s'.log[|s.log|];
      m.role == SYSTEM_ARCHITECT && m.state == (if env.tdd then "TEST" else "CODE") &&
      m.fragment == Some(Fragment(Doc, [("System Architecture", env.workers.sa.value.response)], "System Architecture")) &&
      GetNextAgent(m.role, m.state) == Next(if env.tdd then Tester else Developer)
  {
    var m := SaMessage(env, env.workers.sa.value);
    SaStepLog(env, ctx, s);
    HandlerRows();
  }

  lemma SaStepLog(env: Env, ctx: Context, s: State)
    requires Conversation(ctx, None).Ok? && env.workers.sa.Some?
    ensures StepSA(env, ctx, s).1.log == s.log + [SaMessage(env, env.workers.sa.value)]
  {
  }

  /** The tester emits CODE, which the table routes to the developer, and the developer
      is called exactly when the tester returned files. */
  lemma TesterFollowsTable(env: Env, prompt: string, ctx: Context, s: State)
    requires env.tdd
    ensures var (p', s') := StepTester(env, prompt, ctx, s);
      (p'.RunDev? <==> env.workers.tester.Some?) &&
      s'.calls == s.calls + [TesterCall(prompt)] &&
      s'.log == s.log + [TesterMessage(env.workers.tester.GetOr([]))] &&
      GetNextAgent(TESTER, "CODE") == Next(Developer)
  {
    HandlerRows();
  }

  /** The developer's step: `mergedFiles` becomes the old merged files overlaid by the
      developer's files (the union of the paths, the new content winning), the message
      carries RETEST or REVIEW and the merged files, and the chain stops although the
      table routes both states onward. */
  lemma DeveloperMergesAndStops(env: Env, ctx: Context, s: State)
    requires Conversation(ctx, None).Ok? && env.workers.dev.Some?
    ensures var (p', s') := StepDev(env, ctx, s);
            var newFiles := env.workers.dev.value.files;
      p' == Halt &&
      (forall k :: Get(s'.mergedFiles, k) == if k in Keys(newFiles) then GetLast(newFiles, k) else Get(s.mergedFiles, k)) &&
      (Unique(s.mergedFiles) ==> Keys(s'.mergedFiles) == Dedup(Keys(s.mergedFiles) + Keys(newFiles))) &&
      s'.log == s.log + [s'.log[|s.log|]] &&
      s'.log[|s.log|].role == DEVELOPER && s'.log[|s.log|].state == (if env.tdd then "RETEST" else "REVIEW") &&
      s'.log[|s.log|].fragment == Some(Fragment(Code, s'.mergedFiles, "Code")) &&
      GetNextAgent(DEVELOPER, s'.log[|s.log|].state) == Next(if env.tdd then Tester else SecurityEngineer)
  {
    var conv := Conversation(ctx, None).value;
    var s1 := s.(processing := true, nextFrom := DEVELOPER,
                 calls := s.calls + [DevCall(conv, s.mergedFiles, env.tdd, ModelFor(env.modelType, Dev))]);
    assert StepDev(env, ctx, s) == (Halt, DevCommit(env, ctx, s1));
    DevCommitMerges(env, ctx, s1);
  }

  /** The developer's commit on a result: the merge and the message that carries it. */
  lemma DevCommitMerges(env: Env, ctx: Context, s: State)
    requires env.workers.dev.Some?
    ensures var s' := DevCommit(env, ctx, s);
            var newFiles := env.workers.dev.value.files;
      (forall k :: Get(s'.mergedFiles, k) == if k in Keys(newFiles) then GetLast(newFiles, k) else Get(s.mergedFiles, k)) &&
      (Unique(s.mergedFiles) ==> Keys(s'.mergedFiles) == Dedup(Keys(s.mergedFiles) + Keys(newFiles))) &&
      s'.log == s.log + [s'.log[|s.log|]] &&
      s'.log[|s.log|].role == DEVELOPER && s'.log[|s.log|].state == (if env.tdd then "RETEST" else "REVIEW") &&
      s'.log[|s.log|].fragment == Some(Fragment(Code, s'.mergedFiles, "Code")) &&
      GetNextAgent(DEVELOPER, s'.log[|s.log|].state) == Next(if env.tdd then Tester else SecurityEngineer)
  {
    var res := env.workers.dev.value;
    var merged := PutAll(s.mergedFiles, res.files);
    assert DevCommit(env, ctx, s).mergedFiles == merged;
    assert DevCommit(env, ctx, s).log == s.log + [DevMessage(env, res, merged)];
    MergeWins(s.mergedFiles, res.files);
    HandlerRows();
  }

  /** `{...mergedFiles, ...newFiles}`: the new content wins, and the paths are the union. */
  lemma MergeWins(prior: AList<string, string>, files: AList<string, string>)
    ensures forall k :: Get(PutAll(prior, files), k) == if k in Keys(files) then GetLast(files, k) else Get(prior, k)
    ensures Unique(prior) ==> Keys(PutAll(prior, files)) == Dedup(Keys(prior) + Keys(files))
  {
    forall k ensures Get(PutAll(prior, files), k) == if k in Keys(files) then GetLast(files, k) else Get(prior, k) {
      GetPutAll(prior, files, k);
    }
    if Unique(prior) {
      KeysPutAll(prior, files);
    }
  }

  /** A role whose entry already holds non-empty diff text makes the prompt unbuildable. */
  lemma UnreadableBreaksPrompt(ctx: Context, role: string)
    requires Unreadable(ctx, role)
    ensures Conversation(ctx, None).Err?
  {
    ConversationShape(ctx, None);
    NoFilterKeepsAll(None, AgentKeys(ctx));
    var keys := AgentKeys(ctx);
    assert role in keys;
    var i :| 0 <= i < |keys| && keys[i] == role;
    assert Unreadable(ctx, KeptAgents(None, keys)[i]);
  }

  /** On a second pass through the analyst, once its first report is stored as a
      snapshot, recording the new report throws: the chain ends after the analyst's call
      and message, with the context left as it was and the architect never called. */
  lemma SecondAnalysisStopsChain(env: Env, prompt: string, ctx: Context, s: State)
    requires HoldsSnapshot(ctx, BUSINESS_ANALYST)
    requires Conversation(ctx, None).Ok? && env.workers.ba.Some?
    ensures var r := Run(env, RunBA(prompt, ctx), s);
      r.calls == s.calls + [AgentCall(BUSINESS_ANALYST, Conversation(ctx, None).value, ModelFor(env.modelType, Think))] &&
      r.log == s.log + [BaMessage(env, env.workers.ba.value)] &&
      r.context == s.context && !r.processing
  {
    var res := env.workers.ba.value;
    assert UpdateContext("", BUSINESS_ANALYST, [("Analysis Report", res.response)], ctx, env.diff).Err?;
    RunOneStep(env, RunBA(prompt, ctx), s);
  }

  /** The analyst stores its first report as a snapshot, so the analyst's next pass on
      the context it left stops the chain. */
  lemma FirstAnalysisHoldsSnapshot(env: Env, ctx: Context, s: State)
    requires !HasFiles(PrevFiles(ctx, BUSINESS_ANALYST))
    requires Conversation(ctx, None).Ok? && env.workers.ba.Some? && env.workers.ba.value.response != ""
    ensures StepBA(env, ctx, s).0.RunSA? && HoldsSnapshot(StepBA(env, ctx, s).0.ctx, BUSINESS_ANALYST)
  {
    var res := env.workers.ba.value;
    var u := UpdateContext("", BUSINESS_ANALYST, [("Analysis Report", res.response)], ctx, env.diff);
    assert u.Ok?;
    assert PrevFiles(u.value, BUSINESS_ANALYST) == Tagged(FirstSnapshot([("Analysis Report", res.response)]));
  }

  /** Security engineer, DevOps and invalid pairs run no handler. */
  lemma UnhandledRunsNothing(env: Env, msg: Message, ctx: Context, s: State)
    requires !Handled(GetNextAgent(msg.role, msg.state))
    ensures Run(env, Dispatch(msg, ctx), s) == s
  {
  }
}
