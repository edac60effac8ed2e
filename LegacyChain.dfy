/** The earlier, hard-wired chat chain (modules/projects/ui/components/message-container.tsx):
    analyst, architect, tester and developer always follow one another, each going on
    only when the previous agent returned something. The agents return `undefined` on a
    failure, so their results are options. */
module LegacyChain {
  import opened Wrappers
  import opened Assoc
  import opened Routing
  import opened Orchestrator
  import opened ExpandToggle

  /** A message as this component creates it. */
  datatype Post = Post(content: string, role: string, fragment: Option<Fragment>)

  /** The agents' results: the analyst's and architect's text, the tester's and
      developer's files. */
  datatype LegacyWorkers = LegacyWorkers(
    ba: Option<string>,
    sa: Option<string>,
    tester: Option<AList<string, string>>,
    dev: Option<AList<string, string>>)

  /** An agent called with a prompt. */
  datatype Call = Call(role: string, prompt: string)

  datatype LegacyState = LegacyState(
    log: seq<Post>,
    currentFiles: AList<string, string>,
    calls: seq<Call>,
    nextFrom: string,
    processing: bool)

  /** The order in which the chain calls the agents. */
  const ChainOrder: seq<string> := [BUSINESS_ANALYST, SYSTEM_ARCHITECT, TESTER, DEVELOPER]

  /** The developer's fragment: the developer's files overlaid by the files passed in. */
  function DevFragmentFiles(w: LegacyWorkers, files: AList<string, string>): AList<string, string> {
    PutAll(w.dev.GetOr([]), files)
  }

  function DevRun(w: LegacyWorkers, prompt: string, files: AList<string, string>, s: LegacyState): LegacyState {
    s.(nextFrom := DEVELOPER, calls := s.calls + [Call(DEVELOPER, prompt)],
       log := s.log + [Post("", DEVELOPER, Some(Fragment(Code, DevFragmentFiles(w, files), "Code")))],
       processing := false)
  }

  /** The tester's files become the current files and are handed to the developer. */
  function TesterRun(w: LegacyWorkers, prompt: string, s: LegacyState): LegacyState {
    var files := w.tester.GetOr([]);
    var s1 := s.(processing := true, nextFrom := TESTER, calls := s.calls + [Call(TESTER, prompt)],
                 log := s.log + [Post("", TESTER, Some(Fragment(Code, files, "Code")))], currentFiles := files);
    (if w.tester.Some? then DevRun(w, prompt, files, s1) else s1).(processing := false)
  }

  function SaRun(w: LegacyWorkers, prompt: string, s: LegacyState): LegacyState {
    var res := w.sa.GetOr("");
    var s1 := s.(processing := true, nextFrom := SYSTEM_ARCHITECT, calls := s.calls + [Call(SYSTEM_ARCHITECT, prompt)],
                 log := s.log + [Post("", SYSTEM_ARCHITECT, Some(Fragment(Doc, [("System Architecture", res)], "System Architecture")))]);
    (if res != "" then TesterRun(w, res, s1) else s1).(processing := false)
  }

  function BaRun(w: LegacyWorkers, prompt: string, s: LegacyState): LegacyState {
    var res := w.ba.GetOr("");
    var s1 := s.(processing := true, nextFrom := BUSINESS_ANALYST, calls := s.calls + [Call(BUSINESS_ANALYST, prompt)],
                 log := s.log + [Post("", BUSINESS_ANALYST, Some(Fragment(Doc, [("Analysis Report", res)], "Analysis Report")))]);
    (if res != "" then SaRun(w, res, s1) else s1).(processing := false)
  }

  /** The handler the mount effect runs for the last message's role. */
  function Successor(role: string): Option<Agent> {
    if role == USER then Some(BusinessAnalyst)
    else if role == BUSINESS_ANALYST then Some(SystemArchitect)
    else if role == SYSTEM_ARCHITECT then Some(Tester)
    else if role == TESTER then Some(Developer)
    else None
  }

  /** The mount effect: the last message's content is the prompt; the developer gets
      the current files. */
  function MountRun(w: LegacyWorkers, last: Post, s: LegacyState): LegacyState {
    match Successor(last.role)
    case Some(BusinessAnalyst) => BaRun(w, last.content, s)
    case Some(SystemArchitect) => SaRun(w, last.content, s)
    case Some(Tester) => TesterRun(w, last.content, s)
    case Some(Developer) => DevRun(w, last.content, s.currentFiles, s)
    case _ => s
  }

  /** The last message not from the user, as `findLast` finds it. */
  function LastAssistant(log: seq<Post>): (r: Option<Post>)
    ensures r.None? <==> forall i :: 0 <= i < |log| ==> log[i].role == USER
    ensures r.Some? ==> exists i :: 0 <= i < |log| && log[i] == r.value && log[i].role != USER &&
                          forall j :: i < j < |log| ==> log[j].role == USER
  {
    if log == [] then None
    else if log[|log| - 1].role != USER then Some(log[|log| - 1])
    else LastAssistant(log[..|log| - 1])
  }

  /** How many agents a chain started at the analyst calls: it goes on past an agent only
      when that agent returned something. */
  function ChainLength(w: LegacyWorkers): nat {
    if w.ba.GetOr("") == "" then 1
    else if w.sa.GetOr("") == "" then 2
    else if w.tester.None? then 3
    else 4
  }

  /** A chain started at the analyst calls the agents in the fixed order, as far as the
      results allow, and creates one message per call, of the called agent's role. */
  lemma ChainFollowsOrder(w: LegacyWorkers, prompt: string, s: LegacyState)
    ensures var r := BaRun(w, prompt, s);
      |r.calls| == |s.calls| + ChainLength(w) && r.calls[..|s.calls|] == s.calls &&
      |r.log| == |s.log| + ChainLength(w) && r.log[..|s.log|] == s.log &&
      (forall i :: 0 <= i < ChainLength(w) ==> r.calls[|s.calls| + i].role == ChainOrder[i]) &&
      (forall i :: 0 <= i < ChainLength(w) ==> r.log[|s.log| + i].role == ChainOrder[i]) &&
      !r.processing
  {
    var r := BaRun(w, prompt, s);
    var n := ChainLength(w);
    var calls := ChainCalls(w, prompt);
    ChainCallsRoles(w, prompt);
    BaRunCalls(w, prompt, s);
    assert r.calls[..|s.calls|] == s.calls;
    forall i | 0 <= i < n ensures r.calls[|s.calls| + i].role == ChainOrder[i] {
      assert r.calls[|s.calls| + i] == calls[i];
    }
    BaRunLogRoles(w, prompt, s);
  }

  /** The calls a chain started at the analyst makes, with their prompts. */
  function ChainCalls(w: LegacyWorkers, prompt: string): (cs: seq<Call>)
    ensures |cs| == ChainLength(w)
  {
    var all := [Call(BUSINESS_ANALYST, prompt), Call(SYSTEM_ARCHITECT, w.ba.GetOr("")),
                Call(TESTER, w.sa.GetOr("")), Call(DEVELOPER, w.sa.GetOr(""))];
    all[..ChainLength(w)]
  }

  lemma ChainCallsRoles(w: LegacyWorkers, prompt: string)
    ensures forall i :: 0 <= i < ChainLength(w) ==> ChainCalls(w, prompt)[i].role == ChainOrder[i]
  {
  }

  lemma BaRunCalls(w: LegacyWorkers, prompt: string, s: LegacyState)
    ensures BaRun(w, prompt, s).calls == s.calls + ChainCalls(w, prompt)
  {
    var all := [Call(BUSINESS_ANALYST, prompt), Call(SYSTEM_ARCHITECT, w.ba.GetOr("")),
                Call(TESTER, w.sa.GetOr("")), Call(DEVELOPER, w.sa.GetOr(""))];
    var n := ChainLength(w);
    assert ChainCalls(w, prompt) == all[..n];
    if n == 1 {
      assert all[..1] == [all[0]];
    } else if n == 2 {
      assert all[..2] == [all[0], all[1]];
      assert s.calls + [all[0]] + [all[1]] == s.calls + [all[0], all[1]];
    } else if n == 3 {
      assert all[..3] == [all[0], all[1], all[2]];
      assert s.calls + [all[0]] + [all[1]] + [all[2]] == s.calls + [all[0], all[1], all[2]];
    } else {
      assert all[..4] == all;
      assert s.calls + [all[0]] + [all[1]] + [all[2]] + [all[3]] == s.calls + all;
    }
  }

  lemma BaRunLogRoles(w: LegacyWorkers, prompt: string, s: LegacyState)
    ensures var r := BaRun(w, prompt, s);
      |r.log| == |s.log| + ChainLength(w) && r.log[..|s.log|] == s.log &&
      forall i :: 0 <= i < ChainLength(w) ==> r.log[|s.log| + i].role == ChainOrder[i]
  {
    var r := BaRun(w, prompt, s);
    assert r.log[..|s.log|] == s.log;
  }

  /** Each agent after the analyst receives the previous agent's text; the developer
      receives the architect's text, as the tester did. */
  lemma PromptsArePassedOn(w: LegacyWorkers, prompt: string, s: LegacyState)
    ensures var r := BaRun(w, prompt, s);
      r.calls[|s.calls|] == Call(BUSINESS_ANALYST, prompt) &&
      (ChainLength(w) >= 2 ==> r.calls[|s.calls| + 1] == Call(SYSTEM_ARCHITECT, w.ba.value)) &&
      (ChainLength(w) >= 3 ==> r.calls[|s.calls| + 2] == Call(TESTER, w.sa.value)) &&
      (ChainLength(w) == 4 ==> r.calls[|s.calls| + 3] == Call(DEVELOPER, w.sa.value))
  {
  }

  /** In the developer's fragment the tester's files win on a shared path; the paths are
      the developer's and the tester's together. */
  lemma TesterWinsMerge(w: LegacyWorkers, files: AList<string, string>, k: string)
    ensures Get(DevFragmentFiles(w, files), k) ==
      if k in Keys(files) then GetLast(files, k) else Get(w.dev.GetOr([]), k)
    ensures Unique(w.dev.GetOr([])) ==> Keys(DevFragmentFiles(w, files)) == Dedup(Keys(w.dev.GetOr([])) + Keys(files))
  {
    GetPutAll(w.dev.GetOr([]), files, k);
    if Unique(w.dev.GetOr([])) {
      KeysPutAll(w.dev.GetOr([]), files);
    }
  }

  /** The analyst's and architect's fragments hold one document each, under a fixed
      name, with `''` for a missing result. */
  lemma DocumentFragments(w: LegacyWorkers, prompt: string, s: LegacyState)
    ensures var r := BaRun(w, prompt, s);
      r.log[|s.log|].fragment == Some(Fragment(Doc, [("Analysis Report", w.ba.GetOr(""))], "Analysis Report")) &&
      (ChainLength(w) >= 2 ==>
         r.log[|s.log| + 1].fragment == Some(Fragment(Doc, [("System Architecture", w.sa.GetOr(""))], "System Architecture")))
  {
  }

  /** Where this chain and the routing table both go on, they agree; a user message goes
      to the analyst here but to the project manager in the table, and the tester is
      always reached through the architect's TEST state. */
  lemma SuccessorsAgainstTable()
    ensures GetNextAgent(BUSINESS_ANALYST, "DESIGN") == Next(Successor(BUSINESS_ANALYST).value)
    ensures GetNextAgent(SYSTEM_ARCHITECT, "TEST") == Next(Successor(SYSTEM_ARCHITECT).value)
    ensures GetNextAgent(TESTER, "CODE") == Next(Successor(TESTER).value)
    ensures Successor(USER) == Some(BusinessAnalyst) && GetNextAgent(USER, "REVISE") == Next(ProjectManager)
  {
  }

  class LegacySession {
    var log: seq<Post>
    var currentFiles: AList<string, string>
    var calls: seq<Call>
    var nextFrom: string
    var isProcessing: bool
    var inputValue: string
    var expandedFragmentIdx: Option<nat>
    var hasProcessedInitialMessage: bool
    /** The fragment last passed to `onFragmentClicked`. */
    var activeFragment: Option<Fragment>
    const workers: LegacyWorkers

    constructor(messages: seq<Post>, workers: LegacyWorkers)
      ensures log == messages && currentFiles == [] && calls == [] && nextFrom == BUSINESS_ANALYST
      ensures !isProcessing && inputValue == "" && expandedFragmentIdx == None
      ensures !hasProcessedInitialMessage && activeFragment == None && this.workers == workers
    {
      log := messages;
      currentFiles := [];
      calls := [];
      nextFrom := BUSINESS_ANALYST;
      isProcessing := false;
      inputValue := "";
      expandedFragmentIdx := None;
      hasProcessedInitialMessage := false;
      activeFragment := None;
      this.workers := workers;
    }

    function Snapshot(): LegacyState
      reads this
    {
      LegacyState(log, currentFiles, calls, nextFrom, isProcessing)
    }

    /** Fields the chain leaves alone. */
    function Ui(): (string, Option<nat>, bool, Option<Fragment>)
      reads this
    {
      (inputValue, expandedFragmentIdx, hasProcessedInitialMessage, activeFragment)
    }

    method HandleBusinessAnalyst(prompt: string)
      modifies this
      ensures Snapshot() == BaRun(workers, prompt, old(Snapshot())) && Ui() == old(Ui())
    {
      isProcessing := true;
      nextFrom := BUSINESS_ANALYST;
      calls := calls + [Call(BUSINESS_ANALYST, prompt)];
      var res := workers.ba;
      log := log + [Post("", BUSINESS_ANALYST, Some(Fragment(Doc, [("Analysis Report", res.GetOr(""))], "Analysis Report")))];
      if res.Some? && res.value != "" {
        HandleSystemArchitect(res.value);
      }
      isProcessing := false;
    }

    method HandleSystemArchitect(prompt: string)
      modifies this
      ensures Snapshot() == SaRun(workers, prompt, old(Snapshot())) && Ui() == old(Ui())
    {
      isProcessing := true;
      nextFrom := SYSTEM_ARCHITECT;
      calls := calls + [Call(SYSTEM_ARCHITECT, prompt)];
      var res := workers.sa;
      log := log + [Post("", SYSTEM_ARCHITECT,
                         Some(Fragment(Doc, [("System Architecture", res.GetOr(""))], "System Architecture")))];
      if res.Some? && res.value != "" {
        HandleTester(res.value);
      }
      isProcessing := false;
    }

    method HandleTester(prompt: string)
      modifies this
      ensures Snapshot() == TesterRun(workers, prompt, old(Snapshot())) && Ui() == old(Ui())
    {
      isProcessing := true;
      nextFrom := TESTER;
      calls := calls + [Call(TESTER, prompt)];
      var res := workers.tester;
      log := log + [Post("", TESTER, Some(Fragment(Code, res.GetOr([]), "Code")))];
      currentFiles := res.GetOr([]);
      if res.Some? {
        HandleDev(prompt, res.value);
      }
      isProcessing := false;
    }

    method HandleDev(prompt: string, files: AList<string, string>)
      modifies this
      ensures Snapshot() == DevRun(workers, prompt, files, old(Snapshot())) && Ui() == old(Ui())
    {
      isProcessing := true;
      nextFrom := DEVELOPER;
      calls := calls + [Call(DEVELOPER, prompt)];
      var res := workers.dev;
      log := log + [Post("", DEVELOPER, Some(Fragment(Code, PutAll(res.GetOr([]), files), "Code")))];
      isProcessing := false;
    }

    /** Empty input is ignored; otherwise the user's message, then the analyst. */
    method HandleSend()
      modifies this
      ensures old(inputValue) == "" ==> Snapshot() == old(Snapshot()) && inputValue == ""
      ensures old(inputValue) != "" ==>
        Snapshot() == BaRun(workers, old(inputValue), old(Snapshot()).(log := old(log) + [Post(old(inputValue), USER, None)]))
      ensures inputValue == "" && expandedFragmentIdx == old(expandedFragmentIdx)
      ensures hasProcessedInitialMessage == old(hasProcessedInitialMessage) && activeFragment == old(activeFragment)
    {
      if inputValue == "" {
        return;
      }
      var messageContent := inputValue;
      inputValue := "";
      log := log + [Post(messageContent, USER, None)];
      HandleBusinessAnalyst(messageContent);
    }

    /** On first mount only, the handler for the last message's role runs. */
    method Mount()
      modifies this
      ensures old(hasProcessedInitialMessage) || old(log) == [] ==>
        Snapshot() == old(Snapshot()) && hasProcessedInitialMessage == old(hasProcessedInitialMessage)
      ensures !old(hasProcessedInitialMessage) && old(log) != [] ==>
        Snapshot() == MountRun(workers, old(log)[|old(log)| - 1], old(Snapshot())) &&
        hasProcessedInitialMessage == Successor(old(log)[|old(log)| - 1].role).Some?
      ensures inputValue == old(inputValue) && expandedFragmentIdx == old(expandedFragmentIdx)
      ensures activeFragment == old(activeFragment)
    {
      if hasProcessedInitialMessage || log == [] {
        return;
      }
      var lastMessage := log[|log| - 1];
      ghost var s0 := Snapshot();
      if lastMessage.role == USER {
        assert Successor(lastMessage.role) == Some(BusinessAnalyst);
        assert MountRun(workers, lastMessage, s0) == BaRun(workers, lastMessage.content, s0);
        HandleBusinessAnalyst(lastMessage.content);
        hasProcessedInitialMessage := true;
      } else if lastMessage.role == BUSINESS_ANALYST {
        assert Successor(lastMessage.role) == Some(SystemArchitect);
        assert MountRun(workers, lastMessage, s0) == SaRun(workers, lastMessage.content, s0);
        HandleSystemArchitect(lastMessage.content);
        hasProcessedInitialMessage := true;
      } else if lastMessage.role == SYSTEM_ARCHITECT {
        assert Successor(lastMessage.role) == Some(Tester);
        assert MountRun(workers, lastMessage, s0) == TesterRun(workers, lastMessage.content, s0);
        HandleTester(lastMessage.content);
        hasProcessedInitialMessage := true;
      } else if lastMessage.role == TESTER {
        assert Successor(lastMessage.role) == Some(Developer);
        assert MountRun(workers, lastMessage, s0) == DevRun(workers, lastMessage.content, currentFiles, s0);
        HandleDev(lastMessage.content, currentFiles);
        hasProcessedInitialMessage := true;
      } else {
        assert Successor(lastMessage.role) == None;
      }
    }

    /** The effect on a new message list: the last assistant message's fragment, when it
        has one, is shown. */
    method OnMessagesChanged()
      modifies this
      ensures var last := LastAssistant(log);
        activeFragment == if last.Some? && last.value.fragment.Some? then last.value.fragment else old(activeFragment)
      ensures Snapshot() == old(Snapshot()) && inputValue == old(inputValue)
      ensures expandedFragmentIdx == old(expandedFragmentIdx) && hasProcessedInitialMessage == old(hasProcessedInitialMessage)
    {
      var lastAssistantMessage := LastAssistant(log);
      if lastAssistantMessage.Some? && lastAssistantMessage.value.fragment.Some? {
        activeFragment := lastAssistantMessage.value.fragment;
      }
    }

    /** The expand button of the fragment of message `index`. */
    method ToggleFragment(index: nat)
      modifies this
      ensures expandedFragmentIdx == Toggle(old(expandedFragmentIdx), index)
      ensures Snapshot() == old(Snapshot()) && inputValue == old(inputValue)
      ensures hasProcessedInitialMessage == old(hasProcessedInitialMessage) && activeFragment == old(activeFragment)
    {
      expandedFragmentIdx := Toggle(expandedFragmentIdx, index);
    }
  }
}
