/** The `(role, state) -> next agent` table of the chat orchestrator
    (`getNextAgent` in MessageContainer.tsx). Roles and states are the strings the
    messages carry. */
module Routing {

  const USER := "USER"
  const PROJECT_MANAGER := "PROJECT_MANAGER"
  const BUSINESS_ANALYST := "BUSINESS_ANALYST"
  const SYSTEM_ARCHITECT := "SYSTEM_ARCHITECT"
  const TESTER := "TESTER"
  const DEVELOPER := "DEVELOPER"
  const SECURITY_ENGINEER := "SECURITY_ENGINEER"
  const DEVOPS := "DEVOPS"

  datatype Agent = ProjectManager | BusinessAnalyst | SystemArchitect | Tester | Developer | SecurityEngineer | DevOps

  /** The role string under which an agent's messages are stored. */
  function AgentRole(a: Agent): string {
    match a
    case ProjectManager => PROJECT_MANAGER
    case BusinessAnalyst => BUSINESS_ANALYST
    case SystemArchitect => SYSTEM_ARCHITECT
    case Tester => TESTER
    case Developer => DEVELOPER
    case SecurityEngineer => SECURITY_ENGINEER
    case DevOps => DEVOPS
  }

  /** `getNextAgent` returns an agent name or the string 'Invalid role or state'. */
  datatype NextAgent = Next(agent: Agent) | InvalidRoleOrState

  /** The fifteen transitions, written as data. */
  const Transitions: seq<(string, string, Agent)> := [
    (USER, "INIT", ProjectManager),
    (USER, "REVISE", ProjectManager),
    (PROJECT_MANAGER, "ANALYSIS", BusinessAnalyst),
    (PROJECT_MANAGER, "DESIGN", SystemArchitect),
    (PROJECT_MANAGER, "CODE", Developer),
    (PROJECT_MANAGER, "TEST", Tester),
    (PROJECT_MANAGER, "REVIEW", SecurityEngineer),
    (PROJECT_MANAGER, "DEPLOY", DevOps),
    (BUSINESS_ANALYST, "DESIGN", SystemArchitect),
    (SYSTEM_ARCHITECT, "TEST", Tester),
    (SYSTEM_ARCHITECT, "CODE", Developer),
    (TESTER, "CODE", Developer),
    (DEVELOPER, "RETEST", Tester),
    (DEVELOPER, "REVIEW", SecurityEngineer),
    (SECURITY_ENGINEER, "DEPLOY", DevOps)
  ]

  function GetNextAgent(role: string, state: string): (r: NextAgent) {
    if role == USER then
      if state == "INIT" || state == "REVISE" then Next(ProjectManager) else InvalidRoleOrState
    else if role == PROJECT_MANAGER then
      if state == "ANALYSIS" then Next(BusinessAnalyst)
      else if state == "DESIGN" then Next(SystemArchitect)
      else if state == "CODE" then Next(Developer)
      else if state == "TEST" then Next(Tester)
      else if state == "REVIEW" then Next(SecurityEngineer)
      else if state == "DEPLOY" then Next(DevOps)
      else InvalidRoleOrState
    else if role == BUSINESS_ANALYST then
      if state == "DESIGN" then Next(SystemArchitect) else InvalidRoleOrState
    else if role == SYSTEM_ARCHITECT then
      if state == "TEST" then Next(Tester)
      else if state == "CODE" then Next(Developer)
      else InvalidRoleOrState
    else if role == TESTER then
      if state == "CODE" then Next(Developer) else InvalidRoleOrState
    else if role == DEVELOPER then
      if state == "RETEST" then Next(Tester)
      else if state == "REVIEW" then Next(SecurityEngineer)
      else InvalidRoleOrState
    else if role == SECURITY_ENGINEER then
      if state == "DEPLOY" then Next(DevOps) else InvalidRoleOrState
    else InvalidRoleOrState
  }

  /** An agent is returned exactly for the pairs of the table, and it is the table's
      agent; every other pair is invalid. */
  lemma NextAgentFromTable(role: string, state: string)
    ensures GetNextAgent(role, state).Next? ==> (role, state, GetNextAgent(role, state).agent) in Transitions
    ensures GetNextAgent(role, state).InvalidRoleOrState? ==>
      forall i :: 0 <= i < |Transitions| ==> Transitions[i].0 != role || Transitions[i].1 != state
  {
  }

  /** The table is a function of the pair: no pair occurs twice. */
  lemma TransitionsDeterministic()
    ensures forall i, j :: 0 <= i < j < |Transitions| ==>
      Transitions[i].0 != Transitions[j].0 || Transitions[i].1 != Transitions[j].1
  {
  }

  /** Every row of the table is what `GetNextAgent` returns for its pair. */
  lemma TableRowsAgree(i: nat)
    requires i < |Transitions|
    ensures GetNextAgent(Transitions[i].0, Transitions[i].1) == Next(Transitions[i].2)
  {
    var row := Transitions[i];
    TransitionsDeterministic();
    NextAgentFromTable(row.0, row.1);
    if GetNextAgent(row.0, row.1).InvalidRoleOrState? {
      assert false;
    }
  }

  /** The rows the handlers' messages use. */
  lemma HandlerRows()
    ensures GetNextAgent(BUSINESS_ANALYST, "DESIGN") == Next(SystemArchitect)
    ensures GetNextAgent(SYSTEM_ARCHITECT, "TEST") == Next(Tester)
    ensures GetNextAgent(SYSTEM_ARCHITECT, "CODE") == Next(Developer)
    ensures GetNextAgent(TESTER, "CODE") == Next(Developer)
    ensures GetNextAgent(DEVELOPER, "RETEST") == Next(Tester)
    ensures GetNextAgent(DEVELOPER, "REVIEW") == Next(SecurityEngineer)
  {
  }
}
