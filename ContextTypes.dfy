/** The shared project context (types/context.ts) as the code actually stores it. */
module ContextTypes {
  import opened Wrappers
  import opened Assoc

  /** One file of an agent's first snapshot: its lines and a status per line. */
  datatype AgentFile = AgentFile(lineStatus: seq<string>, mergedLines: seq<string>)

  /** The declared type of an agent's `files` is a record of `AgentFile`s; the tagged
      diff text that a later update would store there is a string. Updates by the
      program itself never store one (the diff of a stored record throws), so `Flat`
      comes only from a context that is handed in. */
  datatype StoredFiles = Tagged(entries: AList<string, AgentFile>) | Flat(text: string)

  datatype AgentData = AgentData(text: string, files: StoredFiles)

  /** `agents` is `None` while no agent has written; `projectName` and `projectSummary`
      are the two properties the project manager's first turn adds. */
  datatype Context = Context(
    name: string,
    summary: string,
    version: int,
    agents: Option<AList<string, AgentData>>,
    projectName: Option<string>,
    projectSummary: Option<string>)

  /** `Object.keys(files).length > 0`; the keys of a string are its character indices. */
  predicate HasFiles(f: StoredFiles) {
    match f
    case Tagged(entries) => |entries| > 0
    case Flat(text) => |text| > 0
  }
}
