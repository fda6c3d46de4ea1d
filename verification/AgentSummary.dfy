/** The summary that src/agents.rs keeps of a session, and how one decoded event changes it. Labels and
    shortened texts are taken from the decoded event. */
module AgentSummary {
  import opened Wrappers

  datatype GitInfo = GitInfo(repositoryRoot: string, branch: Option<string>, origin: string)

  datatype Agent = Agent(
    id: string,
    pid: nat,
    evidence: string,
    kind: string,
    cwd: Option<string>,
    cwdSource: Option<string>,
    sessionId: Option<string>,
    task: Option<string>,
    title: Option<string>,
    activity: Option<string>,
    activityAt: Option<nat>,
    update: Option<string>,
    state: string,
    updatedAt: Option<nat>,
    git: Option<GitInfo>)

  datatype Item =
    | UserMessage(text: Option<string>)
    | AgentMessage(shown: bool, finalAnswer: bool, text: Option<string>)
    | CommandExecution(command: string)
    | FileChange
    | McpToolCall(tool: Option<string>)
    | OtherItem

  /** `envelopeShown`, `messageShown`: the texts that are not marked as private reasoning. `userTurn`: a user
      record that is neither meta nor a compaction summary. */
  datatype Event = Event(
    category: string,
    ty: string,
    time: Option<nat>,
    customTitle: Option<string>,
    envelopeShown: bool,
    payloadId: Option<string>,
    payloadSession: Option<string>,
    cwd: Option<string>,
    savedGit: Option<(string, Option<string>)>,
    internalSource: bool,
    absoluteCwd: Option<string>,
    item: Item,
    role: string,
    finalAnswer: bool,
    content: Option<string>,
    userText: Option<string>,
    tool: Option<string>,
    userTurn: bool,
    messageShown: bool,
    messageText: Option<string>,
    toolUses: seq<Option<string>>,
    claudeSession: Option<string>,
    claudeCwd: Option<string>)

  function Or<T>(first: Option<T>, second: Option<T>): Option<T> {
    if first.Some? then first else second
  }

  /** A short candidate never replaces a task that is already known. */
  function SetTask(a: Agent, candidate: Option<string>): Agent {
    if candidate.Some? && (|candidate.value| >= 40 || a.task.None?) then a.(task := candidate) else a
  }

  function SavedCodexGit(a: Agent, e: Event): Agent {
    if a.kind == "Codex" && e.savedGit.Some? && a.cwd.Some? then
      a.(git := Some(GitInfo(a.cwd.value, e.savedGit.value.1, e.savedGit.value.0)))
    else a
  }

  function ApplyTitle(a: Agent, e: Event): Agent {
    if e.category == "custom-title" && a.kind == "Claude" then a.(title := Or(e.customTitle, a.title)) else a
  }

  function ApplyMeta(a: Agent, e: Event): Agent {
    if e.category == "session_meta" then
      SavedCodexGit(a.(sessionId := Or(e.payloadId, e.payloadSession), cwd := Or(e.cwd, a.cwd), cwdSource := Some("session_meta")), e)
    else a
  }

  function ApplyTurnContext(a: Agent, e: Event): Agent {
    if e.category == "turn_context" && a.kind == "Codex" then
      if e.absoluteCwd.Some? then
        a.(git := if a.cwd != e.absoluteCwd then None else a.git,
        cwd := e.absoluteCwd, cwdSource := Some("turn_context"))
      else a.(cwdSource := None)
    else a
  }

  function ApplyItem(a: Agent, e: Event): Agent {
    if e.ty != "item_completed" && e.ty != "item_started" then a else
    match e.item
    case UserMessage(text) => SetTask(a, text).(state := "Working")
    case AgentMessage(shown, finalAnswer, text) =>
      if !(e.envelopeShown && shown) then a
      else if finalAnswer then
        a.(state := "Idle", activity := Some("Turn completed"), activityAt := e.time, update := Or(text, a.update))
      else a.(update := Or(text, a.update))
    case CommandExecution(command) => a.(activity := Some(command), activityAt := e.time)
    case FileChange => a.(activity := Some("Editing files"))
    case McpToolCall(tool) => a.(activity := tool, activityAt := e.time)
    case OtherItem => a
  }

  predicate AssistantMessage(e: Event) {
    e.category == "response_item" && e.ty == "message" && e.role == "assistant" && e.envelopeShown
  }

  function ApplyFinalMessage(a: Agent, e: Event): Agent {
    if AssistantMessage(e) && e.finalAnswer then
      a.(state := "Idle", activity := Some("Turn completed"), activityAt := e.time, update := Or(e.content, a.update))
    else a
  }

  datatype TurnEvent = Started | Completed | Aborted | Prompt | Called | NoTurn

  function TurnKind(e: Event): TurnEvent {
    match e.ty
    case "task_started" => Started
    case "task_complete" => Completed
    case "turn_aborted" => Aborted
    case "user_message" => Prompt
    case "function_call" | "custom_tool_call" => Called
    case _ => NoTurn
  }

  function ApplyTurn(a: Agent, e: Event): Agent {
    match TurnKind(e)
    case Started => a.(update := None, activityAt := e.time, state := "Working", activity := Some("Turn in progress"))
    case Completed => a.(activityAt := e.time, state := "Idle", activity := Some("Turn completed"))
    case Aborted => a.(activityAt := e.time, state := "Idle", activity := Some("Turn interrupted"))
    case Prompt => SetTask(a, e.userText)
    case Called => a.(activity := e.tool, activityAt := e.time)
    case NoTurn => a
  }

  function ApplyMessage(a: Agent, e: Event): Agent {
    var b := if AssistantMessage(e) && !e.finalAnswer then a.(update := Or(e.content, a.update)) else a;
    if e.category == "response_item" && e.ty == "message" && e.role == "user" then SetTask(b, e.content) else b
  }

  function ApplyUser(a: Agent, e: Event): Agent {
    if e.category == "user" && e.userTurn then SetTask(a, e.messageText) else a
  }

  function ApplyAssistant(a: Agent, e: Event): Agent {
    if e.category != "assistant" then a else
    var b := if e.toolUses == [] then a else a.(activity := e.toolUses[|e.toolUses| - 1], activityAt := e.time);
    var c := if e.envelopeShown && e.messageShown then b.(update := Or(e.messageText, b.update)) else b;
    c.(state := "Session open")
  }

  function ApplyClaude(a: Agent, e: Event): Agent {
    if a.kind == "Claude" then a.(sessionId := Or(e.claudeSession, a.sessionId), cwd := Or(e.claudeCwd, a.cwd)) else a
  }

  function ApplyEvent(a: Agent, e: Event): Agent {
    var b := ApplyItem(ApplyTurnContext(ApplyMeta(ApplyTitle(a, e), e), e), e);
    var c := ApplyMessage(ApplyTurn(ApplyFinalMessage(b, e), e), e);
    ApplyClaude(ApplyAssistant(ApplyUser(c, e), e), e)
  }

  function Opened(state: string): string {
    if state == "Process detected" then "Session open" else state
  }

  /** Equal in everything that the events of a session determine: all but the process (`id`, `pid`,
      `evidence`), the time of reading, the repository, and whether the first read has happened. */
  predicate Same(a: Agent, b: Agent) {
    && a.kind == b.kind && a.cwd == b.cwd && a.cwdSource == b.cwdSource && a.sessionId == b.sessionId
    && a.task == b.task && a.title == b.title && a.activity == b.activity && a.activityAt == b.activityAt
    && a.update == b.update && Opened(a.state) == Opened(b.state)
  }

  /** The process that is reading stays itself. */
  predicate KeepsIdentity(a: Agent, b: Agent) {
    b.id == a.id && b.pid == a.pid && b.evidence == a.evidence && b.kind == a.kind && b.updatedAt == a.updatedAt
  }

  lemma TitleStep(a: Agent, b: Agent, e: Event)
    requires Same(a, b)
    ensures Same(ApplyTitle(a, e), ApplyTitle(b, e)) && KeepsIdentity(a, ApplyTitle(a, e))
  {
  }

  lemma MetaStep(a: Agent, b: Agent, e: Event)
    requires Same(a, b)
    ensures Same(ApplyMeta(a, e), ApplyMeta(b, e)) && KeepsIdentity(a, ApplyMeta(a, e))
  {
  }

  lemma TurnContextStep(a: Agent, b: Agent, e: Event)
    requires Same(a, b)
    ensures Same(ApplyTurnContext(a, e), ApplyTurnContext(b, e)) && KeepsIdentity(a, ApplyTurnContext(a, e))
  {
  }

  lemma ItemStep(a: Agent, b: Agent, e: Event)
    requires Same(a, b)
    ensures Same(ApplyItem(a, e), ApplyItem(b, e)) && KeepsIdentity(a, ApplyItem(a, e))
  {
    match e.item
    case UserMessage(text) => assert Same(SetTask(a, text), SetTask(b, text));
    case AgentMessage(_, _, text) => assert Or(text, a.update) == Or(text, b.update);
    case _ =>
  }

  lemma FinalMessageStep(a: Agent, b: Agent, e: Event)
    requires Same(a, b)
    ensures Same(ApplyFinalMessage(a, e), ApplyFinalMessage(b, e)) && KeepsIdentity(a, ApplyFinalMessage(a, e))
  {
  }

  lemma SetTaskStep(a: Agent, b: Agent, candidate: Option<string>)
    requires Same(a, b)
    ensures Same(SetTask(a, candidate), SetTask(b, candidate)) && KeepsIdentity(a, SetTask(a, candidate))
  {
  }

  lemma TurnStep(a: Agent, b: Agent, e: Event)
    requires Same(a, b)
    ensures Same(ApplyTurn(a, e), ApplyTurn(b, e)) && KeepsIdentity(a, ApplyTurn(a, e))
  {
    match TurnKind(e)
    case Prompt => SetTaskStep(a, b, e.userText);
    case _ =>
  }

  lemma MessageStep(a: Agent, b: Agent, e: Event)
    requires Same(a, b)
    ensures Same(ApplyMessage(a, e), ApplyMessage(b, e)) && KeepsIdentity(a, ApplyMessage(a, e))
  {
  }

  lemma UserStep(a: Agent, b: Agent, e: Event)
    requires Same(a, b)
    ensures Same(ApplyUser(a, e), ApplyUser(b, e)) && KeepsIdentity(a, ApplyUser(a, e))
  {
  }

  lemma AssistantStep(a: Agent, b: Agent, e: Event)
    requires Same(a, b)
    ensures Same(ApplyAssistant(a, e), ApplyAssistant(b, e)) && KeepsIdentity(a, ApplyAssistant(a, e))
  {
  }

  lemma ClaudeStep(a: Agent, b: Agent, e: Event)
    requires Same(a, b)
    ensures Same(ApplyClaude(a, e), ApplyClaude(b, e)) && KeepsIdentity(a, ApplyClaude(a, e))
  {
  }

  /** No event lets the excepted fields influence the others, or changes the identity of the reader. */
  lemma EventsPreserveSameness(a: Agent, b: Agent, e: Event)
    requires Same(a, b)
    ensures Same(ApplyEvent(a, e), ApplyEvent(b, e)) && KeepsIdentity(a, ApplyEvent(a, e))
  {
    TitleStep(a, b, e);
    var a1, b1 := ApplyTitle(a, e), ApplyTitle(b, e);
    MetaStep(a1, b1, e);
    var a2, b2 := ApplyMeta(a1, e), ApplyMeta(b1, e);
    TurnContextStep(a2, b2, e);
    var a3, b3 := ApplyTurnContext(a2, e), ApplyTurnContext(b2, e);
    ItemStep(a3, b3, e);
    var a4, b4 := ApplyItem(a3, e), ApplyItem(b3, e);
    FinalMessageStep(a4, b4, e);
    var a5, b5 := ApplyFinalMessage(a4, e), ApplyFinalMessage(b4, e);
    TurnStep(a5, b5, e);
    var a6, b6 := ApplyTurn(a5, e), ApplyTurn(b5, e);
    MessageStep(a6, b6, e);
    var a7, b7 := ApplyMessage(a6, e), ApplyMessage(b6, e);
    UserStep(a7, b7, e);
    var a8, b8 := ApplyUser(a7, e), ApplyUser(b7, e);
    AssistantStep(a8, b8, e);
    var a9, b9 := ApplyAssistant(a8, e), ApplyAssistant(b8, e);
    ClaudeStep(a9, b9, e);
  }
}
