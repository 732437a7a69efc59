/** The data the manager exchanges with its collaborators: observed window
    geometry, the decision engine's output, and the action executor's
    results. Only the shapes are modelled; the collaborators themselves are
    parameters of the manager's operations. */
module CoreTypes {
  import opened Wrappers
  import opened Config

  /** One observed pane. The title is optional, as the orphan sweep reads it
      with optional chaining. */
  datatype PaneInfo = PaneInfo(
    paneId: string,
    width: int,
    height: int,
    left: int,
    top: int,
    title: Option<string>,
    isActive: bool)

  /** One observation of the window holding the source pane. */
  datatype WindowState = WindowState(
    windowWidth: int,
    windowHeight: int,
    mainPane: Option<PaneInfo>,
    agentPanes: seq<PaneInfo>)

  datatype CapacityConfig = CapacityConfig(mainPaneMinWidth: int, agentPaneWidth: int)

  /** What the decision engine is told about one cached session. */
  datatype SessionMapping = SessionMapping(sessionId: string, paneId: string, createdAt: int)

  /** One entry of the manager's session cache; timestamps in milliseconds. */
  datatype TrackedSession = TrackedSession(
    sessionId: string,
    paneId: string,
    description: string,
    createdAt: int,
    lastSeenAt: int)

  datatype PaneAction =
    | Spawn(title: string, sessionId: string)
    | Close(paneId: string, sessionId: string)
    | Replace(paneId: string, oldSessionId: string, newSessionId: string, newTitle: string)

  datatype ActionResult = ActionResult(success: bool, paneId: Option<string>, error: Option<string>)

  /** One entry of an executed batch: the action and how it ended. */
  datatype ActionOutcome = ActionOutcome(action: PaneAction, result: ActionResult)

  datatype ExecuteActionsResult = ExecuteActionsResult(
    success: bool,
    spawnedPaneId: Option<string>,
    results: seq<ActionOutcome>)

  datatype SpawnDecision = SpawnDecision(canSpawn: bool, reason: string, actions: seq<PaneAction>)

  /** The layout settings handed to the executor. */
  datatype TmuxConfig = TmuxConfig(
    enabled: bool,
    layout: Layout,
    mainPaneSize: int,
    mainPaneMinWidth: int,
    agentPaneMinWidth: int)

  datatype ExecuteContext = ExecuteContext(config: TmuxConfig, serverUrl: string, windowState: WindowState)
}
