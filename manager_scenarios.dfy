/** Concrete runs of the manager, one per behaviour its tests describe,
    stated for every decision engine that gives the answer the scenario needs. */
module ManagerScenarios {
  import opened Wrappers
  import opened Config
  import opened Suppression
  import opened CoreTypes
  import opened Manager

  const ServerUrl: string := "http://localhost:4096"
  const MainPane: PaneInfo := PaneInfo("%0", 200, 50, 0, 0, Some(""), true)
  const AgentPane: PaneInfo := PaneInfo("%1", 100, 50, 100, 0, Some(""), false)
  const EmptyWindow: WindowState := WindowState(200, 50, Some(MainPane), [])
  const WindowWithAgent: WindowState := WindowState(200, 50, Some(MainPane), [AgentPane])
  const ChildSession: SessionInfo := SessionInfo("session-123", Some("test-agent"), Some("parent-456"), None)

  /** Collaborators that always give the same answers. */
  function FixedDeps(inside: bool, state: Option<WindowState>, batch: ExecuteActionsResult): Deps {
    Deps(
      () => inside,
      (pane: string) => Resolved(state),
      (actions: seq<PaneAction>, ctx: ExecuteContext) => Resolved(batch),
      (action: PaneAction, ctx: ExecuteContext) => Resolved(ActionResult(true, None, None)))
  }

  const SpawnedBatch: ExecuteActionsResult := ExecuteActionsResult(true, Some("%1"), [])

  /** Disabled outside the multiplexer, enabled inside it with source pane "%0". */
  method EnabledOnlyInsideTmux() returns (outside: bool, inside: bool)
    ensures !outside && inside
  {
    var m := new TmuxPaneManager(Defaults, ServerUrl, Some("%0"));
    outside := m.IsEnabled(FixedDeps(false, None, SpawnedBatch));
    inside := m.IsEnabled(FixedDeps(true, None, SpawnedBatch));
  }

  /** A fresh manager inside the multiplexer, after the creation of
      `ChildSession` in `window` with a decider that allows the spawn and an
      executor that confirms pane "%1". */
  method SpawnChild(window: WindowState, decideSpawn: SpawnDecider, now: int)
    returns (m: TmuxPaneManager, deps: Deps)
    requires decideSpawn(window, "session-123", "test-agent", CapacityConfig(120, 40), []).canSpawn
    ensures fresh(m) && m.Valid() && m.sourcePaneId == Some("%0")
    ensures deps == FixedDeps(true, Some(window), SpawnedBatch)
    ensures m.sessions == map["session-123" := TrackedSession("session-123", "%1", "test-agent", now, now)]
    ensures m.order == ["session-123"] && m.pendingSessions == {}
  {
    m := new TmuxPaneManager(Defaults, ServerUrl, Some("%0"));
    deps := FixedDeps(true, Some(window), SpawnedBatch);
    assert m.GetSessionMappings() == [];
    var raised := m.OnSessionCreated(ChildSession, deps, decideSpawn, now);
    assert RetiredBy([]) == {};
    WithoutNothing([]);
  }

  /** A confirmed spawn with no per-action results tracks exactly the new session. */
  method TracksSessionAfterSpawn(decideSpawn: SpawnDecider) returns (tracked: seq<string>, description: string)
    requires decideSpawn(EmptyWindow, "session-123", "test-agent", CapacityConfig(120, 40), []).canSpawn
    ensures tracked == ["session-123"]
    ensures description == "test-agent"
  {
    var m, deps := SpawnChild(EmptyWindow, decideSpawn, 0);
    tracked := m.GetTrackedSessions();
    description := m.sessions["session-123"].description;
  }

  /** Creating and then deleting a session leaves nothing tracked, whatever
      the close decision is. */
  method UntracksSessionAfterDelete(decideSpawn: SpawnDecider, decideClose: CloseDecider)
    returns (afterCreate: seq<string>, afterDelete: seq<string>)
    requires decideSpawn(WindowWithAgent, "session-123", "test-agent", CapacityConfig(120, 40), []).canSpawn
    ensures afterCreate == ["session-123"]
    ensures afterDelete == []
  {
    var m, deps := SpawnChild(WindowWithAgent, decideSpawn, 0);
    afterCreate := m.GetTrackedSessions();
    assert m.IsEnabled(deps);
    var issued, raisedOnDelete := m.OnSessionDeleted("session-123", deps, decideClose);
    assert !raisedOnDelete && m.sessions == map[];
    afterDelete := m.GetTrackedSessions();
  }

  /** A second creation request for a tracked session changes nothing: the
      entry, the order and the pending set stay as the first creation left
      them, and nothing is raised, whatever the second batch would report. */
  method SecondCreationIgnored(decideSpawn: SpawnDecider, batch: ExecuteActionsResult)
    returns (tracked: seq<string>, cache: map<string, TrackedSession>, order: seq<string>,
             pending: set<string>, raised: bool)
    requires decideSpawn(EmptyWindow, "session-123", "test-agent", CapacityConfig(120, 40), []).canSpawn
    ensures tracked == ["session-123"]
    ensures cache == map["session-123" := TrackedSession("session-123", "%1", "test-agent", 0, 0)]
    ensures order == ["session-123"] && pending == {} && !raised
  {
    var m, deps := SpawnChild(EmptyWindow, decideSpawn, 0);
    raised := m.OnSessionCreated(ChildSession, FixedDeps(true, Some(EmptyWindow), batch), decideSpawn, 1);
    tracked := m.GetTrackedSessions();
    cache, order, pending := m.sessions, m.order, m.pendingSessions;
  }

  /** The startup sweep closes the one pane with the plugin's prefix and
      leaves the foreign pane alone. */
  method SweepClosesOnlyPrefixedPane() returns (closes: seq<PaneAction>)
    ensures closes == [Close("%2", "orphan")]
  {
    var m := new TmuxPaneManager(Defaults, ServerUrl, Some("%0"));
    var orphan := PaneInfo("%2", 80, 50, 120, 0, Some("omo-subagent-explore"), false);
    var state := WindowState(200, 50, Some(MainPane), [AgentPane, orphan]);
    assert !HasOrphanTitle(AgentPane) && HasOrphanTitle(orphan);
    assert Orphaned([orphan]) == [orphan];
    assert Orphaned(state.agentPanes) == [orphan];
    var raised;
    closes, raised := m.CleanupOrphanedPanes(FixedDeps(true, Some(state), SpawnedBatch));
  }
}
