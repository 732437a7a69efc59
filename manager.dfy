/** The pane manager: it owns the session cache and runs the
    query -> decide -> execute -> update flow for each lifecycle event.
    Only admission reconciles the cache from the results the executor
    confirmed; deletion and the cleanups drop entries whatever the outcome
    of their closes, and the synchronous cleanup and the orphan sweep do
    not consult the decision engine.

    Its collaborators are parameters of each operation. `Deps` holds the
    injected ones as they behave during that call (an awaited promise either
    resolves or is rejected); the decision engine's two functions are passed
    as `SpawnDecider` and `CloseDecider`. */
module Manager {
  import opened Wrappers
  import opened Config
  import opened Suppression
  import opened CoreTypes

  /** Description of a session that has no title. */
  const DefaultDescription: string := "Subagent"
  /** Title prefix of the panes this plugin spawns. */
  const OrphanTitlePrefix: string := "omo-subagent-"
  /** Session id placed on the close actions of the orphan sweep. */
  const OrphanSessionId: string := "orphan"

  datatype Deps = Deps(
    isInsideTmux: () -> bool,
    queryWindowState: string -> Async<Option<WindowState>>,
    executeActions: (seq<PaneAction>, ExecuteContext) -> Async<ExecuteActionsResult>,
    executeAction: (PaneAction, ExecuteContext) -> Async<ActionResult>)

  type SpawnDecider = (WindowState, string, string, CapacityConfig, seq<SessionMapping>) -> SpawnDecision
  type CloseDecider = (WindowState, string, seq<SessionMapping>) -> Option<PaneAction>

  /** How far the admission flow got for one session. */
  datatype Admission =
    | QueryRejected
    | NoWindowState
    | Refused(decision: SpawnDecision)
    | BatchRejected
    | Executed(result: ExecuteActionsResult)

  /** How far the retirement flow got for one tracked session. */
  datatype Retirement =
    | RetireQueryRejected
    | RetireNoWindowState
    | NothingToClose
    | CloseRejected(action: PaneAction)
    | Closed(action: PaneAction, result: ActionResult)

  predicate Distinct(s: seq<string>) {
    forall i, j :: 0 <= i < j < |s| ==> s[i] != s[j]
  }

  /** `s` without the elements of `drop`, in the same order. */
  function Without(s: seq<string>, drop: set<string>): seq<string> {
    if s == [] then []
    else (if s[0] in drop then [] else [s[0]]) + Without(s[1..], drop)
  }

  /** Removal keeps exactly the elements not dropped, and keeps a sequence
      without repetitions free of them. */
  lemma {:induction false} WithoutMembers(s: seq<string>, drop: set<string>)
    ensures forall x :: x in Without(s, drop) <==> x in s && x !in drop
    ensures Distinct(s) ==> Distinct(Without(s, drop))
  {
    if s != [] {
      WithoutMembers(s[1..], drop);
      if Distinct(s) {
        assert Distinct(s[1..]);
        assert s[0] !in s[1..];
      }
    }
  }

  lemma {:induction false} WithoutTwice(s: seq<string>, a: set<string>, b: set<string>)
    ensures Without(Without(s, a), b) == Without(s, a + b)
  {
    if s != [] {
      var rest := Without(s[1..], a);
      WithoutTwice(s[1..], a, b);
      if s[0] in a {
        assert Without(s, a) == rest;
      } else {
        var t := [s[0]] + rest;
        assert Without(s, a) == t;
        assert t[0] == s[0] && t[1..] == rest;
        assert Without(t, b) == (if s[0] in b then [] else [s[0]]) + Without(rest, b);
      }
    }
  }

  lemma {:induction false} WithoutNothing(s: seq<string>)
    ensures Without(s, {}) == s
  {
    if s != [] {
      WithoutNothing(s[1..]);
    }
  }

  /** A distinct sequence listing exactly the members of `keys` has one
      element per member. */
  lemma {:induction false} DistinctListingSize(s: seq<string>, keys: set<string>)
    requires Distinct(s)
    requires forall x :: x in s <==> x in keys
    ensures |s| == |keys|
  {
    if s != [] {
      assert s[0] in keys;
      forall x | x in s[1..] ensures x in keys - {s[0]} {
        var j :| 1 <= j < |s| && s[j] == x;
      }
      DistinctListingSize(s[1..], keys - {s[0]});
    }
  }

  /** Whether one executed action confirms that session `k` lost its pane:
      a successful close of `k`, or a successful replace whose old session is `k`. */
  predicate RetiresKey(o: ActionOutcome, k: string) {
    o.result.success
    && ((o.action.Close? && o.action.sessionId == k) || (o.action.Replace? && o.action.oldSessionId == k))
  }

  /** The sessions one executed action retires. */
  function Retired(o: ActionOutcome): set<string> {
    (if o.action.Close? && o.result.success then {o.action.sessionId} else {})
    + (if o.action.Replace? && o.result.success then {o.action.oldSessionId} else {})
  }

  /** The sessions a sequence of executed actions retires, in execution order. */
  function RetiredBy(rs: seq<ActionOutcome>): set<string> {
    if rs == [] then {} else RetiredBy(rs[..|rs| - 1]) + Retired(rs[|rs| - 1])
  }

  /** A session is retired by a batch exactly when one of its results is a
      successful close of it or a successful replace of it. */
  lemma {:induction false} RetiredByMembers(rs: seq<ActionOutcome>)
    ensures forall k :: k in RetiredBy(rs) <==> exists i :: 0 <= i < |rs| && RetiresKey(rs[i], k)
  {
    if rs != [] {
      var init := rs[..|rs| - 1];
      RetiredByMembers(init);
      assert forall i :: 0 <= i < |init| ==> init[i] == rs[i];
    }
  }

  lemma RetiredByStep(rs: seq<ActionOutcome>, i: int)
    requires 0 <= i < |rs|
    ensures RetiredBy(rs[..i + 1]) == RetiredBy(rs[..i]) + Retired(rs[i])
  {
    assert rs[..i + 1][..i] == rs[..i];
  }

  lemma MapWithoutTwice(m: map<string, TrackedSession>, a: set<string>, b: set<string>)
    ensures m - a - b == m - (a + b)
  {
  }

  /** One step of the reconciliation loop: deleting what result `i` retires
      from the state reached after the first `i` results gives the state
      after the first `i + 1`. */
  lemma RetireStep(table: map<string, TrackedSession>, order: seq<string>, rs: seq<ActionOutcome>, i: int)
    requires 0 <= i < |rs|
    ensures table - RetiredBy(rs[..i]) - Retired(rs[i]) == table - RetiredBy(rs[..i + 1])
    ensures Without(Without(order, RetiredBy(rs[..i])), Retired(rs[i])) == Without(order, RetiredBy(rs[..i + 1]))
  {
    RetiredByStep(rs, i);
    WithoutTwice(order, RetiredBy(rs[..i]), Retired(rs[i]));
    MapWithoutTwice(table, RetiredBy(rs[..i]), Retired(rs[i]));
  }

  /** Whether a batch confirmed a new pane: overall success and a truthy pane id. */
  predicate Spawned(result: ExecuteActionsResult) {
    result.success && IsTruthy(result.spawnedPaneId)
  }

  /** The cache after reconciling a batch for `sessionId`. */
  function CacheAfterBatch(table: map<string, TrackedSession>, result: ExecuteActionsResult,
                           sessionId: string, title: string, now: int): map<string, TrackedSession>
  {
    var kept := table - RetiredBy(result.results);
    if Spawned(result) then kept[sessionId := TrackedSession(sessionId, result.spawnedPaneId.value, title, now, now)]
    else kept
  }

  /** The cache's insertion order after the same reconciliation. */
  function OrderAfterBatch(order: seq<string>, result: ExecuteActionsResult, sessionId: string): seq<string> {
    Without(order, RetiredBy(result.results)) + (if Spawned(result) then [sessionId] else [])
  }

  /** Reconciliation removes exactly the sessions some successful close or
      replace retired, adds the new session only on a confirmed spawn, and
      leaves every other entry as it was. */
  lemma CacheAfterBatchChanges(table: map<string, TrackedSession>, result: ExecuteActionsResult,
                               sessionId: string, title: string, now: int)
    requires sessionId !in table
    ensures var after := CacheAfterBatch(table, result, sessionId, title, now);
      && (forall k :: k in after <==>
            (k == sessionId && Spawned(result))
            || (k in table && !exists i :: 0 <= i < |result.results| && RetiresKey(result.results[i], k)))
      && (forall k :: k in after && k != sessionId ==> after[k] == table[k])
      && (Spawned(result) ==> after[sessionId] == TrackedSession(sessionId, result.spawnedPaneId.value, title, now, now))
  {
    RetiredByMembers(result.results);
  }

  /** Whether a pane carries the title prefix of this plugin's panes. */
  predicate HasOrphanTitle(p: PaneInfo) {
    p.title.Some? && OrphanTitlePrefix <= p.title.value
  }

  /** The observed agent panes with the plugin's title prefix, in observed order. */
  function Orphaned(panes: seq<PaneInfo>): (r: seq<PaneInfo>)
    ensures forall p :: p in r <==> p in panes && HasOrphanTitle(p)
    ensures |r| <= |panes|
  {
    if panes == [] then []
    else (if HasOrphanTitle(panes[0]) then [panes[0]] else []) + Orphaned(panes[1..])
  }

  /** The filter keeps observed order: filtering two observations one after
      the other gives the two filtered lists one after the other. */
  lemma {:induction false} OrphanedAppend(a: seq<PaneInfo>, b: seq<PaneInfo>)
    ensures Orphaned(a + b) == Orphaned(a) + Orphaned(b)
  {
    if a != [] {
      assert (a + b)[0] == a[0] && (a + b)[1..] == a[1..] + b;
      OrphanedAppend(a[1..], b);
    } else {
      assert a + b == b;
    }
  }

  /** The `tmux kill-pane -t <pane>` command line of the synchronous cleanup. */
  function KillPaneCommand(tmux: string, paneId: string): seq<string> {
    [tmux, "kill-pane", "-t", paneId]
  }

  class TmuxPaneManager {
    const config: TmuxPanesConfig
    const serverUrl: string
    const sourcePaneId: Option<string>
    /** The session cache, keyed by session id. */
    var sessions: map<string, TrackedSession>
    /** The cache's keys in insertion order, the order a JavaScript Map iterates in. */
    var order: seq<string>
    /** Sessions whose admission is in progress. */
    var pendingSessions: set<string>

    ghost predicate Valid()
      reads this
    {
      && Distinct(order)
      && (forall k :: k in order <==> k in sessions)
      && (forall k :: k in sessions ==> sessions[k].sessionId == k)
    }

    constructor (config: TmuxPanesConfig, serverUrl: string, sourcePaneId: Option<string>)
      ensures Valid()
      ensures this.config == config && this.serverUrl == serverUrl && this.sourcePaneId == sourcePaneId
      ensures sessions == map[] && order == [] && pendingSessions == {}
    {
      this.config := config;
      this.serverUrl := serverUrl;
      this.sourcePaneId := sourcePaneId;
      sessions := map[];
      order := [];
      pendingSessions := {};
    }

    /** Enabled exactly when running inside the multiplexer with a non-empty source pane id. */
    predicate IsEnabled(deps: Deps)
      ensures IsEnabled(deps) <==> deps.isInsideTmux() && sourcePaneId.Some? && sourcePaneId.value != ""
    {
      deps.isInsideTmux() && IsTruthy(sourcePaneId)
    }

    /** The tracked session ids, in insertion order, each once. */
    function GetTrackedSessions(): (ids: seq<string>)
      reads this
      requires Valid()
      ensures Distinct(ids)
      ensures forall k :: k in ids <==> k in sessions
      ensures |ids| == |sessions|
    {
      DistinctListingSize(order, sessions.Keys);
      order
    }

    function GetTmuxConfig(): (c: TmuxConfig)
      ensures c.enabled
      ensures c.layout == config.layout && c.mainPaneSize == config.mainPaneSize
      ensures c.mainPaneMinWidth == config.mainPaneMinWidth && c.agentPaneMinWidth == config.agentPaneMinWidth
    {
      TmuxConfig(true, config.layout, config.mainPaneSize, config.mainPaneMinWidth, config.agentPaneMinWidth)
    }

    /** The capacity floors, taken from the configuration; positive whenever
        the configuration is one the schema accepts. */
    function GetCapacityConfig(): (c: CapacityConfig)
      ensures c.mainPaneMinWidth == config.mainPaneMinWidth && c.agentPaneWidth == config.agentPaneMinWidth
      ensures ConfigValid(config) ==> c.mainPaneMinWidth >= 40 && c.agentPaneWidth >= 20
    {
      CapacityConfig(config.mainPaneMinWidth, config.agentPaneMinWidth)
    }

    /** One mapping per tracked session, in insertion order. */
    function GetSessionMappings(): (ms: seq<SessionMapping>)
      reads this
      requires Valid()
      ensures |ms| == |order|
      ensures forall i :: 0 <= i < |ms| ==>
        && ms[i].sessionId == order[i]
        && ms[i].paneId == sessions[order[i]].paneId
        && ms[i].createdAt == sessions[order[i]].createdAt
    {
      var keys, table := order, sessions;
      seq(|keys|, i requires 0 <= i < |keys| && keys[i] in table =>
        SessionMapping(table[keys[i]].sessionId, table[keys[i]].paneId, table[keys[i]].createdAt))
    }

    /** One close per tracked session, in insertion order, for its pane. */
    function TrackedCloseActions(): (closes: seq<PaneAction>)
      reads this
      requires Valid()
      ensures |closes| == |order|
      ensures forall i :: 0 <= i < |closes| ==> closes[i] == Close(sessions[order[i]].paneId, order[i])
      ensures forall k :: k in sessions <==> exists i :: 0 <= i < |closes| && closes[i].sessionId == k
    {
      var keys, table := order, sessions;
      seq(|keys|, i requires 0 <= i < |keys| && keys[i] in table =>
        Close(table[keys[i]].paneId, table[keys[i]].sessionId))
    }

    /** The description recorded for a new session. */
    function Description(info: SessionInfo): (d: string)
      ensures info.title.Some? ==> d == info.title.value
      ensures info.title.None? ==> d == "Subagent"
    {
      info.title.GetOr(DefaultDescription)
    }

    function Context(state: WindowState): ExecuteContext {
      ExecuteContext(GetTmuxConfig(), serverUrl, state)
    }

    /** Whether a creation request for `info` passes every early exit. */
    predicate AdmissionStarts(info: SessionInfo, deps: Deps)
      reads this
    {
      IsEnabled(deps) && IsTruthy(info.parentID) && info.id !in sessions && info.id !in pendingSessions
    }

    /** The path the admission flow takes, given what its collaborators report. */
    function AdmissionOf(sessionId: string, title: string, deps: Deps, decideSpawn: SpawnDecider,
                         mappings: seq<SessionMapping>): Admission
      requires IsTruthy(sourcePaneId)
    {
      var query := deps.queryWindowState(sourcePaneId.value);
      if query.Rejected? then QueryRejected
      else if query.value.None? then NoWindowState
      else
        var state := query.value.value;
        var decision := decideSpawn(state, sessionId, title, GetCapacityConfig(), mappings);
        if !decision.canSpawn then Refused(decision)
        else
          var batch := deps.executeActions(decision.actions, Context(state));
          if batch.Rejected? then BatchRejected else Executed(batch.value)
    }

    /** The path the retirement flow takes for a tracked session. */
    function RetirementOf(sessionId: string, deps: Deps, decideClose: CloseDecider,
                          mappings: seq<SessionMapping>): Retirement
      requires IsTruthy(sourcePaneId)
    {
      var query := deps.queryWindowState(sourcePaneId.value);
      if query.Rejected? then RetireQueryRejected
      else if query.value.None? then RetireNoWindowState
      else
        var state := query.value.value;
        var action := decideClose(state, sessionId, mappings);
        if action.None? then NothingToClose
        else
          var outcome := deps.executeAction(action.value, Context(state));
          if outcome.Rejected? then CloseRejected(action.value) else Closed(action.value, outcome.value)
    }

    /** `sessions.delete(k)` */
    method Delete(k: string)
      requires Valid()
      modifies this`sessions, this`order
      ensures Valid()
      ensures sessions == old(sessions) - {k} && order == Without(old(order), {k})
    {
      WithoutMembers(order, {k});
      sessions := sessions - {k};
      order := Without(order, {k});
    }

    /** `sessions.set(k, v)`: a new key goes last, an existing one keeps its place. */
    method Insert(k: string, v: TrackedSession)
      requires Valid() && v.sessionId == k
      modifies this`sessions, this`order
      ensures Valid()
      ensures sessions == old(sessions)[k := v]
      ensures order == if k in old(sessions) then old(order) else old(order) + [k]
    {
      if k !in sessions {
        order := order + [k];
      }
      sessions := sessions[k := v];
    }

    /** `sessions.clear()` */
    method Clear()
      modifies this`sessions, this`order
      ensures Valid()
      ensures sessions == map[] && order == []
    {
      sessions := map[];
      order := [];
    }

    /** Admits a child session: query the window, ask the decision engine,
        execute its actions and record only confirmed outcomes. The session
        is pending while this runs and is released on every exit path,
        including a rejected collaborator call (`raised`). */
    method OnSessionCreated(info: SessionInfo, deps: Deps, decideSpawn: SpawnDecider, now: int)
      returns (raised: bool)
      requires Valid()
      modifies this
      ensures Valid()
      ensures pendingSessions == old(pendingSessions)
      ensures !old(AdmissionStarts(info, deps)) ==> sessions == old(sessions) && order == old(order) && !raised
      ensures old(AdmissionStarts(info, deps)) ==>
        var path := AdmissionOf(info.id, Description(info), deps, decideSpawn, old(GetSessionMappings()));
        && raised == (path.QueryRejected? || path.BatchRejected?)
        && (!path.Executed? ==> sessions == old(sessions) && order == old(order))
        && (path.Executed? ==>
              && sessions == CacheAfterBatch(old(sessions), path.result, info.id, Description(info), now)
              && order == OrderAfterBatch(old(order), path.result, info.id))
    {
      raised := false;
      if !IsEnabled(deps) {
        return;
      }
      var sessionId := info.id;
      var title := Description(info);
      if !IsTruthy(info.parentID) {
        return;
      }
      if sessionId in sessions || sessionId in pendingSessions {
        return;
      }
      if !IsTruthy(sourcePaneId) {
        // unreachable: IsEnabled already demands a source pane id
        assert false;
      }
      pendingSessions := pendingSessions + {sessionId};
      raised := AdmitPending(sessionId, title, deps, decideSpawn, now);
      pendingSessions := pendingSessions - {sessionId};
    }

    /** The guarded body of the admission flow, between marking the session
        pending and releasing it. */
    method AdmitPending(sessionId: string, title: string, deps: Deps, decideSpawn: SpawnDecider, now: int)
      returns (raised: bool)
      requires Valid() && IsTruthy(sourcePaneId) && sessionId !in sessions
      modifies this`sessions, this`order
      ensures Valid()
      ensures
        var path := AdmissionOf(sessionId, title, deps, decideSpawn, old(GetSessionMappings()));
        && raised == (path.QueryRejected? || path.BatchRejected?)
        && (!path.Executed? ==> sessions == old(sessions) && order == old(order))
        && (path.Executed? ==>
              && sessions == CacheAfterBatch(old(sessions), path.result, sessionId, title, now)
              && order == OrderAfterBatch(old(order), path.result, sessionId))
    {
      var query := deps.queryWindowState(sourcePaneId.value);
      if query.Rejected? {
        return true;
      }
      if query.value.None? {
        return false;
      }
      var state := query.value.value;
      var decision := decideSpawn(state, sessionId, title, GetCapacityConfig(), GetSessionMappings());
      if !decision.canSpawn {
        return false;
      }
      var batch := deps.executeActions(decision.actions, Context(state));
      if batch.Rejected? {
        return true;
      }
      var result := batch.value;
      raised := false;

      RemoveRetired(result.results);
      if Spawned(result) {
        Insert(sessionId, TrackedSession(sessionId, result.spawnedPaneId.value, title, now, now));
      }
    }

    /** The reconciliation loop: deletes, one result at a time, each session
        a successful close or replace retired. */
    method RemoveRetired(results: seq<ActionOutcome>)
      requires Valid()
      modifies this`sessions, this`order
      ensures Valid()
      ensures sessions == old(sessions) - RetiredBy(results)
      ensures order == Without(old(order), RetiredBy(results))
    {
      WithoutNothing(order);
      assert results[..0] == [];
      assert RetiredBy(results[..0]) == {};
      assert sessions - {} == sessions;
      var i := 0;
      while i < |results|
        invariant 0 <= i <= |results|
        invariant Valid()
        invariant sessions == old(sessions) - RetiredBy(results[..i])
        invariant order == Without(old(order), RetiredBy(results[..i]))
      {
        RetireStep(old(sessions), old(order), results, i);
        RetireOne(results[i]);
        i := i + 1;
      }
      assert results[..|results|] == results;
    }

    /** The body of the reconciliation loop for one executed action: a
        successful close drops its session, a successful replace drops its
        old session, anything else changes nothing. */
    method RetireOne(entry: ActionOutcome)
      requires Valid()
      modifies this`sessions, this`order
      ensures Valid()
      ensures sessions == old(sessions) - Retired(entry)
      ensures order == Without(old(order), Retired(entry))
    {
      if entry.action.Close? && entry.result.success {
        assert Retired(entry) == {entry.action.sessionId};
        Delete(entry.action.sessionId);
      }
      if entry.action.Replace? && entry.result.success {
        assert Retired(entry) == {entry.action.oldSessionId};
        Delete(entry.action.oldSessionId);
      }
      if Retired(entry) == {} {
        WithoutNothing(order);
      }
    }

    /** Retires a session: a tracked entry is dropped once the window could
        not be observed, there was nothing to close, or the close ran;
        a rejected query or close leaves it in place. */
    method OnSessionDeleted(sessionId: string, deps: Deps, decideClose: CloseDecider)
      returns (issued: Option<PaneAction>, raised: bool)
      requires Valid()
      modifies this`sessions, this`order
      ensures Valid()
      ensures !IsEnabled(deps) || sessionId !in old(sessions) ==>
        sessions == old(sessions) && order == old(order) && issued == None && !raised
      ensures IsEnabled(deps) && sessionId in old(sessions) ==>
        var path := RetirementOf(sessionId, deps, decideClose, old(GetSessionMappings()));
        && raised == (path.RetireQueryRejected? || path.CloseRejected?)
        && issued == (if path.CloseRejected? || path.Closed? then Some(path.action) else None)
        && (raised ==> sessions == old(sessions) && order == old(order))
        && (!raised ==> sessions == old(sessions) - {sessionId} && order == Without(old(order), {sessionId}))
    {
      issued, raised := None, false;
      if !IsEnabled(deps) {
        return;
      }
      if !IsTruthy(sourcePaneId) {
        // unreachable: IsEnabled already demands a source pane id
        assert false;
      }
      if sessionId !in sessions {
        return;
      }
      var query := deps.queryWindowState(sourcePaneId.value);
      if query.Rejected? {
        raised := true;
        return;
      }
      if query.value.None? {
        Delete(sessionId);
        return;
      }
      var state := query.value.value;
      var closeAction := decideClose(state, sessionId, GetSessionMappings());
      if closeAction.Some? {
        issued := closeAction;
        var outcome := deps.executeAction(closeAction.value, Context(state));
        if outcome.Rejected? {
          raised := true;
          return;
        }
      }
      Delete(sessionId);
    }

    /** Normal shutdown: one close per tracked session, every failure
        swallowed, then an empty cache. `closes` lists the closes issued. */
    method Cleanup(deps: Deps) returns (closes: seq<PaneAction>, raised: bool)
      requires Valid()
      modifies this`sessions, this`order
      ensures Valid()
      ensures |old(sessions)| == 0 || !IsTruthy(sourcePaneId) ==>
        sessions == old(sessions) && order == old(order) && closes == [] && !raised
      ensures |old(sessions)| > 0 && IsTruthy(sourcePaneId) ==>
        var query := deps.queryWindowState(sourcePaneId.value);
        && raised == query.Rejected?
        && (query.Rejected? ==> sessions == old(sessions) && order == old(order) && closes == [])
        && (query.Resolved? ==> sessions == map[] && order == [])
        && (query.Resolved? && query.value.None? ==> closes == [])
        && (query.Resolved? && query.value.Some? ==> closes == old(TrackedCloseActions()))
    {
      closes, raised := [], false;
      if |sessions| == 0 {
        return;
      }
      if !IsTruthy(sourcePaneId) {
        return;
      }
      var query := deps.queryWindowState(sourcePaneId.value);
      if query.Rejected? {
        raised := true;
        return;
      }
      if query.value.None? {
        Clear();
        return;
      }
      // The closes run concurrently and each one's rejection is caught, so
      // their outcomes do not affect what follows.
      closes := TrackedCloseActions();
      Clear();
    }

    /** Exit-path cleanup: with a cached executable path, one `kill-pane`
        per tracked session in insertion order, then an empty cache;
        without one, nothing happens. `commands` lists the command lines run. */
    method CleanupSync(cachedTmuxPath: Option<string>) returns (commands: seq<seq<string>>)
      requires Valid()
      modifies this`sessions, this`order
      ensures Valid()
      ensures |old(sessions)| == 0 || !IsTruthy(cachedTmuxPath) ==>
        sessions == old(sessions) && order == old(order) && commands == []
      ensures |old(sessions)| > 0 && IsTruthy(cachedTmuxPath) ==>
        && sessions == map[] && order == []
        && |commands| == |old(order)|
        && forall i :: 0 <= i < |commands| ==>
             commands[i] == KillPaneCommand(cachedTmuxPath.value, old(sessions)[old(order)[i]].paneId)
    {
      commands := [];
      if |sessions| == 0 {
        return;
      }
      if !IsTruthy(cachedTmuxPath) {
        return;
      }
      var tmux := cachedTmuxPath.value;
      var i := 0;
      while i < |order|
        invariant 0 <= i <= |order|
        invariant |commands| == i
        invariant forall j :: 0 <= j < i ==> commands[j] == KillPaneCommand(tmux, sessions[order[j]].paneId)
      {
        // a failing or timed-out kill is caught and the loop goes on
        commands := commands + [KillPaneCommand(tmux, sessions[order[i]].paneId)];
        i := i + 1;
      }
      Clear();
    }

    /** Startup sweep: closes every observed agent pane whose title has the
        plugin's prefix, in observed order, with session id "orphan". It
        does not consult the cache and changes nothing in it. */
    method CleanupOrphanedPanes(deps: Deps) returns (closes: seq<PaneAction>, raised: bool)
      ensures !IsTruthy(sourcePaneId) ==> closes == [] && !raised
      ensures IsTruthy(sourcePaneId) ==>
        var query := deps.queryWindowState(sourcePaneId.value);
        && raised == query.Rejected?
        && (query.Rejected? || query.value.None? ==> closes == [])
        && (query.Resolved? && query.value.Some? ==>
              var orphans := Orphaned(query.value.value.agentPanes);
              && |closes| == |orphans|
              && forall i :: 0 <= i < |closes| ==> closes[i] == Close(orphans[i].paneId, "orphan"))
    {
      closes, raised := [], false;
      if !IsTruthy(sourcePaneId) {
        return;
      }
      var query := deps.queryWindowState(sourcePaneId.value);
      if query.Rejected? {
        raised := true;
        return;
      }
      if query.value.None? {
        return;
      }
      var orphans := Orphaned(query.value.value.agentPanes);
      if |orphans| == 0 {
        return;
      }
      var i := 0;
      while i < |orphans|
        invariant 0 <= i <= |orphans|
        invariant |closes| == i
        invariant forall j :: 0 <= j < i ==> closes[j] == Close(orphans[j].paneId, OrphanSessionId)
      {
        // each close's rejection is caught and the sweep goes on
        closes := closes + [Close(orphans[i].paneId, OrphanSessionId)];
        i := i + 1;
      }
    }
  }
}
