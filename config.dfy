/** The plugin's configuration schema: a layout enum, three numeric fields
    with range checks, an exclude list, and the defaults that fill absent
    fields. Parsing collects every issue, as the schema library does, and
    either yields a complete configuration or the list of issues. */
module Config {
  import opened Wrappers

  /** The five tiling modes the multiplexer offers. */
  datatype Layout = MainVertical | MainHorizontal | Tiled | EvenHorizontal | EvenVertical

  function LayoutName(l: Layout): string {
    match l
    case MainVertical => "main-vertical"
    case MainHorizontal => "main-horizontal"
    case Tiled => "tiled"
    case EvenHorizontal => "even-horizontal"
    case EvenVertical => "even-vertical"
  }

  /** Enum membership: the layout named `s`, if `s` is one of the five names. */
  function ParseLayout(s: string): (r: Option<Layout>)
    ensures r.Some? <==> s in {"main-vertical", "main-horizontal", "tiled", "even-horizontal", "even-vertical"}
    ensures r.Some? ==> LayoutName(r.value) == s
  {
    if s == "main-vertical" then Some(MainVertical)
    else if s == "main-horizontal" then Some(MainHorizontal)
    else if s == "tiled" then Some(Tiled)
    else if s == "even-horizontal" then Some(EvenHorizontal)
    else if s == "even-vertical" then Some(EvenVertical)
    else None
  }

  const DefaultLayout: Layout := MainVertical
  const DefaultMainPaneSize: int := 60
  const DefaultMainPaneMinWidth: int := 120
  const DefaultAgentPaneMinWidth: int := 40

  const MainPaneSizeMin: int := 20
  const MainPaneSizeMax: int := 80
  const MainPaneMinWidthFloor: int := 40
  const AgentPaneMinWidthFloor: int := 20

  /** The input as supplied: every field may be absent. Field names follow
      the schema keys `layout`, `main_pane_size`, `main_pane_min_width`,
      `agent_pane_min_width` and `exclude`. */
  datatype RawConfig = RawConfig(
    layout: Option<string>,
    mainPaneSize: Option<int>,
    mainPaneMinWidth: Option<int>,
    agentPaneMinWidth: Option<int>,
    exclude: Option<seq<string>>)

  /** A parsed configuration: every field present. */
  datatype TmuxPanesConfig = TmuxPanesConfig(
    layout: Layout,
    mainPaneSize: int,
    mainPaneMinWidth: int,
    agentPaneMinWidth: int,
    exclude: seq<string>)

  datatype Field = MainPaneSizeField | MainPaneMinWidthField | AgentPaneMinWidthField

  /** One validation issue, in the order the schema's keys are declared. */
  datatype ConfigIssue =
    | InvalidLayout(name: string)
    | TooSmall(field: Field, minimum: int, received: int)
    | TooBig(field: Field, maximum: int, received: int)

  /** The configuration parsed from an empty input. */
  const Defaults: TmuxPanesConfig :=
    TmuxPanesConfig(DefaultLayout, DefaultMainPaneSize, DefaultMainPaneMinWidth, DefaultAgentPaneMinWidth, [])

  /** What every configuration the schema accepts satisfies. */
  predicate ConfigValid(c: TmuxPanesConfig) {
    && MainPaneSizeMin <= c.mainPaneSize <= MainPaneSizeMax
    && c.mainPaneMinWidth >= MainPaneMinWidthFloor
    && c.agentPaneMinWidth >= AgentPaneMinWidthFloor
  }

  function LayoutIssues(raw: Option<string>): seq<ConfigIssue> {
    if raw.Some? && ParseLayout(raw.value).None? then [InvalidLayout(raw.value)] else []
  }

  function MainPaneSizeIssues(raw: Option<int>): seq<ConfigIssue> {
    if raw.None? then []
    else if raw.value < MainPaneSizeMin then [TooSmall(MainPaneSizeField, MainPaneSizeMin, raw.value)]
    else if raw.value > MainPaneSizeMax then [TooBig(MainPaneSizeField, MainPaneSizeMax, raw.value)]
    else []
  }

  function MinimumIssues(field: Field, floor: int, raw: Option<int>): seq<ConfigIssue> {
    if raw.Some? && raw.value < floor then [TooSmall(field, floor, raw.value)] else []
  }

  /** All issues of `raw`, field by field. */
  function Issues(raw: RawConfig): seq<ConfigIssue> {
    LayoutIssues(raw.layout)
    + MainPaneSizeIssues(raw.mainPaneSize)
    + MinimumIssues(MainPaneMinWidthField, MainPaneMinWidthFloor, raw.mainPaneMinWidth)
    + MinimumIssues(AgentPaneMinWidthField, AgentPaneMinWidthFloor, raw.agentPaneMinWidth)
  }

  /** Parses `raw`: each absent field takes its default, each present field
      is checked and kept unchanged; any issue rejects the whole input. */
  function Parse(raw: RawConfig): (r: Result<TmuxPanesConfig, seq<ConfigIssue>>)
    ensures r.Success? <==>
      && (raw.layout.Some? ==> raw.layout.value in {"main-vertical", "main-horizontal", "tiled", "even-horizontal", "even-vertical"})
      && (raw.mainPaneSize.Some? ==> 20 <= raw.mainPaneSize.value <= 80)
      && (raw.mainPaneMinWidth.Some? ==> raw.mainPaneMinWidth.value >= 40)
      && (raw.agentPaneMinWidth.Some? ==> raw.agentPaneMinWidth.value >= 20)
    ensures r.Success? ==> ConfigValid(r.value)
    ensures r.Success? ==>
      && (raw.layout.Some? ==> LayoutName(r.value.layout) == raw.layout.value)
      && (raw.layout.None? ==> r.value.layout == MainVertical)
      && r.value.mainPaneSize == raw.mainPaneSize.GetOr(60)
      && r.value.mainPaneMinWidth == raw.mainPaneMinWidth.GetOr(120)
      && r.value.agentPaneMinWidth == raw.agentPaneMinWidth.GetOr(40)
      && r.value.exclude == raw.exclude.GetOr([])
    ensures r.Failure? ==> |r.error| > 0
  {
    var issues := Issues(raw);
    if issues != [] then Failure(issues)
    else
      var layout := if raw.layout.Some? then ParseLayout(raw.layout.value).value else DefaultLayout;
      Success(TmuxPanesConfig(
        layout,
        raw.mainPaneSize.GetOr(DefaultMainPaneSize),
        raw.mainPaneMinWidth.GetOr(DefaultMainPaneMinWidth),
        raw.agentPaneMinWidth.GetOr(DefaultAgentPaneMinWidth),
        raw.exclude.GetOr([])))
  }

  /** The raw input that spells out every field of `c`. */
  function ToRaw(c: TmuxPanesConfig): RawConfig {
    RawConfig(Some(LayoutName(c.layout)), Some(c.mainPaneSize), Some(c.mainPaneMinWidth),
              Some(c.agentPaneMinWidth), Some(c.exclude))
  }

  const EmptyInput: RawConfig := RawConfig(None, None, None, None, None)

  /** Parsing an empty input yields the documented defaults. */
  lemma ParseEmptyYieldsDefaults()
    ensures Parse(EmptyInput) == Success(Defaults)
    ensures Defaults.layout == MainVertical && Defaults.mainPaneSize == 60
    ensures Defaults.mainPaneMinWidth == 120 && Defaults.agentPaneMinWidth == 40 && Defaults.exclude == []
  {
  }

  /** Every layout name parses back to its layout. */
  lemma LayoutNameRoundTrip(l: Layout)
    ensures ParseLayout(LayoutName(l)) == Some(l)
  {
  }

  /** A layout value is accepted exactly when it is one of the five names,
      and an accepted value comes out unchanged. */
  lemma LayoutAcceptedExactly(s: string)
    ensures Parse(RawConfig(Some(s), None, None, None, None)).Success? <==> ParseLayout(s).Some?
    ensures ParseLayout(s).Some? ==> Parse(RawConfig(Some(s), None, None, None, None)).value.layout == ParseLayout(s).value
  {
  }

  /** `main_pane_size` is accepted exactly in [20, 80]: 19 and 81 are
      rejected, 50 is accepted and kept. */
  lemma MainPaneSizeRange(n: int)
    ensures Parse(RawConfig(None, Some(n), None, None, None)).Success? <==> 20 <= n <= 80
    ensures Parse(RawConfig(None, Some(19), None, None, None)).Failure?
    ensures Parse(RawConfig(None, Some(81), None, None, None)).Failure?
    ensures Parse(RawConfig(None, Some(50), None, None, None)) == Success(Defaults.(mainPaneSize := 50))
  {
  }

  /** Every accepted configuration has positive minimum widths. */
  lemma ValidWidthsPositive(c: TmuxPanesConfig)
    requires ConfigValid(c)
    ensures c.mainPaneMinWidth > 0 && c.agentPaneMinWidth > 0
  {
  }

  /** Round trip: a valid configuration written out in full parses back to
      itself, so parsing keeps every supplied valid value. */
  lemma {:induction false} ParseToRaw(c: TmuxPanesConfig)
    requires ConfigValid(c)
    ensures Parse(ToRaw(c)) == Success(c)
  {
    LayoutNameRoundTrip(c.layout);
  }

  /** A configuration the schema produced parses back to itself. */
  lemma ParseIsIdempotent(raw: RawConfig)
    requires Parse(raw).Success?
    ensures Parse(ToRaw(Parse(raw).value)) == Parse(raw)
  {
    ParseToRaw(Parse(raw).value);
  }
}
