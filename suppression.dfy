/** The suppression policy consulted before a session is admitted: an
    explicit metadata opt-out wins; otherwise the session is suppressed when
    its title matches any exclude pattern. Glob matching is a parameter. */
module Suppression {
  import opened Wrappers
  import opened Config

  /** A JSON-like metadata value. */
  datatype MetaValue = MetaBool(b: bool) | MetaString(s: string) | MetaNumber(n: int) | MetaNull

  type Metadata = map<string, MetaValue>

  /** What the host reports about a session. */
  datatype SessionInfo = SessionInfo(
    id: string,
    title: Option<string>,
    parentID: Option<string>,
    metadata: Option<Metadata>)

  /** A glob matcher: `matches(text, pattern)`. */
  type Matcher = (string, string) -> bool

  /** `metadata.tmux === false`: only the boolean `false` opts out. */
  predicate OptedOut(info: SessionInfo) {
    info.metadata.Some? && "tmux" in info.metadata.value && info.metadata.value["tmux"] == MetaBool(false)
  }

  /** The title matched against patterns; a missing title is the empty string. */
  function MatchTitle(info: SessionInfo): string {
    info.title.GetOr("")
  }

  /** Early-return search over the patterns, in list order. */
  function AnyMatch(text: string, patterns: seq<string>, matches: Matcher): (r: bool)
    ensures r <==> exists i :: 0 <= i < |patterns| && matches(text, patterns[i])
  {
    if patterns == [] then false
    else if matches(text, patterns[0]) then true
    else AnyMatch(text, patterns[1..], matches)
  }

  /** Whether the session is kept out of pane management. */
  function ShouldSuppress(info: SessionInfo, config: TmuxPanesConfig, matches: Matcher): (r: bool)
    ensures OptedOut(info) ==> r
    ensures !OptedOut(info) ==>
      (r <==> exists i :: 0 <= i < |config.exclude| && matches(MatchTitle(info), config.exclude[i]))
  {
    if OptedOut(info) then true
    else AnyMatch(MatchTitle(info), config.exclude, matches)
  }

  /** The opt-out wins regardless of title and patterns. */
  lemma OptOutWins(info: SessionInfo, config: TmuxPanesConfig, matches: Matcher, title: Option<string>)
    requires OptedOut(info)
    ensures ShouldSuppress(info.(title := title), config, matches)
  {
  }

  /** With no exclude patterns only the opt-out suppresses: metadata with
      `tmux: true`, with unrelated fields, or no metadata at all, is kept. */
  lemma NoPatternsNoSuppression(info: SessionInfo, config: TmuxPanesConfig, matches: Matcher)
    requires config.exclude == []
    ensures ShouldSuppress(info, config, matches) <==> OptedOut(info)
  {
  }

  /** A missing title behaves exactly like the empty title. */
  lemma MissingTitleIsEmpty(info: SessionInfo, config: TmuxPanesConfig, matches: Matcher)
    ensures ShouldSuppress(info.(title := None), config, matches)
         == ShouldSuppress(info.(title := Some("")), config, matches)
  {
  }

  /** The result depends only on which patterns are present, not on their
      order or repetition. */
  lemma PatternOrderIrrelevant(info: SessionInfo, config: TmuxPanesConfig, other: seq<string>, matches: Matcher)
    requires forall p :: p in config.exclude <==> p in other
    ensures ShouldSuppress(info, config, matches) == ShouldSuppress(info, config.(exclude := other), matches)
  {
    var t := MatchTitle(info);
    if AnyMatch(t, config.exclude, matches) {
      var i :| 0 <= i < |config.exclude| && matches(t, config.exclude[i]);
      assert config.exclude[i] in other;
      var j :| 0 <= j < |other| && other[j] == config.exclude[i];
      assert matches(t, other[j]);
    }
    if AnyMatch(t, other, matches) {
      var j :| 0 <= j < |other| && matches(t, other[j]);
      assert other[j] in config.exclude;
      var i :| 0 <= i < |config.exclude| && config.exclude[i] == other[j];
      assert matches(t, config.exclude[i]);
    }
  }
}
