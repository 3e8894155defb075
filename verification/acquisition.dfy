/** The acquisition planner: generating a strategy, applying it, and labelling its timeline. */
module Acquisition {
  import opened Wrappers
  import opened Domain
  import opened Selection
  import Text
  import IdeaStore

  /** The sample strategy shown when the generator throws: a five-step timeline. */
  const FallbackStrategy: AcquisitionStrategy := AcquisitionStrategy(
    [("week_1", "Set up social media presence and identify target communities"),
     ("week_2", "Start engaging in communities and creating helpful content"),
     ("week_3", "Begin direct outreach to warm prospects"),
     ("week_4", "Launch content marketing and gather feedback"),
     ("week_5_8", "Scale successful channels and optimize messaging")],
    "guerilla")

  /** `handleGenerateStrategy`: the new value of the `acquisitionStrategy` state. */
  function GenerateStrategy(selected: string, ideas: seq<Idea>, current: Option<AcquisitionStrategy>,
                            reply: Result<AcquisitionStrategy>): (r: Option<AcquisitionStrategy>)
    ensures SelectedIdea(selected, ideas).None? ==> r == current
    ensures SelectedIdea(selected, ideas).Some? ==> r.Some?
    ensures SelectedIdea(selected, ideas).Some? && reply.Failure? ==> r == Some(FallbackStrategy)
    ensures SelectedIdea(selected, ideas).Some? && reply.Success? ==> r == Some(reply.value)
  {
    var wrapped := match reply
      case Success(s) => Success(Some(s))
      case Failure(e) => Failure(e);
    Generate(selected, ideas, current, wrapped, Some(FallbackStrategy))
  }

  function WithStrategy(strategy: AcquisitionStrategy): Idea -> Idea {
    (idea: Idea) => idea.(acquisitionStrategy := Some(strategy))
  }

  /**
   * `applyStrategyToIdea`: with an id chosen and a strategy present, every
   * idea with that id gets the strategy and nothing else about it changes.
   */
  function ApplyStrategy(selected: string, strategy: Option<AcquisitionStrategy>, ideas: seq<Idea>): (r: seq<Idea>)
    ensures selected == [] || strategy.None? ==> r == ideas
    ensures |r| == |ideas|
    ensures forall i :: 0 <= i < |ideas| && !HasId(ideas[i], selected) ==> r[i] == ideas[i]
    ensures strategy.Some? && selected != [] ==> forall i :: 0 <= i < |ideas| && HasId(ideas[i], selected) ==>
      r[i] == ideas[i].(acquisitionStrategy := strategy)
  {
    if selected == [] || strategy.None? then ideas
    else IdeaStore.UpdateWhere(ideas, selected, WithStrategy(strategy.value))
  }

  /** Applying the same strategy twice is the same as applying it once. */
  lemma ApplyStrategyIdempotent(selected: string, strategy: Option<AcquisitionStrategy>, ideas: seq<Idea>)
    ensures ApplyStrategy(selected, strategy, ApplyStrategy(selected, strategy, ideas))
         == ApplyStrategy(selected, strategy, ideas)
  {
    var once := ApplyStrategy(selected, strategy, ideas);
    assert forall i :: 0 <= i < |ideas| ==> HasId(once[i], selected) == HasId(ideas[i], selected);
  }

  /** The rows of the 8-week plan: each timeline key as a label, next to its action. */
  function TimelineRows(strategy: AcquisitionStrategy): (rows: seq<(string, string)>)
    ensures |rows| == |strategy.timeline|
    ensures forall i :: 0 <= i < |rows| ==>
      rows[i].0 == Text.Label(strategy.timeline[i].0) && rows[i].1 == strategy.timeline[i].1
  {
    seq(|strategy.timeline|, i requires 0 <= i < |strategy.timeline| =>
      (Text.Label(strategy.timeline[i].0), strategy.timeline[i].1))
  }

  /**
   * Only the first underscore of a key becomes a space: the sample's last
   * step is shown as "WEEK 5_8", not "WEEK 5 8".
   */
  lemma FallbackLastRowLabel()
    ensures TimelineRows(FallbackStrategy)[4].0 == "WEEK 5_8"
  {
    Text.TimelineLabelExample();
  }
}
