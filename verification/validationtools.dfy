/** The validation toolkit: generated questions, recorded outcomes, and the results panel. */
module ValidationTools {
  import opened Wrappers
  import opened Domain
  import opened Seqs
  import opened Selection
  import Text
  import IdeaStore

  /** One interview question; `kind` is the `type` key shown as a label. */
  datatype Question = Question(kind: string, question: string, purpose: string)

  /** What a generate request leaves in the component: the questions and the survey text. */
  datatype Toolkit = Toolkit(questions: seq<Question>, survey: string)

  const FallbackQuestions: seq<Question> := [
    Question("problem_validation", "How often do you currently face this problem?",
             "Understand frequency and impact of the problem"),
    Question("solution_interest", "If a solution existed, how likely would you be to try it?",
             "Gauge interest in potential solution"),
    Question("pricing_sensitivity", "What would you expect to pay for such a solution monthly?",
             "Understand willingness to pay")]

  const SurveyQuestions: string :=
    "\n\n1. How often do you face this problem?\n2. What solutions do you currently use?\n"
    + "3. What's your biggest challenge with current solutions?\n4. How much would you pay for a better solution?"

  /** The sample survey, titled with the idea's name. */
  function FallbackSurvey(name: string): string {
    "Survey: " + name + " Validation" + SurveyQuestions
  }

  /**
   * `handleGenerateValidation`: the guard of the shared picker, then the
   * generated questions and survey, or the samples when generation throws.
   */
  function GenerateValidation(selected: string, ideas: seq<Idea>, current: Toolkit, reply: Result<Toolkit>): (r: Toolkit)
    ensures SelectedIdea(selected, ideas).None? ==> r == current
    ensures SelectedIdea(selected, ideas).Some? && reply.Success? ==> r == reply.value
    ensures SelectedIdea(selected, ideas).Some? && reply.Failure? ==>
      r.questions == FallbackQuestions && r.survey == FallbackSurvey(SelectedIdea(selected, ideas).value.name)
  {
    match SelectedIdea(selected, ideas)
    case None => current
    case Some(idea) => if reply.Success? then reply.value else Toolkit(FallbackQuestions, FallbackSurvey(idea.name))
  }

  /** The badge under each question. */
  function QuestionBadge(q: Question): string {
    Text.Label(q.kind)
  }

  /** The first sample question is badged "PROBLEM VALIDATION". */
  lemma FallbackBadge()
    ensures QuestionBadge(FallbackQuestions[0]) == "PROBLEM VALIDATION"
  {
    Text.QuestionTypeLabelExample();
  }

  function Validated(result: ValidationRecord): Idea -> Idea {
    (idea: Idea) => idea.(stage := result.stage, validationData := Some(result))
  }

  /** The two pieces of state `recordValidationResult` writes. */
  datatype Recorded = Recorded(results: map<string, ValidationRecord>, ideas: seq<Idea>)

  /**
   * `recordValidationResult(ideaId, result)`: the result is stored under
   * the id, replacing any earlier one, and every idea with that id takes
   * the result's stage and keeps the result as its validation data.
   */
  function RecordValidationResult(results: map<string, ValidationRecord>, ideas: seq<Idea>,
                                  ideaId: string, result: ValidationRecord): (r: Recorded)
    ensures r.results.Keys == results.Keys + {ideaId}
    ensures r.results[ideaId] == result
    ensures forall k :: k in results && k != ideaId ==> r.results[k] == results[k]
    ensures |r.ideas| == |ideas|
    ensures forall i :: 0 <= i < |ideas| ==>
      r.ideas[i] == if HasId(ideas[i], ideaId) then ideas[i].(stage := result.stage, validationData := Some(result))
                    else ideas[i]
  {
    Recorded(results[ideaId := result], IdeaStore.UpdateWhere(ideas, ideaId, Validated(result)))
  }

  predicate HasValidationData(idea: Idea) {
    idea.validationData.Some?
  }

  /** `ideas.some(idea => idea.validation_data)`: whether the results panel is shown at all. */
  predicate ShowsResults(ideas: seq<Idea>) {
    exists i :: 0 <= i < |ideas| && HasValidationData(ideas[i])
  }

  /** `ideas.filter(idea => idea.validation_data)`: the ideas listed in the results panel. */
  function ResultsPanel(ideas: seq<Idea>): (r: seq<Idea>)
    ensures forall i :: 0 <= i < |r| ==> r[i].validationData.Some? && r[i] in ideas
    ensures forall i :: 0 <= i < |ideas| && ideas[i].validationData.Some? ==> ideas[i] in r
  {
    Filter(ideas, HasValidationData)
  }

  /** The panel lists the ideas in list order: it distributes over concatenation. */
  lemma ResultsPanelKeepsOrder(a: seq<Idea>, b: seq<Idea>)
    ensures ResultsPanel(a + b) == ResultsPanel(a) + ResultsPanel(b)
  {
    FilterAppend(a, b, HasValidationData);
  }

  /** The panel is shown exactly when it has something to list. */
  lemma PanelShownIffNonEmpty(ideas: seq<Idea>)
    ensures ShowsResults(ideas) <==> ResultsPanel(ideas) != []
  {
    if ShowsResults(ideas) {
      var i :| 0 <= i < |ideas| && HasValidationData(ideas[i]);
      assert ideas[i] in ResultsPanel(ideas);
    }
    if ResultsPanel(ideas) != [] {
      var x := ResultsPanel(ideas)[0];
      var i :| 0 <= i < |ideas| && ideas[i] == x;
      assert HasValidationData(ideas[i]);
    }
  }

  /**
   * Recording a result for an idea in the list puts that idea, with its
   * new stage, into the results panel.
   */
  lemma RecordedIdeaIsListed(results: map<string, ValidationRecord>, ideas: seq<Idea>,
                             ideaId: string, result: ValidationRecord, i: nat)
    requires i < |ideas| && HasId(ideas[i], ideaId)
    ensures ShowsResults(RecordValidationResult(results, ideas, ideaId, result).ideas)
    ensures ideas[i].(stage := result.stage, validationData := Some(result))
            in ResultsPanel(RecordValidationResult(results, ideas, ideaId, result).ideas)
  {
    var after := RecordValidationResult(results, ideas, ideaId, result).ideas;
    assert HasValidationData(after[i]);
  }
}
