/**
 * The problem-discovery page: the keyword guard, the generated problems,
 * and adding one of them to the idea list.
 */
module Generator {
  import opened Wrappers
  import opened Domain
  import opened Seqs
  import Text

  /**
   * A generated problem. `handle` stands for the identity of the JavaScript
   * object: the list is filtered by reference, so two problems with equal
   * fields are still different problems.
   */
  datatype Problem = Problem(handle: nat, idea: Idea)

  /** The sample problem shown when generation throws. */
  const FallbackIdea: Idea := Idea(None, "API Monitoring Dashboard",
    "A simple tool for developers to monitor API uptime and performance with customizable alerts",
    "Developer Tools", Initial, Some(299), Some(500), None, None, None, None, None, None, None)

  /** `if (!keywords.trim()) return;`: generation needs a character that is not white space. */
  predicate CanGenerate(keywords: string)
    ensures CanGenerate(keywords) <==> exists i :: 0 <= i < |keywords| && !Text.IsWhitespace(keywords[i])
  {
    Text.TrimEmpty(keywords);
    Text.Trim(keywords) != []
  }

  /**
   * `handleGenerate`: blank keywords leave the list as it was; otherwise it
   * becomes the generator's problems, or the one sample problem (a new
   * object, `newHandle`) when generation throws.
   */
  function HandleGenerate(keywords: string, current: seq<Problem>, reply: Result<seq<Problem>>, newHandle: nat): (r: seq<Problem>)
    ensures !CanGenerate(keywords) ==> r == current
    ensures CanGenerate(keywords) && reply.Success? ==> r == reply.value
    ensures CanGenerate(keywords) && reply.Failure? ==> r == [Problem(newHandle, FallbackIdea)]
  {
    if !CanGenerate(keywords) then current
    else match reply
      case Success(problems) => problems
      case Failure(_) => [Problem(newHandle, FallbackIdea)]
  }

  /**
   * The idea `{ id: Date.now().toString(), ...problem, created_at }`: the
   * problem's own id, when it has one, wins over the timestamp id, and the
   * creation time always comes from the clock.
   */
  function NewIdea(problem: Problem, nowId: string, nowIso: string): (idea: Idea)
    ensures idea.id.Some?
    ensures problem.idea.id.Some? ==> idea.id == problem.idea.id
    ensures problem.idea.id.None? ==> idea.id == Some(nowId)
    ensures idea.createdAt == Some(nowIso)
    ensures idea.(id := problem.idea.id, createdAt := problem.idea.createdAt) == problem.idea
  {
    problem.idea.(id := Some(problem.idea.id.GetOr(nowId)), createdAt := Some(nowIso))
  }

  function NotThis(problem: Problem): Problem -> bool {
    (p: Problem) => p.handle != problem.handle
  }

  /** The idea list and the generated list after `addToIdeas(problem)`. */
  datatype Added = Added(ideas: seq<Idea>, generated: seq<Problem>)

  /**
   * `addToIdeas(problem)`: the new idea goes to the end of the list, and
   * the problem (by identity) leaves the generated list; the other problems
   * stay, in order.
   */
  function AddToIdeas(ideas: seq<Idea>, generated: seq<Problem>, problem: Problem,
                      nowId: string, nowIso: string): (r: Added)
    ensures |r.ideas| == |ideas| + 1 && r.ideas[..|ideas|] == ideas
    ensures r.ideas[|ideas|] == NewIdea(problem, nowId, nowIso)
    ensures forall i :: 0 <= i < |r.generated| ==> r.generated[i].handle != problem.handle && r.generated[i] in generated
    ensures forall i :: 0 <= i < |generated| && generated[i].handle != problem.handle ==> generated[i] in r.generated
    ensures r.generated == Filter(generated, NotThis(problem))
  {
    Added(ideas + [NewIdea(problem, nowId, nowIso)], Filter(generated, NotThis(problem)))
  }

  /** The remaining problems keep their order: removal distributes over concatenation. */
  lemma RemovalKeepsOrder(ideas: seq<Idea>, g1: seq<Problem>, g2: seq<Problem>, problem: Problem,
                          nowId: string, nowIso: string)
    ensures AddToIdeas(ideas, g1 + g2, problem, nowId, nowIso).generated
         == AddToIdeas(ideas, g1, problem, nowId, nowIso).generated
          + AddToIdeas(ideas, g2, problem, nowId, nowIso).generated
  {
    FilterAppend(g1, g2, NotThis(problem));
  }

  predicate DistinctHandles(s: seq<Problem>) {
    forall i, j :: 0 <= i < j < |s| ==> s[i].handle != s[j].handle
  }

  /**
   * When the generated problems are distinct objects and the chosen one is
   * among them, exactly one problem leaves the list.
   */
  lemma {:induction false} AddRemovesExactlyOne(generated: seq<Problem>, problem: Problem)
    requires DistinctHandles(generated)
    requires problem in generated
    ensures |Filter(generated, NotThis(problem))| == |generated| - 1
  {
    if generated[0] == problem {
      AllKept(generated[1..], problem);
    } else {
      AddRemovesExactlyOne(generated[1..], problem);
    }
  }

  lemma {:induction false} AllKept(s: seq<Problem>, problem: Problem)
    requires forall i :: 0 <= i < |s| ==> s[i].handle != problem.handle
    ensures Filter(s, NotThis(problem)) == s
  {
    if |s| > 0 {
      AllKept(s[1..], problem);
    }
  }
}
