/**
 * The idea picker shared by the three planners: a `<select>` whose value is
 * an idea id, or the empty string while nothing is chosen.
 */
module Selection {
  import opened Wrappers
  import opened Domain

  /** The index of the first idea carrying `id`, or |ideas| when none does. */
  function FirstWithId(ideas: seq<Idea>, id: string): (k: nat)
    ensures k <= |ideas|
    ensures k < |ideas| ==> HasId(ideas[k], id)
    ensures forall j :: 0 <= j < k ==> !HasId(ideas[j], id)
  {
    if |ideas| == 0 then 0
    else if HasId(ideas[0], id) then 0
    else 1 + FirstWithId(ideas[1..], id)
  }

  /** `ideas.find(i => i.id === id)`. */
  function FindIdea(ideas: seq<Idea>, id: string): (r: Option<Idea>)
    ensures r.None? <==> forall i :: 0 <= i < |ideas| ==> !HasId(ideas[i], id)
    ensures r.Some? ==> HasId(r.value, id) && r.value in ideas
  {
    var k := FirstWithId(ideas, id);
    if k < |ideas| then Some(ideas[k]) else None
  }

  /** A found idea is the earliest match: no idea before it carries the id. */
  lemma FindIdeaIsFirst(ideas: seq<Idea>, id: string, i: nat)
    requires i < |ideas| && HasId(ideas[i], id)
    ensures FindIdea(ideas, id).Some?
    ensures exists j :: 0 <= j <= i && ideas[j] == FindIdea(ideas, id).value
  {
    var k := FirstWithId(ideas, id);
    assert k <= i;
  }

  /**
   * The guard at the top of every "generate" handler: nothing happens
   * unless an id is chosen (`!selectedIdea` is true for "") and an idea
   * with that id is in the list.
   */
  function SelectedIdea(selected: string, ideas: seq<Idea>): (r: Option<Idea>)
    ensures selected == [] ==> r.None?
    ensures r.None? <==> selected == [] || forall i :: 0 <= i < |ideas| ==> !HasId(ideas[i], selected)
    ensures r.Some? ==> HasId(r.value, selected) && r.value in ideas
  {
    if selected == [] then None else FindIdea(ideas, selected)
  }

  /**
   * The state a planner's generate handler leaves behind: unchanged when
   * the guard stops it, the generator's reply when that succeeds, and the
   * component's built-in sample when the generator throws.
   */
  function Generate<T>(selected: string, ideas: seq<Idea>, current: T, reply: Result<T>, fallback: T): (r: T)
    ensures SelectedIdea(selected, ideas).None? ==> r == current
    ensures SelectedIdea(selected, ideas).Some? ==> r == if reply.Success? then reply.value else fallback
  {
    match SelectedIdea(selected, ideas)
    case None => current
    case Some(_) => if reply.Success? then reply.value else fallback
  }
}
