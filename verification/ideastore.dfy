/**
 * The client-side idea list of the `useIdeas` hook. Each mutator first
 * refuses to run without a signed-in user, then sends a request whose
 * reply is a parameter here, and on success applies a pure update to the
 * list: prepend, merge by id, delete by id, or append children by id.
 */
module IdeaStore {
  import opened Wrappers
  import opened Domain
  import opened Seqs
  import Validation

  const NotAuthenticated: string := "User not authenticated"

  /** The list after a mutator, and what the mutator returned or threw. */
  datatype Mutation<T> = Mutation(ideas: seq<Idea>, outcome: Result<T>)

  /** Applies `f` to every idea carrying `id`; the rest of the list is left as it was. */
  function UpdateWhere(ideas: seq<Idea>, id: string, f: Idea -> Idea): (r: seq<Idea>)
    ensures |r| == |ideas|
    ensures forall i :: 0 <= i < |ideas| ==> r[i] == if HasId(ideas[i], id) then f(ideas[i]) else ideas[i]
  {
    if |ideas| == 0 then []
    else [if HasId(ideas[0], id) then f(ideas[0]) else ideas[0]] + UpdateWhere(ideas[1..], id, f)
  }

  /** An idea freshly inserted: it carries none of the joined or local-only fields. */
  function FromRow(row: Row): Idea {
    Idea(Some(row.id), row.name, row.description, row.category, row.stage, row.revenue,
         row.targetUsers, Some(row.createdAt), Some(row.updatedAt), None, None, None, None, None)
  }

  /** `{ ...idea, ...row }`: the table's columns come from the row, everything else stays. */
  function Merge(idea: Idea, row: Row): (m: Idea)
    ensures m.id == Some(row.id) && m.name == row.name && m.description == row.description
    ensures m.category == row.category && m.stage == row.stage
    ensures m.revenue == row.revenue && m.targetUsers == row.targetUsers
    ensures m.createdAt == Some(row.createdAt) && m.updatedAt == Some(row.updatedAt)
    ensures m.painPoints == idea.painPoints && m.signals == idea.signals
    ensures m.pricingStrategy == idea.pricingStrategy && m.acquisitionStrategy == idea.acquisitionStrategy
    ensures m.validationData == idea.validationData
  {
    idea.(id := Some(row.id), name := row.name, description := row.description,
          category := row.category, stage := row.stage, revenue := row.revenue,
          targetUsers := row.targetUsers, createdAt := Some(row.createdAt),
          updatedAt := Some(row.updatedAt))
  }

  /** `fetchIdeas`: no user empties the list; a failed query keeps it; `data || []` otherwise. */
  function FetchIdeas(user: Option<string>, prev: seq<Idea>, reply: Result<Option<seq<Idea>>>): (r: seq<Idea>)
    ensures user.None? ==> r == []
    ensures user.Some? && reply.Failure? ==> r == prev
    ensures user.Some? && reply.Success? ==> r == reply.value.GetOr([])
  {
    if user.None? then []
    else match reply
      case Failure(_) => prev
      case Success(data) => data.GetOr([])
  }

  /** `createIdea`: the inserted record goes to the front of the list. */
  function CreateIdea(user: Option<string>, prev: seq<Idea>, reply: Result<Row>): (m: Mutation<Row>)
    ensures user.None? ==> m == Mutation(prev, Failure(NotAuthenticated))
    ensures user.Some? && reply.Failure? ==> m == Mutation(prev, reply)
    ensures user.Some? && reply.Success? ==>
              && m.outcome == reply
              && |m.ideas| == |prev| + 1
              && m.ideas[0] == FromRow(reply.value)
              && m.ideas[1..] == prev
  {
    if user.None? then Mutation(prev, Failure(NotAuthenticated))
    else match reply
      case Failure(e) => Mutation(prev, Failure(e))
      case Success(row) => Mutation([FromRow(row)] + prev, reply)
  }

  /** `updateIdea`: every idea with the id has the returned columns merged in. */
  function UpdateIdea(user: Option<string>, prev: seq<Idea>, ideaId: string, reply: Result<Row>): (m: Mutation<Row>)
    ensures user.None? ==> m == Mutation(prev, Failure(NotAuthenticated))
    ensures user.Some? && reply.Failure? ==> m == Mutation(prev, reply)
    ensures user.Some? && reply.Success? ==>
              && m.outcome == reply
              && |m.ideas| == |prev|
              && (forall i :: 0 <= i < |prev| && !HasId(prev[i], ideaId) ==> m.ideas[i] == prev[i])
              && (forall i :: 0 <= i < |prev| && HasId(prev[i], ideaId) ==> m.ideas[i] == Merge(prev[i], reply.value))
  {
    if user.None? then Mutation(prev, Failure(NotAuthenticated))
    else match reply
      case Failure(e) => Mutation(prev, Failure(e))
      case Success(row) => Mutation(UpdateWhere(prev, ideaId, (idea: Idea) => Merge(idea, row)), reply)
  }

  /** Merging a second row overwrites every column the first one set: the later reply wins. */
  lemma MergeLastWins(idea: Idea, first: Row, second: Row)
    ensures Merge(Merge(idea, first), second) == Merge(idea, second)
  {
  }

  /** Updating with the reply just merged changes nothing more. */
  lemma UpdateIdeaIdempotent(user: string, prev: seq<Idea>, ideaId: string, row: Row)
    requires row.id == ideaId
    ensures var once := UpdateIdea(Some(user), prev, ideaId, Success(row)).ideas;
            UpdateIdea(Some(user), once, ideaId, Success(row)).ideas == once
  {
    var once := UpdateIdea(Some(user), prev, ideaId, Success(row)).ideas;
    var twice := UpdateIdea(Some(user), once, ideaId, Success(row)).ideas;
    forall i | 0 <= i < |prev|
      ensures twice[i] == once[i]
    {
      if HasId(prev[i], ideaId) {
        MergeLastWins(prev[i], row, row);
      }
    }
  }

  function LacksId(id: string): Idea -> bool {
    (idea: Idea) => !HasId(idea, id)
  }

  /** `deleteIdea`: every idea with the id leaves the list; the others keep their order. */
  function DeleteIdea(user: Option<string>, prev: seq<Idea>, ideaId: string, reply: Result<()>): (m: Mutation<()>)
    ensures user.None? ==> m == Mutation(prev, Failure(NotAuthenticated))
    ensures user.Some? && reply.Failure? ==> m == Mutation(prev, reply)
    ensures user.Some? && reply.Success? ==>
              && m.outcome == reply
              && (forall i :: 0 <= i < |m.ideas| ==> !HasId(m.ideas[i], ideaId))
              && (forall i :: 0 <= i < |prev| && !HasId(prev[i], ideaId) ==> prev[i] in m.ideas)
              && m.ideas == Filter(prev, LacksId(ideaId))
  {
    if user.None? then Mutation(prev, Failure(NotAuthenticated))
    else match reply
      case Failure(e) => Mutation(prev, Failure(e))
      case Success(_) => Mutation(Filter(prev, LacksId(ideaId)), reply)
  }

  /** Deleting the id of a record just created restores the list it was created on. */
  lemma DeleteUndoesCreate(user: string, prev: seq<Idea>, row: Row)
    requires forall i :: 0 <= i < |prev| ==> !HasId(prev[i], row.id)
    ensures DeleteIdea(Some(user), CreateIdea(Some(user), prev, Success(row)).ideas, row.id, Success(())).ideas == prev
  {
    FilterAppend([FromRow(row)], prev, LacksId(row.id));
    FilterKeepsAll(prev, LacksId(row.id));
  }

  /** A filter that every element passes is the identity. */
  lemma {:induction false} FilterKeepsAll<T>(s: seq<T>, p: T -> bool)
    requires forall i :: 0 <= i < |s| ==> p(s[i])
    ensures Filter(s, p) == s
  {
    if |s| > 0 {
      FilterKeepsAll(s[1..], p);
    }
  }

  /** `[...(idea.pain_points || []), ...rows]` */
  function WithPainPoints(idea: Idea, rows: seq<PainPoint>): Idea {
    idea.(painPoints := Some(idea.painPoints.GetOr([]) + rows))
  }

  /** `addPainPoints`: the inserted rows follow the matching idea's existing pain points. */
  function AddPainPoints(user: Option<string>, prev: seq<Idea>, ideaId: string,
                         reply: Result<seq<PainPoint>>): (m: Mutation<seq<PainPoint>>)
    ensures user.None? ==> m == Mutation(prev, Failure(NotAuthenticated))
    ensures user.Some? && reply.Failure? ==> m == Mutation(prev, reply)
    ensures user.Some? && reply.Success? ==>
              && m.outcome == reply
              && |m.ideas| == |prev|
              && forall i :: 0 <= i < |prev| ==>
                   if HasId(prev[i], ideaId) then
                     && m.ideas[i].painPoints == Some(prev[i].painPoints.GetOr([]) + reply.value)
                     && m.ideas[i] == prev[i].(painPoints := m.ideas[i].painPoints)
                   else m.ideas[i] == prev[i]
  {
    if user.None? then Mutation(prev, Failure(NotAuthenticated))
    else match reply
      case Failure(e) => Mutation(prev, Failure(e))
      case Success(rows) => Mutation(UpdateWhere(prev, ideaId, (idea: Idea) => WithPainPoints(idea, rows)), reply)
  }

  /** `[...(idea.validation_signals || []), signal]` */
  function WithSignal(idea: Idea, signal: Signal): Idea {
    idea.(signals := Some(idea.signals.GetOr([]) + [signal]))
  }

  /** `addValidationSignal`: exactly one signal is appended to the matching idea's list. */
  function AddValidationSignal(user: Option<string>, prev: seq<Idea>, ideaId: string,
                               reply: Result<Signal>): (m: Mutation<Signal>)
    ensures user.None? ==> m == Mutation(prev, Failure(NotAuthenticated))
    ensures user.Some? && reply.Failure? ==> m == Mutation(prev, reply)
    ensures user.Some? && reply.Success? ==>
              && m.outcome == reply
              && |m.ideas| == |prev|
              && forall i :: 0 <= i < |prev| ==>
                   if HasId(prev[i], ideaId) then
                     && m.ideas[i].signals == Some(prev[i].signals.GetOr([]) + [reply.value])
                     && m.ideas[i] == prev[i].(signals := m.ideas[i].signals)
                   else m.ideas[i] == prev[i]
  {
    if user.None? then Mutation(prev, Failure(NotAuthenticated))
    else match reply
      case Failure(e) => Mutation(prev, Failure(e))
      case Success(signal) => Mutation(UpdateWhere(prev, ideaId, (idea: Idea) => WithSignal(idea, signal)), reply)
  }

  /** Recording a validation signal never lowers the matching idea's validation score. */
  lemma AddSignalNeverLowersScore(user: string, prev: seq<Idea>, ideaId: string, signal: Signal, i: nat)
    requires i < |prev|
    ensures Validation.Analyze(AddValidationSignal(Some(user), prev, ideaId, Success(signal)).ideas[i].signals).score
            >= Validation.Analyze(prev[i].signals).score
  {
    if HasId(prev[i], ideaId) && prev[i].signals.Some? {
      Validation.AppendNeverLowersScore(prev[i].signals.value, signal);
    }
  }

  function StageIs(stage: string): Idea -> bool {
    (idea: Idea) => idea.stage == stage
  }

  function CategoryIs(category: string): Idea -> bool {
    (idea: Idea) => idea.category == category
  }

  /** `getIdeasByStage`: the ideas whose stage is exactly `stage`, in list order. */
  function IdeasByStage(ideas: seq<Idea>, stage: string): (r: seq<Idea>)
    ensures forall i :: 0 <= i < |r| ==> r[i].stage == stage && r[i] in ideas
    ensures forall i :: 0 <= i < |ideas| && ideas[i].stage == stage ==> ideas[i] in r
  {
    Filter(ideas, StageIs(stage))
  }

  /** `getIdeasByCategory`: the ideas whose category is exactly `category`, in list order. */
  function IdeasByCategory(ideas: seq<Idea>, category: string): (r: seq<Idea>)
    ensures forall i :: 0 <= i < |r| ==> r[i].category == category && r[i] in ideas
    ensures forall i :: 0 <= i < |ideas| && ideas[i].category == category ==> ideas[i] in r
  {
    Filter(ideas, CategoryIs(category))
  }

  /** Both lookups keep list order: they distribute over concatenation. */
  lemma LookupsKeepOrder(a: seq<Idea>, b: seq<Idea>, stage: string, category: string)
    ensures IdeasByStage(a + b, stage) == IdeasByStage(a, stage) + IdeasByStage(b, stage)
    ensures IdeasByCategory(a + b, category) == IdeasByCategory(a, category) + IdeasByCategory(b, category)
  {
    FilterAppend(a, b, StageIs(stage));
    FilterAppend(a, b, CategoryIs(category));
  }

  function RevenueOf(idea: Idea): int {
    OrZero(idea.revenue)
  }

  function TargetUsersOf(idea: Idea): int {
    OrZero(idea.targetUsers)
  }

  /** `getTotalRevenuePotential`: `reduce((sum, idea) => sum + (idea.revenue_potential || 0), 0)`. */
  function TotalRevenue(ideas: seq<Idea>): (t: int)
    ensures ideas == [] ==> t == 0
    ensures (forall i :: 0 <= i < |ideas| ==> OrZero(ideas[i].revenue) >= 0) ==> t >= 0
  {
    if forall i :: 0 <= i < |ideas| ==> OrZero(ideas[i].revenue) >= 0 then
      SumByNonNegative(ideas, RevenueOf);
      SumBy(ideas, RevenueOf)
    else
      SumBy(ideas, RevenueOf)
  }

  /** `getTotalTargetUsers`, the same sum over `target_users`. */
  function TotalTargetUsers(ideas: seq<Idea>): (t: int)
    ensures ideas == [] ==> t == 0
    ensures (forall i :: 0 <= i < |ideas| ==> OrZero(ideas[i].targetUsers) >= 0) ==> t >= 0
  {
    if forall i :: 0 <= i < |ideas| ==> OrZero(ideas[i].targetUsers) >= 0 then
      SumByNonNegative(ideas, TargetUsersOf);
      SumBy(ideas, TargetUsersOf)
    else
      SumBy(ideas, TargetUsersOf)
  }

  /**
   * The totals are running sums starting at 0 in which a missing value
   * counts as 0.
   */
  lemma TotalsAreRunningSums(ideas: seq<Idea>, idea: Idea)
    ensures TotalRevenue([]) == 0 && TotalTargetUsers([]) == 0
    ensures TotalRevenue(ideas + [idea]) == TotalRevenue(ideas) + idea.revenue.GetOr(0)
    ensures TotalTargetUsers(ideas + [idea]) == TotalTargetUsers(ideas) + idea.targetUsers.GetOr(0)
  {
    SumByAppend(ideas, [idea], RevenueOf);
    SumByAppend(ideas, [idea], TargetUsersOf);
  }
}
