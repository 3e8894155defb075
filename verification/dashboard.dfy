/** The dashboard's four counters and its "recent ideas" strip. */
module Dashboard {
  import opened Domain
  import opened Seqs
  import opened IdeaStore
  import IdeaService
  import Generator

  datatype Stats = Stats(activeIdeas: nat, validatedIdeas: nat, revenuePotential: int, targetUsers: int)

  /** The `stats` cards, computed from the list the page is given. */
  function DashboardStats(ideas: seq<Idea>): (s: Stats)
    ensures s.activeIdeas == |ideas|
    ensures s.validatedIdeas <= s.activeIdeas
    ensures ideas == [] ==> s == Stats(0, 0, 0, 0)
  {
    Stats(|ideas|, |Filter(ideas, StageIs(Validated))|, TotalRevenue(ideas), TotalTargetUsers(ideas))
  }

  /** The dashboard shows the same four numbers as the `summary` of a JSON export. */
  lemma DashboardMatchesExportSummary(ideas: seq<Idea>)
    ensures DashboardStats(ideas).activeIdeas == IdeaService.Summarize(ideas).totalIdeas
    ensures DashboardStats(ideas).validatedIdeas == IdeaService.Summarize(ideas).validatedIdeas
    ensures DashboardStats(ideas).revenuePotential == IdeaService.Summarize(ideas).totalRevenuePotential
    ensures DashboardStats(ideas).targetUsers == IdeaService.Summarize(ideas).totalTargetUsers
  {
  }

  /** `s.slice(start)` for a start index that may be negative (counted from the end). */
  function SliceFrom<T>(s: seq<T>, start: int): (r: seq<T>)
    ensures start >= 0 ==> r == if start <= |s| then s[start..] else []
    ensures start < 0 ==> r == if |s| + start >= 0 then s[|s| + start..] else s
  {
    var from := if start < 0 then (if |s| + start < 0 then 0 else |s| + start)
                else (if start > |s| then |s| else start);
    s[from..]
  }

  /** `ideas.slice(-3)`: the last three ideas, or all of them when there are fewer. */
  function RecentIdeas(ideas: seq<Idea>): (r: seq<Idea>)
    ensures |r| == if |ideas| < 3 then |ideas| else 3
    ensures r == ideas[|ideas| - |r|..]
  {
    SliceFrom(ideas, -3)
  }

  /** An idea just added from the generator is the last of the recent ideas. */
  lemma AddedIdeaIsMostRecent(ideas: seq<Idea>, generated: seq<Generator.Problem>, problem: Generator.Problem,
                              nowId: string, nowIso: string)
    ensures var after := Generator.AddToIdeas(ideas, generated, problem, nowId, nowIso).ideas;
            RecentIdeas(after)[|RecentIdeas(after)| - 1] == Generator.NewIdea(problem, nowId, nowIso)
  {
  }

  /** Adding an idea moves the window: the recent ideas are the previous window's tail plus the new one. */
  lemma {:induction false} RecentSlides(ideas: seq<Idea>, idea: Idea)
    ensures RecentIdeas(ideas + [idea]) ==
      (if |ideas| < 3 then RecentIdeas(ideas) else RecentIdeas(ideas)[1..]) + [idea]
  {
    var after := ideas + [idea];
    if |ideas| >= 3 {
      assert after[|after| - 3..] == ideas[|ideas| - 2..] + [idea];
      assert RecentIdeas(ideas)[1..] == ideas[|ideas| - 2..];
    } else {
      assert after[0..] == ideas + [idea];
    }
  }
}
