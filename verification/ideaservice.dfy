/**
 * The pure halves of the idea service: the summary of the JSON export, the
 * CSV export, the record sent when duplicating an idea, and the statistics.
 * Each operation first queries the ideas table; that reply is a parameter,
 * and a failed query is rethrown unchanged.
 */
module IdeaService {
  import opened Wrappers
  import opened Domain
  import opened Seqs
  import opened IdeaStore
  import Csv
  import Decimal

  // ---------------------------------------------------------------- summary

  datatype Summary = Summary(totalIdeas: nat, validatedIdeas: nat,
                             totalRevenuePotential: int, totalTargetUsers: int)

  datatype Export = Export(exportDate: string, userId: string, ideas: seq<Idea>, summary: Summary)

  function ValidatedCount(ideas: seq<Idea>): nat {
    |IdeasByStage(ideas, Validated)|
  }

  /** The `summary` object of `exportIdeasToJSON`. */
  function Summarize(ideas: seq<Idea>): (s: Summary)
    ensures s.totalIdeas == |ideas|
    ensures s.validatedIdeas <= s.totalIdeas
    ensures ideas == [] ==> s == Summary(0, 0, 0, 0)
  {
    Summary(|ideas|, ValidatedCount(ideas), TotalRevenue(ideas), TotalTargetUsers(ideas))
  }

  /** `exportIdeasToJSON(userId)`; the export date is a parameter. */
  function ExportIdeasToJson(userId: string, exportDate: string, reply: Result<seq<Idea>>): (r: Result<Export>)
    ensures reply.Failure? ==> r == Failure(reply.error)
    ensures reply.Success? ==> r.Success? && r.value.ideas == reply.value
                               && r.value.summary.totalIdeas == |reply.value|
    ensures reply.Success? ==> r.value.summary == Summarize(reply.value)
                               && r.value.userId == userId && r.value.exportDate == exportDate
  {
    match reply
    case Failure(e) => Failure(e)
    case Success(data) => Success(Export(exportDate, userId, data, Summarize(data)))
  }

  // ------------------------------------------------------------ CSV export

  const Headers: seq<string> := ["Name", "Description", "Problem Category", "Validation Stage",
                                 "Revenue Potential", "Target Users", "Created At", "Updated At"]

  /**
   * One data row, in header order. Dates go through the browser's
   * locale-dependent `toLocaleDateString`, which is the parameter `localeDate`.
   */
  function CsvFields(idea: Idea, localeDate: Option<string> -> string): (row: seq<string>)
    ensures |row| == |Headers| == 8
    ensures row[0] == idea.name && row[1] == idea.description
    ensures row[2] == idea.category && row[3] == idea.stage
    ensures Decimal.StringToInt(row[4]) == idea.revenue.GetOr(0)
    ensures Decimal.StringToInt(row[5]) == idea.targetUsers.GetOr(0)
    ensures row[6] == localeDate(idea.createdAt) && row[7] == localeDate(idea.updatedAt)
  {
    Decimal.IntRoundTrip(OrZero(idea.revenue));
    Decimal.IntRoundTrip(OrZero(idea.targetUsers));
    [idea.name, idea.description, idea.category, idea.stage,
     Decimal.IntToString(OrZero(idea.revenue)), Decimal.IntToString(OrZero(idea.targetUsers)),
     localeDate(idea.createdAt), localeDate(idea.updatedAt)]
  }

  /** The header row followed by one row per idea, in list order. */
  function CsvTable(ideas: seq<Idea>, localeDate: Option<string> -> string): (t: seq<seq<string>>)
    ensures |t| == |ideas| + 1
    ensures t[0] == Headers
    ensures forall i :: 1 <= i < |t| ==> t[i] == CsvFields(ideas[i - 1], localeDate)
    ensures forall i :: 0 <= i < |t| ==> |t[i]| == 8
  {
    [Headers] + seq(|ideas|, i requires 0 <= i < |ideas| => CsvFields(ideas[i], localeDate))
  }

  /** `exportIdeasToCSV(userId)`: the table rendered with every field quoted. */
  function ExportIdeasToCsv(reply: Result<seq<Idea>>, localeDate: Option<string> -> string): (r: Result<string>)
    ensures reply.Failure? ==> r == Failure(reply.error)
    ensures reply.Success? ==> r == Success(Csv.Document(CsvTable(reply.value, localeDate)))
  {
    match reply
    case Failure(e) => Failure(e)
    case Success(data) => Success(Csv.Document(CsvTable(data, localeDate)))
  }

  /** No text field of any idea, dates included, contains `c`. */
  predicate TextAvoids(ideas: seq<Idea>, localeDate: Option<string> -> string, c: char) {
    forall i :: 0 <= i < |ideas| ==>
      && c !in ideas[i].name && c !in ideas[i].description
      && c !in ideas[i].category && c !in ideas[i].stage
      && c !in localeDate(ideas[i].createdAt) && c !in localeDate(ideas[i].updatedAt)
  }

  /** Every field of the table avoids `c` when the text fields do and `c` is not a digit or '-'. */
  lemma TableAvoids(ideas: seq<Idea>, localeDate: Option<string> -> string, c: char)
    requires TextAvoids(ideas, localeDate, c)
    requires !Decimal.IsDigit(c) && c != '-'
    requires forall j :: 0 <= j < |Headers| ==> c !in Headers[j]
    ensures forall i, j :: 0 <= i < |CsvTable(ideas, localeDate)| && 0 <= j < |CsvTable(ideas, localeDate)[i]|
              ==> c !in CsvTable(ideas, localeDate)[i][j]
  {
    var t := CsvTable(ideas, localeDate);
    forall i | 1 <= i < |t|
      ensures forall j :: 0 <= j < |t[i]| ==> c !in t[i][j]
    {
      FieldsAvoid(ideas[i - 1], localeDate, c);
    }
  }

  /** One data row avoids `c` when its text fields do and `c` cannot appear in a number. */
  lemma FieldsAvoid(idea: Idea, localeDate: Option<string> -> string, c: char)
    requires c !in idea.name && c !in idea.description && c !in idea.category && c !in idea.stage
    requires c !in localeDate(idea.createdAt) && c !in localeDate(idea.updatedAt)
    requires !Decimal.IsDigit(c) && c != '-'
    ensures forall j :: 0 <= j < |CsvFields(idea, localeDate)| ==> c !in CsvFields(idea, localeDate)[j]
  {
    var n4 := Decimal.IntToString(OrZero(idea.revenue));
    var n5 := Decimal.IntToString(OrZero(idea.targetUsers));
    assert forall k :: 0 <= k < |n4| ==> n4[k] != c;
    assert forall k :: 0 <= k < |n5| ==> n5[k] != c;
  }

  /**
   * The CSV reads back as the header row and the data rows as long as no
   * text field contains a double quote (numbers never do).
   */
  lemma CsvReadsBack(ideas: seq<Idea>, localeDate: Option<string> -> string)
    requires TextAvoids(ideas, localeDate, '"')
    ensures Csv.Parse(Csv.Document(CsvTable(ideas, localeDate))) == Some(CsvTable(ideas, localeDate))
  {
    TableAvoids(ideas, localeDate, '"');
    Csv.RoundTrip(CsvTable(ideas, localeDate));
  }

  /** With no newline in any text field the CSV has one line per idea plus the header line. */
  lemma CsvLineCount(ideas: seq<Idea>, localeDate: Option<string> -> string)
    requires TextAvoids(ideas, localeDate, '\n')
    ensures Csv.Occurrences(Csv.Document(CsvTable(ideas, localeDate)), '\n') == |ideas|
  {
    TableAvoids(ideas, localeDate, '\n');
    Csv.NewlineCount(CsvTable(ideas, localeDate));
  }

  // --------------------------------------------------------------- duplicate

  const CopySuffix: string := " (Copy)"

  /**
   * The record `duplicateIdea` inserts: the original with " (Copy)" after
   * its name, stage reset to 'initial', and id and timestamps cleared so the
   * database assigns new ones.
   */
  function DuplicatePayload(original: Idea): (d: Idea)
    ensures d.name == original.name + CopySuffix
    ensures d.stage == Initial
    ensures d.id.None? && d.createdAt.None? && d.updatedAt.None?
    ensures d.(name := original.name, stage := original.stage, id := original.id,
               createdAt := original.createdAt, updatedAt := original.updatedAt) == original
  {
    original.(name := original.name + CopySuffix, stage := Initial,
              createdAt := None, updatedAt := None, id := None)
  }

  /** What `duplicateIdea` sends (nothing when the fetch fails) and what it returns or throws. */
  datatype DuplicateRun = DuplicateRun(sent: Option<Idea>, outcome: Result<Row>)

  function DuplicateIdea(fetched: Result<Idea>, inserted: Result<Row>): (r: DuplicateRun)
    ensures fetched.Failure? ==> r == DuplicateRun(None, Failure(fetched.error))
    ensures fetched.Success? ==> r.sent == Some(DuplicatePayload(fetched.value)) && r.outcome == inserted
  {
    match fetched
    case Failure(e) => DuplicateRun(None, Failure(e))
    case Success(original) => DuplicateRun(Some(DuplicatePayload(original)), inserted)
  }

  // -------------------------------------------------------------- statistics

  datatype StageCounts = StageCounts(initial: nat, testing: nat, validated: nat, rejected: nat)

  datatype Statistics = Statistics(
    totalIdeas: nat,
    byStage: StageCounts,
    byCategory: map<string, nat>,
    totalRevenuePotential: int,
    totalTargetUsers: int,
    validationSignals: int,
    averageRevenuePerIdea: real)

  function StageCount(ideas: seq<Idea>, stage: string): nat {
    |IdeasByStage(ideas, stage)|
  }

  function CategoryCount(ideas: seq<Idea>, category: string): nat {
    |IdeasByCategory(ideas, category)|
  }

  /** `idea.validation_signals?.length || 0` */
  function SignalCountOf(idea: Idea): int {
    |idea.signals.GetOr([])|
  }

  /** Some key of a non-empty map. */
  ghost function AnyKey(m: map<string, nat>): (k: string)
    requires |m| > 0
    ensures k in m
  {
    var k :| k in m; k
  }

  /** The sum of the values of a map. */
  ghost function MapSum(m: map<string, nat>): nat
    decreases |m|
  {
    if |m| == 0 then 0
    else
      var k := AnyKey(m);
      assert (m - {k}).Keys == m.Keys - {k};
      m[k] + MapSum(m - {k})
  }

  lemma {:induction false} MapSumRemove(m: map<string, nat>, c: string)
    requires c in m
    ensures MapSum(m) == m[c] + MapSum(m - {c})
    decreases |m|
  {
    var k := AnyKey(m);
    assert MapSum(m) == m[k] + MapSum(m - {k});
    if k != c {
      assert (m - {k}).Keys == m.Keys - {k};
      assert (m - {c}).Keys == m.Keys - {c};
      MapSumRemove(m - {k}, c);
      MapSumRemove(m - {c}, k);
      assert m - {k} - {c} == m - {c} - {k};
    }
  }

  /** Counting one more occurrence of `c` raises the sum of the counts by one. */
  lemma MapSumBump(m: map<string, nat>, c: string)
    ensures MapSum(m[c := (if c in m then m[c] else 0) + 1]) == MapSum(m) + 1
  {
    var m' := m[c := (if c in m then m[c] else 0) + 1];
    MapSumRemove(m', c);
    assert m' - {c} == m - {c};
    if c in m {
      MapSumRemove(m, c);
    } else {
      assert m - {c} == m;
    }
  }

  lemma CategoryCountAppend(ideas: seq<Idea>, idea: Idea, c: string)
    ensures CategoryCount(ideas + [idea], c) == CategoryCount(ideas, c) + (if idea.category == c then 1 else 0)
  {
    FilterAppend(ideas, [idea], CategoryIs(c));
  }

  /** `m` holds, for every category present in `ideas`, its number of ideas, and nothing else. */
  ghost predicate IsDistribution(m: map<string, nat>, ideas: seq<Idea>) {
    && (forall c {:trigger c in m} :: c in m <==> CategoryCount(ideas, c) > 0)
    && (forall c {:trigger c in m} :: c in m ==> m[c] == CategoryCount(ideas, c))
  }

  /** Counting one more idea keeps the map a distribution of the longer list. */
  lemma CountOneMore(m: map<string, nat>, ideas: seq<Idea>, idea: Idea)
    requires IsDistribution(m, ideas)
    ensures IsDistribution(m[idea.category := (if idea.category in m then m[idea.category] else 0) + 1],
                           ideas + [idea])
  {
    forall c {
      CategoryCountAppend(ideas, idea, c);
    }
  }

  /** One iteration of the loop below keeps the map a distribution of the prefix. */
  lemma DistributionStep(m: map<string, nat>, ideas: seq<Idea>, i: nat)
    requires i < |ideas| && IsDistribution(m, ideas[..i])
    ensures var c := ideas[i].category;
            IsDistribution(m[c := (if c in m then m[c] else 0) + 1], ideas[..i + 1])
  {
    assert ideas[..i + 1] == ideas[..i] + [ideas[i]];
    CountOneMore(m, ideas[..i], ideas[i]);
  }

  /** Taking one away from a count and adding it back restores the map. */
  lemma UnbumpBump(m: map<string, nat>, c: string)
    requires c in m && m[c] >= 1
    ensures var m0 := if m[c] == 1 then m - {c} else m[c := m[c] - 1];
            m == m0[c := (if c in m0 then m0[c] else 0) + 1]
  {
  }

  lemma SumAfterUnbump(m: map<string, nat>, c: string, k: nat)
    requires c in m && m[c] >= 1
    requires MapSum(if m[c] == 1 then m - {c} else m[c := m[c] - 1]) == k
    ensures MapSum(m) == k + 1
  {
    UnbumpBump(m, c);
    MapSumBump(if m[c] == 1 then m - {c} else m[c := m[c] - 1], c);
  }

  /** The counts of a distribution add up to the number of ideas. */
  lemma {:induction false} DistributionTotal(m: map<string, nat>, ideas: seq<Idea>)
    requires IsDistribution(m, ideas)
    ensures MapSum(m) == |ideas|
  {
    if |ideas| == 0 {
      assert forall c :: CategoryCount(ideas, c) == 0;
      assert m == map[];
    } else {
      var n := |ideas| - 1;
      var init, last := ideas[..n], ideas[n];
      var c := last.category;
      assert ideas == init + [last];
      Unbumped(m, init, last);
      var m0 := if m[c] == 1 then m - {c} else m[c := m[c] - 1];
      DistributionTotal(m0, init);
      SumAfterUnbump(m, c, |init|);
    }
  }

  /** Taking the last idea's count away leaves a distribution of the other ideas. */
  lemma Unbumped(m: map<string, nat>, init: seq<Idea>, last: Idea)
    requires IsDistribution(m, init + [last])
    ensures last.category in m && m[last.category] >= 1
    ensures var c := last.category;
            IsDistribution(if m[c] == 1 then m - {c} else m[c := m[c] - 1], init)
  {
    var c := last.category;
    CategoryCountAppend(init, last, c);
    forall k {
      CategoryCountAppend(init, last, k);
    }
  }

  /** `average_revenue_per_idea`: the total over the count, or 0 for no ideas. */
  function Average(total: int, count: nat): (a: real)
    ensures count == 0 ==> a == 0.0
    ensures count > 0 ==> a * (count as real) == total as real
  {
    if count > 0 then total as real / count as real else 0.0
  }

  /**
   * The `forEach` that builds `by_category`: each idea's category gains one.
   * Afterwards the keys are exactly the categories present, each mapped to
   * its number of ideas, and the counts add up to the number of ideas.
   */
  method CategoryDistribution(ideas: seq<Idea>) returns (m: map<string, nat>)
    ensures IsDistribution(m, ideas)
    ensures forall c :: c in m ==> m[c] >= 1
    ensures MapSum(m) == |ideas|
  {
    m := map[];
    var i := 0;
    while i < |ideas|
      invariant 0 <= i <= |ideas|
      invariant IsDistribution(m, ideas[..i])
    {
      var category := ideas[i].category;
      var previous := if category in m then m[category] else 0;
      DistributionStep(m, ideas, i);
      m := m[category := previous + 1];
      i := i + 1;
    }
    assert ideas[..i] == ideas;
    DistributionTotal(m, ideas);
  }

  /** `getIdeasStatistics(userId)`. */
  method GetIdeasStatistics(reply: Result<seq<Idea>>) returns (r: Result<Statistics>)
    ensures reply.Failure? ==> r == Failure(reply.error)
    ensures reply.Success? ==> r.Success?
    ensures reply.Success? ==>
              var data, s := reply.value, r.value;
              && s.totalIdeas == |data|
              && s.byStage == StageCounts(StageCount(data, Initial), StageCount(data, Testing),
                                          StageCount(data, Validated), StageCount(data, Rejected))
              && IsDistribution(s.byCategory, data)
              && MapSum(s.byCategory) == s.totalIdeas
              && s.totalRevenuePotential == TotalRevenue(data)
              && s.totalTargetUsers == TotalTargetUsers(data)
              && s.validationSignals == SumBy(data, SignalCountOf)
              && s.averageRevenuePerIdea == Average(s.totalRevenuePotential, s.totalIdeas)
  {
    match reply {
      case Failure(e) =>
        return Failure(e);
      case Success(data) =>
        var byCategory := CategoryDistribution(data);
        var stats := Statistics(
          |data|,
          StageCounts(StageCount(data, Initial), StageCount(data, Testing),
                      StageCount(data, Validated), StageCount(data, Rejected)),
          byCategory,
          TotalRevenue(data),
          TotalTargetUsers(data),
          SumBy(data, SignalCountOf),
          Average(TotalRevenue(data), |data|));
        return Success(stats);
    }
  }

  function StagedCount(ideas: seq<Idea>): nat {
    StageCount(ideas, Initial) + StageCount(ideas, Testing)
    + StageCount(ideas, Validated) + StageCount(ideas, Rejected)
  }

  /**
   * The four stage counts never exceed the number of ideas, and add up to it
   * exactly when every idea's stage is one of the four.
   */
  lemma {:induction false} StageCountsCover(ideas: seq<Idea>)
    ensures StagedCount(ideas) <= |ideas|
    ensures (forall i :: 0 <= i < |ideas| ==> IsStage(ideas[i].stage)) ==> StagedCount(ideas) == |ideas|
  {
    if |ideas| > 0 {
      var init, last := ideas[..|ideas| - 1], ideas[|ideas| - 1];
      assert ideas == init + [last];
      StageCountsCover(init);
      FilterAppend(init, [last], StageIs(Initial));
      FilterAppend(init, [last], StageIs(Testing));
      FilterAppend(init, [last], StageIs(Validated));
      FilterAppend(init, [last], StageIs(Rejected));
    }
  }

  /** The export summary and the statistics agree on every figure they share. */
  lemma SummaryAgreesWithStatistics(data: seq<Idea>, stats: Statistics)
    requires stats.totalIdeas == |data|
    requires stats.byStage.validated == StageCount(data, Validated)
    requires stats.totalRevenuePotential == TotalRevenue(data)
    requires stats.totalTargetUsers == TotalTargetUsers(data)
    ensures Summarize(data) == Summary(stats.totalIdeas, stats.byStage.validated,
                                       stats.totalRevenuePotential, stats.totalTargetUsers)
  {
  }
}
