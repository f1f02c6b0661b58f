/**
 * The AI summaries page (src/app/summaries/page.tsx): the status filter, its
 * button counts, the Create Task gate, the empty state and the statistics.
 */
module SummariesPage {
  import opened Wrappers
  import opened Collections

  datatype SummaryStatus = Completed | Processing | Error

  datatype Summary = Summary(
    id: string,
    title: string,
    audioFile: string,
    uploadedBy: string,
    uploadDate: string,
    summary: string,
    actionPoints: seq<string>,
    status: SummaryStatus)

  function StatusName(s: SummaryStatus): string
  {
    match s
    case Completed => "completed"
    case Processing => "processing"
    case Error => "error"
  }

  /** `filteredSummaries`: `'all'` keeps everything, otherwise the status must equal the filter. */
  function FilteredSummaries(summaries: seq<Summary>, filter: Selection<SummaryStatus>): (r: seq<Summary>)
    ensures filter.All? ==> r == summaries
    ensures forall x :: x in r <==> x in summaries && Selects(filter, x.status)
    ensures IsSubsequence(r, summaries)
    ensures forall x :: multiset(r)[x] == if Selects(filter, x.status) then multiset(summaries)[x] else 0
  {
    var keep := (x: Summary) => Selects(filter, x.status);
    FilterMultiplicity(summaries, keep);
    if filter.All? then
      FilterKeepsAll(summaries, keep);
      Filter(summaries, keep)
    else
      Filter(summaries, keep)
  }

  /** `summaries.filter(s => s.status === status).length`. */
  function CountStatus(summaries: seq<Summary>, status: SummaryStatus): nat
  {
    Count(summaries, (x: Summary) => x.status == status)
  }

  lemma {:induction false} StatusCountsPartition(summaries: seq<Summary>)
    ensures CountStatus(summaries, Completed) + CountStatus(summaries, Processing)
          + CountStatus(summaries, Error) == |summaries|
  {
    if summaries != [] {
      StatusCountsPartition(summaries[1..]);
    }
  }

  /**
   * The three figures shown both on the filter buttons (lines 105, 112, 119)
   * and in the statistics card (lines 194-202). They take only the list, so
   * they do not depend on the filter in force.
   */
  datatype StatusCounts = StatusCounts(total: nat, completed: nat, processing: nat)

  function Counts(summaries: seq<Summary>): (c: StatusCounts)
    ensures c.total == |summaries|
    ensures c.completed + c.processing + CountStatus(summaries, Error) == c.total
    ensures c.completed + c.processing <= c.total
  {
    StatusCountsPartition(summaries);
    StatusCounts(|summaries|, CountStatus(summaries, Completed), CountStatus(summaries, Processing))
  }

  /** The number on a filter button is the length of the list the button selects. */
  lemma {:induction false} ButtonCountMatchesList(summaries: seq<Summary>, status: SummaryStatus)
    ensures |FilteredSummaries(summaries, All)| == Counts(summaries).total
    ensures |FilteredSummaries(summaries, Only(status))| == CountStatus(summaries, status)
  {
    if summaries != [] {
      ButtonCountMatchesList(summaries[1..], status);
    }
  }

  /** The Create Task button is enabled exactly for completed summaries. */
  predicate CreateTaskEnabled(s: Summary)
  {
    s.status == Completed
  }

  /**
   * Under the Completed filter every card offers Create Task; under the
   * Processing filter none does.
   */
  lemma CreateTaskUnderFilters(summaries: seq<Summary>)
    ensures forall x :: x in FilteredSummaries(summaries, Only(Completed)) ==> CreateTaskEnabled(x)
    ensures forall x :: x in FilteredSummaries(summaries, Only(Processing)) ==> !CreateTaskEnabled(x)
  {
  }

  /** The empty-state card: its text when the filtered list is empty, nothing otherwise. */
  function EmptyState(summaries: seq<Summary>, filter: Selection<SummaryStatus>): (m: Option<string>)
    ensures m.Some? <==> FilteredSummaries(summaries, filter) == []
    ensures m.Some? && filter.All? ==> m.value == "No summaries have been generated yet."
    ensures m.Some? && filter.Only? ==> m.value == "No " + StatusName(filter.value) + " summaries found."
  {
    if FilteredSummaries(summaries, filter) == [] then
      Some(if filter.All? then "No summaries have been generated yet."
           else "No " + StatusName(filter.value) + " summaries found.")
    else None
  }

  /**
   * The empty state appears under `'all'` exactly when there are no
   * summaries at all, and under a status exactly when that status's button
   * count is zero.
   */
  lemma EmptyStateMatchesCounts(summaries: seq<Summary>, status: SummaryStatus)
    ensures EmptyState(summaries, All).Some? <==> Counts(summaries).total == 0
    ensures EmptyState(summaries, Only(status)).Some? <==> CountStatus(summaries, status) == 0
  {
    ButtonCountMatchesList(summaries, status);
  }
}
