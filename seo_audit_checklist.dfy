/**
 * The SEO audit checklist page: a map from task id to a done flag, toggled and reset by
 * the user, and the views derived from it — the tasks grouped by category, the
 * completed/incomplete filter over that grouping, the completed count and the rounded
 * progress percentage.
 */
module SeoAuditChecklist {
  import opened Collections
  import opened Grouping
  import opened ChecklistData

  datatype FilterStatus = All | Completed | Incomplete

  /** `!!completed[id]`: an absent entry counts as not done. */
  predicate IsCompleted(completed: map<string, bool>, id: string) {
    id in completed && completed[id]
  }

  function CategoryOf(item: ChecklistItem): string {
    item.category
  }

  /** The item predicate of a `'completed'` or `'incomplete'` filter. */
  function KeepFor(status: FilterStatus, completed: map<string, bool>): ChecklistItem -> bool {
    (item: ChecklistItem) => if status == Completed then IsCompleted(completed, item.id) else !IsCompleted(completed, item.id)
  }

  /** What the page shows: the grouping itself for `'all'`, else the grouping filtered by the status. */
  function FilteredView(grouped: Groups<ChecklistItem>, status: FilterStatus, completed: map<string, bool>): Groups<ChecklistItem> {
    if status == All then grouped else FilterGroups(grouped, KeepFor(status, completed))
  }

  /**
   * On a grouping with distinct categories: `'all'` shows it unchanged; otherwise each
   * category shows exactly its items that match the status, in their order, and a
   * category is shown exactly when one of its items matches.
   */
  lemma {:induction false} FilteredViewCorrect(grouped: Groups<ChecklistItem>, status: FilterStatus, completed: map<string, bool>, k: string)
    requires NoDuplicates(Keys(grouped))
    ensures status == All ==> FilteredView(grouped, status, completed) == grouped
    ensures status != All ==>
      && Lookup(FilteredView(grouped, status, completed), k) == Filter(Lookup(grouped, k), KeepFor(status, completed))
      && (k in Keys(FilteredView(grouped, status, completed)) <==> k in Keys(grouped) && Filter(Lookup(grouped, k), KeepFor(status, completed)) != [])
  {
    if status != All {
      FilterGroupsLookup(grouped, KeepFor(status, completed), k);
      FilterGroupsKeys(grouped, KeepFor(status, completed), k);
    }
  }

  /**
   * For a grouping built from a task list, a filtered category holds exactly the tasks of
   * that category that match the status, in list order.
   */
  lemma {:induction false} FilteredGroupingLookup(items: seq<ChecklistItem>, status: FilterStatus, completed: map<string, bool>, category: string)
    requires status != All
    ensures Lookup(FilteredView(GroupBy(items, CategoryOf), status, completed), category)
      == Filter(Filter(items, HasKey(CategoryOf, category)), KeepFor(status, completed))
  {
    GroupByDistinctKeys(items, CategoryOf);
    GroupByLookup(items, CategoryOf, category);
    FilteredViewCorrect(GroupBy(items, CategoryOf), status, completed, category);
  }

  /** The completed and the incomplete view of a category together hold each of its items exactly once. */
  lemma {:induction false} ViewsPartition(grouped: Groups<ChecklistItem>, completed: map<string, bool>, k: string)
    requires NoDuplicates(Keys(grouped))
    ensures multiset(Lookup(FilteredView(grouped, Completed, completed), k))
          + multiset(Lookup(FilteredView(grouped, Incomplete, completed), k))
         == multiset(Lookup(grouped, k))
  {
    FilteredViewCorrect(grouped, Completed, completed, k);
    FilteredViewCorrect(grouped, Incomplete, completed, k);
    FilterPartition(Lookup(grouped, k), KeepFor(Completed, completed), KeepFor(Incomplete, completed));
  }

  /** `{...current, [id]: !current[id]}`. */
  function Toggled(completed: map<string, bool>, id: string): (r: map<string, bool>)
    ensures IsCompleted(r, id) == !IsCompleted(completed, id)
    ensures forall x :: x != id ==> (x in r <==> x in completed) && (x in completed ==> r[x] == completed[x])
  {
    completed[id := !IsCompleted(completed, id)]
  }

  /** Toggling twice restores every task's status (an absent entry may come back as `false`). */
  lemma {:induction false} ToggleTwice(completed: map<string, bool>, id: string)
    ensures forall x :: IsCompleted(Toggled(Toggled(completed, id), id), x) == IsCompleted(completed, x)
  {
    forall x ensures IsCompleted(Toggled(Toggled(completed, id), id), x) == IsCompleted(completed, x) {
      if x != id {
        assert IsCompleted(Toggled(completed, id), x) == IsCompleted(completed, x);
      }
    }
  }

  /** `Object.values(completed).filter(Boolean).length`: the ids whose flag is `true`. */
  function CompletedIds(completed: map<string, bool>): set<string> {
    set id | id in completed && completed[id]
  }

  /** Toggling one task moves the completed count by exactly one, in the direction of its new status. */
  lemma {:induction false} ToggleCount(completed: map<string, bool>, id: string)
    ensures IsCompleted(completed, id) ==> |CompletedIds(Toggled(completed, id))| == |CompletedIds(completed)| - 1
    ensures !IsCompleted(completed, id) ==> |CompletedIds(Toggled(completed, id))| == |CompletedIds(completed)| + 1
  {
    var before, after := CompletedIds(completed), CompletedIds(Toggled(completed, id));
    if IsCompleted(completed, id) {
      assert after == before - {id};
    } else {
      assert after == before + {id};
    }
  }

  /** `Math.round(completed / total * 100)`, or 0 when there are no tasks. */
  function Percentage(completed: nat, total: nat): (p: nat) {
    if total == 0 then 0 else (200 * completed + total) / (2 * total)
  }

  /**
   * The percentage is 100·completed/total rounded to the nearest integer, halves upwards:
   * `p - 1/2 <= 100·completed/total < p + 1/2`. It is 0 with nothing done, 100 with
   * everything done, and never above 100 while no more tasks are done than exist.
   */
  lemma {:induction false} PercentageRounds(completed: nat, total: nat)
    requires total > 0
    ensures var p := Percentage(completed, total);
      && 2 * p * total - total <= 200 * completed < 2 * p * total + total
      && (completed == 0 ==> p == 0)
      && (completed == total ==> p == 100)
      && (completed <= total ==> p <= 100)
  {
    var p := Percentage(completed, total);
    var n, d := 200 * completed + total, 2 * total;
    assert p * d <= n < p * d + d;
    assert 2 * p * total == p * d;
    if completed == total {
      assert n == 201 * total && 100 * d <= n < 101 * d;
      DivisionPinned(n, d, 100);
    }
    if completed <= total {
      assert n < 101 * d;
      if p > 100 {
        MulMonotone(101, p, d);
      }
    }
  }

  /**
   * With an odd number of tasks no exact quotient lies on a half: 100·completed/total sits
   * strictly inside its rounding interval, at least 1/(2·total) from either boundary.
   */
  lemma {:induction false} PercentageClearOfHalf(completed: nat, total: nat)
    requires total > 0 && total % 2 == 1
    ensures var p := Percentage(completed, total);
      2 * p * total - total < 200 * completed < 2 * p * total + total
  {
    var p := Percentage(completed, total);
    PercentageRounds(completed, total);
    assert 2 * p * total - total != 200 * completed by {
      assert (2 * p * total - total) % 2 == 1 by {
        assert 2 * p * total - total == 2 * (p * total - total) + total;
      }
    }
  }

  lemma {:induction false} DivisionPinned(n: nat, d: nat, q: nat)
    requires d > 0 && q * d <= n < q * d + d
    ensures n / d == q
  {
    var r := n / d;
    if r < q {
      MulMonotone(r + 1, q, d);
    } else if r > q {
      MulMonotone(q + 1, r, d);
    }
  }

  lemma {:induction false} MulMonotone(a: nat, b: nat, d: nat)
    requires a <= b
    ensures a * d <= b * d
  {
  }

  /** After a reset nothing is done and the progress is 0%. */
  lemma {:induction false} ResetClearsProgress(total: nat)
    ensures |CompletedIds(map[])| == 0 && Percentage(|CompletedIds(map[])|, total) == 0
  {
    assert CompletedIds(map[]) == {};
  }

  /**
   * The checklist page over a task table (`ChecklistItems()` in the application). Its
   * completion map starts empty; loading it from storage is not modelled.
   */
  class ChecklistPage {
    var completedTasks: map<string, bool>
    var filterStatus: FilterStatus
    const totalTasks: nat
    /** The tasks grouped by category, categories in order of first appearance. */
    const grouped: Groups<ChecklistItem>

    constructor(checklist: seq<ChecklistItem>)
      ensures completedTasks == map[] && filterStatus == All
      ensures totalTasks == |checklist| && grouped == GroupBy(checklist, CategoryOf)
    {
      completedTasks := map[];
      filterStatus := All;
      totalTasks := |checklist|;
      grouped := GroupBy(checklist, CategoryOf);
    }

    function ProgressPercentage(): nat
      reads this
    {
      Percentage(|CompletedIds(completedTasks)|, totalTasks)
    }

    /** Flips the task's flag; no other entry changes. */
    method ToggleTask(taskId: string)
      modifies this
      ensures completedTasks == Toggled(old(completedTasks), taskId)
      ensures filterStatus == old(filterStatus)
    {
      completedTasks := Toggled(completedTasks, taskId);
    }

    method ResetProgress()
      modifies this
      ensures completedTasks == map[] && filterStatus == old(filterStatus)
      ensures ProgressPercentage() == 0
    {
      completedTasks := map[];
      ResetClearsProgress(totalTasks);
    }

    method SetFilter(status: FilterStatus)
      modifies this
      ensures filterStatus == status && completedTasks == old(completedTasks)
    {
      filterStatus := status;
    }

    /** The `for...in` loop: each category's filtered list is added when it is non-empty. */
    method FilteredGroupedChecklist() returns (filtered: Groups<ChecklistItem>)
      ensures filtered == FilteredView(grouped, filterStatus, completedTasks)
    {
      if filterStatus == All {
        return grouped;
      }
      var keep := KeepFor(filterStatus, completedTasks);
      filtered := [];
      for i := 0 to |grouped|
        invariant filtered == FilterGroups(grouped[..i], keep)
      {
        var (category, list) := grouped[i];
        var items := Filter(list, keep);
        if |items| > 0 {
          filtered := filtered + [(category, items)];
        }
        FilterGroupsStep(grouped, i, keep);
      }
      assert grouped[..|grouped|] == grouped;
    }
  }

  /** Opens the page over the real checklist. */
  method OpenChecklistPage() returns (page: ChecklistPage)
    ensures fresh(page) && page.totalTasks == |ChecklistItems()| && page.completedTasks == map[]
  {
    page := new ChecklistPage(ChecklistItems());
  }
}
