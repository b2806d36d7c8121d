/**
 * The dashboard's per-release aggregation: a progress percentage from the
 * release's tasks and an overall status from its stages' statuses.
 */
module Dashboard {
  import opened Common
  import opened Schema

  /** `Math.round(done / total * 100)` for `done <= total`, computed exactly; 0 when there is nothing to count. */
  function Percent(done: nat, total: nat): (p: nat)
    requires done <= total
    ensures p <= 100
    ensures total == 0 ==> p == 0
    ensures total > 0 ==> 2 * total * p <= 200 * done + total < 2 * total * (p + 1)
  {
    if total == 0 then 0
    else
      var p := (200 * done + total) / (2 * total);
      assert 200 * done + total <= 2 * total * 100 + total;
      DivBelow(200 * done + total, 2 * total, 101);
      p
  }

  /** `n / d < k` whenever `n < d * k`. */
  lemma DivBelow(n: nat, d: nat, k: nat)
    requires d > 0 && n < d * k
    ensures n / d < k
  {
    MulMonotone(d, k, n / d);
    assert d * (n / d) <= n;
  }

  /** Multiplying by a non-negative factor keeps the order. */
  lemma MulMonotone(d: nat, a: int, b: int)
    ensures a <= b ==> d * a <= d * b
  {
  }

  /** Rounding to nearest, halves upwards: the percentage is the integer nearest to 100·done/total. */
  lemma {:induction false} PercentNearest(done: nat, total: nat, q: int)
    requires done <= total && total > 0
    requires 2 * total * q <= 200 * done + total < 2 * total * (q + 1)
    ensures Percent(done, total) == q
  {
    var p := Percent(done, total);
    MulMonotone(2 * total, p + 1, q);
    MulMonotone(2 * total, q + 1, p);
  }

  /** More finished tasks never lower the percentage. */
  lemma {:induction false} PercentMonotone(done: nat, done': nat, total: nat)
    requires done <= done' <= total
    ensures Percent(done, total) <= Percent(done', total)
  {
    if total > 0 {
      var p, p' := Percent(done, total), Percent(done', total);
      MulMonotone(2 * total, p' + 1, p);
    }
  }

  /** None done is 0 percent and all done is 100 percent. */
  lemma PercentEnds(total: nat)
    ensures Percent(0, total) == 0
    ensures Percent(total, total) == 100 || total == 0
  {
    if total > 0 {
      PercentNearest(0, total, 0);
      PercentNearest(total, total, 100);
    }
  }

  /** The task counts towards progress: its status is `done`. */
  predicate TaskDone(t: Task) {
    t.status == TaskStatus.Done
  }

  /** How many of the tasks have status `done`. */
  function DoneCount(tasks: seq<Task>): (c: nat)
    ensures c == Count(tasks, TaskDone)
    ensures c <= |tasks|
    ensures c == |tasks| <==> forall t :: t in tasks ==> t.status == TaskStatus.Done
    ensures c == 0 <==> forall t :: t in tasks ==> t.status != TaskStatus.Done
  {
    if tasks == [] then 0
    else
      var rest := DoneCount(tasks[1..]);
      assert forall t :: t in tasks <==> t == tasks[0] || t in tasks[1..];
      (if tasks[0].status == TaskStatus.Done then 1 else 0) + rest
  }

  /**
   * A release's progress: the share of its tasks whose status is `done` (an
   * `na` task counts as not done), as the whole percentage nearest to it.
   */
  function Progress(tasks: seq<Task>): (p: nat)
    ensures p <= 100
    ensures tasks == [] ==> p == 0
    ensures tasks != [] ==> 2 * |tasks| * p <= 200 * Count(tasks, TaskDone) + |tasks|
                                          < 2 * |tasks| * (p + 1)
    ensures tasks != [] && (forall t :: t in tasks ==> t.status == TaskStatus.Done) ==> p == 100
    ensures (forall t :: t in tasks ==> t.status != TaskStatus.Done) ==> p == 0
  {
    PercentEnds(|tasks|);
    Percent(DoneCount(tasks), |tasks|)
  }

  // ---------------------------------------------------------------- status

  /**
   * The overall status, tested in the order the dashboard tests it: any stage
   * blocked, then any in progress, then every stage done (true of no stages
   * at all), then any in progress or done, else not started.
   */
  function Overall(statuses: seq<StageStatus>): (st: StageStatus)
    ensures st == Blocked <==> Blocked in statuses
    ensures st == StageStatus.Done <==> forall x :: x in statuses ==> x == StageStatus.Done
    ensures st == NotStarted <==> statuses != [] && forall x :: x in statuses ==> x == NotStarted
    ensures st == InProgress <==>
              (Blocked !in statuses && (InProgress in statuses || (StageStatus.Done in statuses && NotStarted in statuses)))
  {
    if Blocked in statuses then Blocked
    else if InProgress in statuses then InProgress
    else if forall x :: x in statuses ==> x == StageStatus.Done then
      assert statuses == [] || statuses[0] in statuses;
      StageStatus.Done
    else if InProgress in statuses || StageStatus.Done in statuses then InProgress
    else NotStarted
  }

  /** The same status stated as a plain ranking: blocked, else all done, else some progress, else not started. */
  function Ranked(statuses: seq<StageStatus>): StageStatus {
    if exists i :: 0 <= i < |statuses| && statuses[i] == Blocked then Blocked
    else if forall i :: 0 <= i < |statuses| ==> statuses[i] == StageStatus.Done then StageStatus.Done
    else if exists i :: 0 <= i < |statuses| && statuses[i] != NotStarted then InProgress
    else NotStarted
  }

  /** The dashboard's test order and the plain ranking always agree. */
  lemma OverallIsRanked(statuses: seq<StageStatus>)
    ensures Overall(statuses) == Ranked(statuses)
  {
    if Blocked in statuses {
      var i :| 0 <= i < |statuses| && statuses[i] == Blocked;
    } else if !(forall i :: 0 <= i < |statuses| ==> statuses[i] == StageStatus.Done) {
      var i :| 0 <= i < |statuses| && statuses[i] != StageStatus.Done;
      if InProgress in statuses || StageStatus.Done in statuses {
        var j :| 0 <= j < |statuses| && statuses[j] in {InProgress, StageStatus.Done};
      }
    }
  }

  /** A release without stages reads as done. */
  lemma NoStagesIsDone()
    ensures Overall([]) == StageStatus.Done
  {
  }
}
