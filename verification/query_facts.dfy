/** Facts about the query filters: what a listing contains, how the smart
    view relates to the overlap view, and which tasks no filter but the
    unfiltered one ever returns. */
module QueryFacts {
  import opened Model
  import opened Dto
  import opened TaskService

  /** The keys of the stored tasks the filter selects. */
  function Matching(tasks: map<Id, Task>, f: Filter): set<Id> {
    set id | id in tasks && Keeps(f, tasks[id])
  }

  /** The elements of a sequence, as a set. */
  function Elements(xs: seq<Id>): set<Id> {
    set i | 0 <= i < |xs| :: xs[i]
  }

  /** A sequence without repetitions has as many elements as its set. */
  lemma {:induction false} DistinctCardinality(xs: seq<Id>)
    requires Distinct(xs)
    ensures |Elements(xs)| == |xs|
  {
    if xs != [] {
      var rest := xs[1..];
      assert Elements(xs) == {xs[0]} + Elements(rest) by {
        forall x | x in Elements(xs) ensures x in {xs[0]} + Elements(rest) {
          var i :| 0 <= i < |xs| && xs[i] == x;
          if i > 0 {
            assert rest[i - 1] == x;
          }
        }
        forall x | x in Elements(rest) ensures x in Elements(xs) {
          var i :| 0 <= i < |rest| && rest[i] == x;
          assert xs[i + 1] == x;
        }
      }
      assert xs[0] !in Elements(rest) by {
        forall i | 0 <= i < |rest| ensures rest[i] != xs[0] {
          assert rest[i] == xs[i + 1];
        }
      }
      DistinctCardinality(rest);
    }
  }

  /** A listing holds one view per selected task and nothing else. */
  lemma ListingIsMatching(tasks: map<Id, Task>, f: Filter, views: seq<TaskDto>, ids: seq<Id>)
    requires Lists(tasks, f, views, ids)
    ensures Elements(ids) == Matching(tasks, f)
    ensures |views| == |Matching(tasks, f)|
  {
    assert Elements(ids) == Matching(tasks, f) by {
      forall id | id in Matching(tasks, f) ensures id in Elements(ids) {
        var i :| 0 <= i < |ids| && ids[i] == id;
      }
    }
    DistinctCardinality(ids);
  }

  /** Every task the overlap view keeps is also kept by the smart view. */
  lemma DateRangeWithinSmart(t: Task, start: Date, end: Date)
    ensures Keeps(DateRange(start, end), t) ==> Keeps(Smart(start, end), t)
  {
  }

  /** For a well-formed window and a task that is not due before it starts,
      the smart view keeps exactly what the overlap view keeps. */
  lemma SmartAgreesWithDateRange(t: Task, start: Date, end: Date)
    requires start <= end
    requires t.startDate <= t.dueDate
    ensures Keeps(Smart(start, end), t) <==> Keeps(DateRange(start, end), t)
  {
  }

  /** Every stored task is not due before it starts. */
  ghost predicate WellDated(tasks: map<Id, Task>) {
    forall id :: id in tasks ==> tasks[id].startDate <= tasks[id].dueDate
  }

  /** Over well-dated tasks and a well-formed window, the two date queries
      select the same tasks, so their listings have the same keys and length. */
  lemma SmartListingAgreesWithDateRange(tasks: map<Id, Task>, start: Date, end: Date,
                                        smart: seq<TaskDto>, smartIds: seq<Id>,
                                        overlap: seq<TaskDto>, overlapIds: seq<Id>)
    requires start <= end
    requires WellDated(tasks)
    requires Lists(tasks, Smart(start, end), smart, smartIds)
    requires Lists(tasks, DateRange(start, end), overlap, overlapIds)
    ensures Elements(smartIds) == Elements(overlapIds)
    ensures |smart| == |overlap|
  {
    assert Matching(tasks, Smart(start, end)) == Matching(tasks, DateRange(start, end)) by {
      forall id | id in tasks
        ensures Keeps(Smart(start, end), tasks[id]) <==> Keeps(DateRange(start, end), tasks[id])
      {
        SmartAgreesWithDateRange(tasks[id], start, end);
      }
    }
    ListingIsMatching(tasks, Smart(start, end), smart, smartIds);
    ListingIsMatching(tasks, DateRange(start, end), overlap, overlapIds);
  }

  /** Without `startDate <= dueDate` the views part: an ACTIVE task that
      starts inside the window but is due before it is kept by the smart view
      only. */
  lemma InvertedTaskSplitsViews(t: Task)
    requires t.status == Active && t.startDate == 5 && t.dueDate == 3
    ensures Keeps(Smart(4, 6), t) && !Keeps(DateRange(4, 6), t)
  {
  }

  /** Without `start <= end` the views part too: a task open before an
      inverted window's start is kept by the smart view only. */
  lemma InvertedWindowSplitsViews(t: Task)
    requires t.status == Active && t.startDate == 7 && t.dueDate == 12
    ensures Keeps(Smart(10, 5), t) && !Keeps(DateRange(10, 5), t)
  {
  }

  /** A cancelled task is returned only by the unfiltered query. */
  lemma CancelledOnlyInAll(t: Task, f: Filter)
    requires t.status == Cancelled
    ensures Keeps(f, t) <==> f == All
  {
  }

  /** An ACTIVE task running from 2024-01-10 to 2024-01-20 (epoch days 19732
      and 19742) is kept by both date views over 2024-01-15..2024-01-16, and
      by neither once cancelled. */
  lemma OpenTaskExample(t: Task)
    requires t.startDate == 19732 && t.dueDate == 19742
    ensures t.status == Active ==>
              Keeps(DateRange(19737, 19738), t) && Keeps(Smart(19737, 19738), t)
    ensures t.status == Cancelled ==>
              !Keeps(DateRange(19737, 19738), t) && !Keeps(Smart(19737, 19738), t)
  {
  }
}
