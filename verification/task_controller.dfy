/** The one piece of request handling kept from the transport layer: the two
    date-window queries refuse a window whose start lies after its end. */
module TaskController {
  import opened Model
  import opened Dto
  import opened Errors
  import opened TaskService

  /** The date-range query behind its range check. */
  method GetTasksByDateRange(s: Store, start: Date, end: Date)
    returns (r: Result<seq<TaskDto>>, ghost ids: seq<Id>)
    ensures r.Failure? <==> IsAfter(start, end)
    ensures r.Failure? ==> r.error == InvalidRange
    ensures r.Success? ==> Lists(s.tasks, DateRange(start, end), r.value, ids)
  {
    if IsAfter(start, end) {
      return Failure(InvalidRange), [];
    }
    var views;
    views, ids := TaskService.GetTasksByDateRange(s, start, end);
    r := Success(views);
  }

  /** The smart query behind the same range check. */
  method GetSmartTasks(s: Store, start: Date, end: Date)
    returns (r: Result<seq<TaskDto>>, ghost ids: seq<Id>)
    ensures r.Failure? <==> IsAfter(start, end)
    ensures r.Failure? ==> r.error == InvalidRange
    ensures r.Success? ==> Lists(s.tasks, Smart(start, end), r.value, ids)
  {
    if IsAfter(start, end) {
      return Failure(InvalidRange), [];
    }
    var views;
    views, ids := GetSmartTasksByDateRange(s, start, end);
    r := Success(views);
  }
}
