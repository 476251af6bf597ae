/** The view projector: turns an internal task into its external view. */
module TaskMapper {
  import opened Model
  import opened Dto

  /** Rebuilds a task from its view and the staff record the view's name came
      from: the inverse of `TaskToDto` for a known staff member. */
  function DtoToTask(dto: TaskDto, staff: Staff): Task {
    Task(dto.id, dto.title, dto.status, dto.priority, dto.startDate, dto.dueDate,
         staff, dto.comments, dto.activityHistory)
  }

  /** The view of `t`: the assigned staff is replaced by its name and every
      other field, the comment and activity sequences included, passes
      through unchanged, so the task is recovered from its view and staff. */
  function TaskToDto(t: Task): (dto: TaskDto)
    ensures dto.assignedStaffName == t.assignedStaff.name
    ensures DtoToTask(dto, t.assignedStaff) == t
  {
    TaskDto(t.id, t.title, t.status, t.priority, t.startDate, t.dueDate,
            t.assignedStaff.name, t.comments, t.activityHistory)
  }

  /** Two tasks have the same view exactly when they differ at most in the
      identifier of a staff member of the same name. */
  lemma SameViewIffSameButStaffId(t: Task, u: Task)
    ensures TaskToDto(t) == TaskToDto(u)
        <==> t.assignedStaff.name == u.assignedStaff.name
             && t.(assignedStaff := u.assignedStaff) == u
  {
    if TaskToDto(t) == TaskToDto(u) {
      calc {
        t.(assignedStaff := u.assignedStaff);
        DtoToTask(TaskToDto(t), u.assignedStaff);
        DtoToTask(TaskToDto(u), u.assignedStaff);
        u;
      }
    }
  }
}
