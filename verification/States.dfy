/** The lifecycle states of processes, tasks, plans and goals, with the transition
    tables that every state change is checked against. */
module States {

  datatype ProcessState = Created | Ready | Running | Waiting | Blocked | Completed | Failed | Cancelled {
    predicate IsFinished() {
      this in {Completed, Failed, Cancelled}
    }
  }

  datatype TaskState = TaskPending | TaskReady | TaskRunning | TaskCompleted | TaskFailed | TaskCancelled {
    predicate IsFinished() {
      this in {TaskCompleted, TaskFailed, TaskCancelled}
    }
  }

  datatype GoalState = GoalCreated | GoalPlanning | GoalInProgress | GoalCompleted | GoalFailed | GoalCancelled

  datatype PlanState = PlanCreated | PlanActive | PlanCompleted | PlanFailed | PlanCancelled

  function ProcessTargets(s: ProcessState): set<ProcessState> {
    match s
    case Created => {Ready, Cancelled}
    case Ready => {Running, Cancelled}
    case Running => {Waiting, Blocked, Completed, Failed, Cancelled}
    case Waiting => {Ready, Cancelled, Failed}
    case Blocked => {Ready, Failed, Cancelled}
    case Completed | Failed | Cancelled => {}
  }

  function TaskTargets(s: TaskState): set<TaskState> {
    match s
    case TaskPending => {TaskReady, TaskCancelled}
    case TaskReady => {TaskRunning, TaskCancelled}
    case TaskRunning => {TaskCompleted, TaskFailed}
    case TaskCompleted | TaskFailed | TaskCancelled => {}
  }

  function GoalTargets(s: GoalState): set<GoalState> {
    match s
    case GoalCreated => {GoalPlanning, GoalCancelled}
    case GoalPlanning => {GoalInProgress, GoalFailed, GoalCancelled}
    case GoalInProgress => {GoalCompleted, GoalFailed, GoalCancelled}
    case GoalCompleted | GoalFailed | GoalCancelled => {}
  }

  function PlanTargets(s: PlanState): set<PlanState> {
    match s
    case PlanCreated => {PlanActive, PlanCancelled}
    case PlanActive => {PlanCompleted, PlanFailed, PlanCancelled}
    case PlanCompleted | PlanFailed | PlanCancelled => {}
  }

  // A transition to the current state is always accepted and changes nothing.
  predicate ProcessMayMove(from: ProcessState, to: ProcessState) {
    from == to || to in ProcessTargets(from)
  }

  /** Read from the other end: what each state is entered from. */
  lemma ProcessEnteredFrom(from: ProcessState, to: ProcessState)
    requires from != to
    ensures ProcessMayMove(from, to) <==>
      match to
      case Created => false
      case Ready => from == Created || from == Waiting || from == Blocked
      case Running => from == Ready
      case Waiting | Blocked | Completed => from == Running
      case Failed => from == Running || from == Waiting || from == Blocked
      case Cancelled => !from.IsFinished()
  {}

  predicate TaskMayMove(from: TaskState, to: TaskState) {
    from == to || to in TaskTargets(from)
  }

  predicate GoalMayMove(from: GoalState, to: GoalState) {
    from == to || to in GoalTargets(from)
  }

  predicate PlanMayMove(from: PlanState, to: PlanState) {
    from == to || to in PlanTargets(from)
  }
}
