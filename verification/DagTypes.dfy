/** Values shared by the DAG planner, the scheduler, the replan cache and the durable checkpoint. */
module DagTypes {

  datatype Option<+T> = None | Some(value: T)

  datatype Result<+T, +E> = Success(value: T) | Failure(error: E)

  /** An execution version (a fresh UUID in the program). */
  type Version = string

  /** A normalized task: trimmed, non-empty identifier and description. */
  datatype Task = Task(id: string, description: string, dependsOn: seq<string>)

  /** A worker reply; `actions` lists the tool named by each step, "" for a step without a tool. */
  datatype Reply = Reply(answer: string, stopReason: string, actions: seq<string>)

  datatype TaskResult = TaskResult(taskId: string, description: string, dependsOn: seq<string>, reply: Reply)

  predicate Succeeded(r: TaskResult) {
    r.reply.stopReason == "DONE"
  }

  predicate AllDone(results: seq<TaskResult>) {
    forall i :: 0 <= i < |results| ==> Succeeded(results[i])
  }

  predicate UsesTools(r: TaskResult) {
    exists i :: 0 <= i < |r.reply.actions| && r.reply.actions[i] != ""
  }

  function SkippedResult(task: Task): TaskResult {
    TaskResult(task.id, task.description, task.dependsOn,
               Reply("Required upstream task did not succeed.", "SKIPPED", []))
  }

  /** Some dependency of the task did not end DONE. */
  predicate UpstreamFailed(task: Task, upstream: map<string, TaskResult>)
    requires forall d :: d in task.dependsOn ==> d in upstream
  {
    exists i :: 0 <= i < |task.dependsOn| && !Succeeded(upstream[task.dependsOn[i]])
  }

  /** The results one worker may produce in optimized mode: a failed upstream forces the skip
      result, otherwise the runner decides the reply and the rest is copied from the task. */
  ghost predicate WorkerMayReturn(task: Task, upstream: map<string, TaskResult>, r: TaskResult) {
    && (forall d :: d in task.dependsOn ==> d in upstream)
    && r.taskId == task.id && r.description == task.description && r.dependsOn == task.dependsOn
    && (UpstreamFailed(task, upstream) ==> r == SkippedResult(task))
  }

  /** The synthesis of an optimized run: its stop reason is decided by the results, not by the model. */
  function SynthesisOf(results: seq<TaskResult>, answer: string): Reply {
    Reply(answer, if AllDone(results) then "DONE" else "PARTIAL", [])
  }
}
