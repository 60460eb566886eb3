/** The service's own values: tasks, resource states, results and status labels.  Timestamps and
    the fields no modelled code reads are left out. */
module Domain {
  import opened Int64

  type Key = string

  newtype byte = x: int | 0 <= x < 256

  datatype Option<+T> = None | Some(value: T)

  datatype TaskMessage = TaskMessage(role: string, content: seq<byte>)

  datatype Task = Task(id: string, messages: seq<TaskMessage>, maxTokens: int64, estimated: int64)

  /** An identifier that was generated, hence is not empty. */
  type GeneratedId = s: string | s != "" witness "id"

  /** `ResourceInstanceState`: the ledger row of one resource; `id` is the table's primary key. */
  datatype ResourceState = ResourceState(
    id: Key,
    provider: string,
    load: int64,
    active: int64,
    maxConcurrent: int64,
    tokensPerMinute: int64,
    maxTokensPerBatch: int64,
    version: int64)

  /** `TaskResult`; Unlisted is any other value of that integer type. */
  datatype TaskResult =
    | Success
    | MessageTemporarilyFailed
    | MessagePermanentlyFailed
    | SystemTemporarilyFailed
    | SystemPermanentlyFailed
    | Unlisted(code: int64)

  datatype StatusLabel =
    | PendingQueue
    | InProgressWorker
    | FailedWorkerProcessing
    | RetryingWorkerSystemFailure
    | RetryingWorkerMessageFailure
    | FailedWorkerMessagePermanent
    | FailedWorkerUnknownResult

  datatype TaskStatus = TaskStatus(taskId: string, status: StatusLabel, version: int64)

  datatype ConfigResource = ConfigResource(provider: string, disabled: bool)

  /** What a task weighs against a resource's limits: one 64-bit sum, which may wrap. */
  function Cost(task: Task): int64 {
    Add(task.estimated, task.maxTokens)
  }

  /** The two checks of the selection loop. */
  predicate Admits(st: ResourceState, cost: int64) {
    cost <= st.maxTokensPerBatch && st.active < st.maxConcurrent
  }

  /** The row a dispatch writes before it calls the provider. */
  function Reserved(st: ResourceState, cost: int64): ResourceState {
    st.(active := Add(st.active, 1), load := Add(st.load, cost), version := Add(st.version, 1))
  }

  /** The row a dispatch writes after the provider refused the batch. */
  function Released(st: ResourceState, cost: int64): ResourceState {
    st.(active := Sub(st.active, 1), load := Sub(st.load, cost), version := Add(st.version, 1))
  }

  const DEFAULT_CONCURRENCY: int64 := 8
  const DEFAULT_TOKENS: int64 := 1000

  /** The row written for a resource whose state could not be read at start-up. */
  function Fresh(key: Key, provider: string): ResourceState {
    ResourceState(key, provider, 0, 0, DEFAULT_CONCURRENCY, 1000, DEFAULT_TOKENS, 1)
  }

  /** A list that names every member of a set exactly once, as one `range` over a map does. */
  ghost predicate Enumerates(order: seq<Key>, keys: set<Key>) {
    && (forall k :: k in keys <==> k in order)
    && (forall i, j :: 0 <= i < j < |order| ==> order[i] != order[j])
  }
}
