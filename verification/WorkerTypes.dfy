/** Jobs, store keys and stored values shared by the worker package. */
module WorkerTypes {
  import opened Wrappers

  type JobId = nat
  type JobType = string
  datatype JobStatus = Pending | Processing | Completed | Dead

  datatype Job = Job(
    id: JobId, kind: JobType, attempts: nat, maxAttempts: nat, status: JobStatus,
    updatedAt: int, runAt: int, idempotencyKey: Option<string>, deadRetries: nat)

  /** The key strings of the source all start with a different tag, so that two
      keys are equal exactly when tag and argument are. */
  datatype Key =
    | ReadyKey(kind: JobType)
    | DelayedKey(kind: JobType)
    | DeadKey(kind: JobType)
    | JobKey(id: JobId)
    | IdempotencyKey(name: string)
    | RateLimitKey(scope: string)

  datatype ClaimStatus = ClaimProcessing | ClaimCompleted | ClaimFailed

  /** What a stored string decodes to. */
  datatype Value = JobText(job: Job) | ClaimText(claim: ClaimStatus) | NumberText(n: int)
}
