/**
 * The older executor of the API server (sgx/enclave/src/api/server/exec.rs).
 * It issues tokens by the same wrapping rule as the reactor's executor,
 * but each task also records its own token, `ready` insists the token is
 * known, and `check_timeouts` does nothing, so tasks never expire.
 */
module ServerExec {
  import opened Wrappers
  import opened Bytes
  import R = Request
  import ReactorExec

  /** A task: the token it was spawned under, its future slot and its deadline. */
  datatype Task<F> = Task(token: nat, future: Option<F>, deadline: nat)

  class ExecReactor<F> {
    var tasks: map<nat, Task<F>>
    const offset: nat
    const execTimeout: nat
    var nextId: nat

    /** The counter stays in its window and every task sits under its own token. */
    predicate Valid()
      reads this
    {
      offset + U32_MAX <= R.USIZE_MAX
      && offset <= nextId < offset + U32_MAX
      && forall t :: t in tasks ==> offset <= t < offset + U32_MAX && tasks[t].token == t
    }

    /** `ExecReactor::new`: no tasks and the first token is `offset`. */
    constructor (offset: nat, execTimeout: nat)
      requires offset + U32_MAX <= R.USIZE_MAX
      ensures Valid()
      ensures tasks == map[] && nextId == offset
      ensures this.offset == offset && this.execTimeout == execTimeout
    {
      tasks := map[];
      this.offset := offset;
      this.execTimeout := execTimeout;
      nextId := offset;
    }

    /**
     * `spawn`: the task takes the current token, the counter moves on by
     * the reactor's rule, and the task, carrying its token, is stored
     * under it with deadline `now + exec_timeout`.
     */
    method Spawn(future: F, now: nat) returns (token: nat)
      requires Valid()
      modifies this
      ensures Valid()
      ensures token == old(nextId) && nextId == ReactorExec.NextId(offset, old(nextId))
      ensures tasks == old(tasks)[token := Task(token, Some(future), now + execTimeout)]
    {
      token := nextId;
      if nextId + 1 >= offset + U32_MAX {
        nextId := offset;
      } else {
        nextId := nextId + 1;
      }
      tasks := tasks[token := Task(token, Some(future), now + execTimeout)];
    }

    /**
     * `ready`: the task is removed with `unwrap`, so the token must be
     * known.  Its future is polled once (`pending` is what the poll
     * answered); a pending task goes back under its token, a completed one
     * or one with an empty slot stays out.
     */
    method Ready(token: nat, pending: bool)
      requires Valid() && token in tasks
      modifies this
      ensures Valid() && nextId == old(nextId)
      ensures old(tasks)[token].future.Some? && pending ==> tasks == old(tasks)
      ensures !(old(tasks)[token].future.Some? && pending) ==> tasks == old(tasks) - {token}
    {
      var task := tasks[token];
      tasks := tasks - {token};
      match task.future {
        case Some(f) =>
          if pending {
            tasks := tasks[token := task];
          }
        case None =>
      }
    }

    /** `check_timeouts`: not implemented, so no task is ever dropped for its deadline. */
    method CheckTimeouts()
      requires Valid()
      ensures Valid() && tasks == old(tasks) && nextId == old(nextId)
    {
    }
  }

  /**
   * A task spawned into the table can be found by the token `spawn`
   * returned, and records that token; a pending poll keeps it there.
   */
  method SpawnThenPoll<F>(exec: ExecReactor<F>, future: F, now: nat) returns (token: nat)
    requires exec.Valid()
    modifies exec
    ensures exec.Valid()
    ensures token in exec.tasks && exec.tasks[token] == Task(token, Some(future), now + exec.execTimeout)
  {
    token := exec.Spawn(future, now);
    exec.Ready(token, true);
  }
}
