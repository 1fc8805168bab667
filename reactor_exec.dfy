/**
 * The task table of the API reactor's executor
 * (sgx/enclave/src/api/reactor/exec.rs): every spawned future becomes a
 * task registered with the event loop under a token drawn from a counter
 * that wraps within a window of u32::MAX tokens starting at `offset`.
 * A readiness event for a token polls its task once; a task still pending
 * goes back into the table, any other is dropped.  Tasks whose deadline
 * has passed are dropped by `check_timeouts`.
 *
 * Futures are of an abstract type `F`; what a poll answers is an input,
 * and instants are natural numbers of an abstract clock.
 */
module ReactorExec {
  import opened Wrappers
  import opened Bytes
  import R = Request

  /** A task: its future slot (emptied while being polled) and its deadline. */
  datatype Task<F> = Task(future: Option<F>, deadline: nat)

  /** The token after `id`: one more, or back to `offset` at the end of the window. */
  function NextId(offset: nat, id: nat): (n: nat)
    requires offset <= id < offset + U32_MAX
    ensures offset <= n < offset + U32_MAX
    ensures n == offset || n == id + 1
  {
    if id + 1 >= offset + U32_MAX then offset else id + 1
  }

  /** The token issued `k` spawns after the one holding `id`. */
  function IdAfter(offset: nat, id: nat, k: nat): (n: nat)
    requires offset <= id < offset + U32_MAX
    ensures offset <= n < offset + U32_MAX
  {
    if k == 0 then id else NextId(offset, IdAfter(offset, id, k - 1))
  }

  /** One step on the residue: the wrap happens exactly at the last residue. */
  lemma ModStep(a: nat)
    ensures a % U32_MAX == U32_MAX - 1 ==> (a + 1) % U32_MAX == 0
    ensures a % U32_MAX != U32_MAX - 1 ==> (a + 1) % U32_MAX == a % U32_MAX + 1
  {
  }

  /** The counter walks the window cyclically: k spawns advance it by k modulo u32::MAX. */
  lemma {:induction false} IdAfterCycles(offset: nat, id: nat, k: nat)
    requires offset <= id < offset + U32_MAX
    ensures IdAfter(offset, id, k) == offset + (id - offset + k) % U32_MAX
  {
    if k > 0 {
      IdAfterCycles(offset, id, k - 1);
      ModStep(id - offset + (k - 1));
    }
  }

  /**
   * Tokens never repeat within u32::MAX consecutive spawns, so a task is
   * replaced by a newer one only if it outlives u32::MAX - 1 later spawns.
   */
  lemma TokensDistinct(offset: nat, id: nat, i: nat, j: nat)
    requires offset <= id < offset + U32_MAX
    requires i < j < U32_MAX
    ensures IdAfter(offset, id, i) != IdAfter(offset, id, j)
  {
    IdAfterCycles(offset, id, i);
    IdAfterCycles(offset, id, j);
    var d := id - offset;
    ModDiff(d + i, j - i, U32_MAX);
  }

  /** Adding a positive amount below the modulus changes the residue. */
  lemma ModDiff(a: nat, k: nat, m: nat)
    requires 0 < k < m
    ensures (a + k) % m != a % m
  {
    var q, r := a / m, a % m;
    assert a == q * m + r;
    if r + k < m {
      assert a + k == q * m + (r + k);
      ModUnique(a + k, q, r + k, m);
    } else {
      assert a + k == (q + 1) * m + (r + k - m);
      ModUnique(a + k, q + 1, r + k - m, m);
    }
  }

  /** The remainder is the one below the modulus. */
  lemma ModUnique(a: nat, q: nat, r: nat, m: nat)
    requires 0 <= r < m && a == q * m + r
    ensures a % m == r
  {
    var q2, r2 := a / m, a % m;
    assert q2 * m + r2 == q * m + r;
    if q2 != q {
      var lo, hi := if q2 < q then q2 else q, if q2 < q then q else q2;
      MulGrows(lo, hi - lo, m);
      assert false;
    }
  }

  /** A larger multiple is at least one modulus further on. */
  lemma MulGrows(lo: nat, d: nat, m: nat)
    requires d >= 1
    ensures (lo + d) * m >= lo * m + m
  {
    assert (lo + d) * m == lo * m + d * m;
    if d > 1 {
      MulGrows(lo, d - 1, m);
    }
  }

  /** After exactly u32::MAX spawns the counter is back where it started. */
  lemma TokensPeriod(offset: nat, id: nat)
    requires offset <= id < offset + U32_MAX
    ensures IdAfter(offset, id, U32_MAX) == id
  {
    IdAfterCycles(offset, id, U32_MAX);
    assert (id - offset + U32_MAX) % U32_MAX == id - offset;
  }

  /** `check_deadline`: a task has timed out once `now` is strictly after its deadline. */
  predicate Expired<F>(task: Task<F>, now: nat)
  {
    now > task.deadline
  }

  /** The tasks `check_timeouts` keeps at `now`. */
  function Live<F>(tasks: map<nat, Task<F>>, now: nat): (kept: map<nat, Task<F>>)
    ensures forall t :: t in kept <==> t in tasks && !Expired(tasks[t], now)
    ensures forall t :: t in kept ==> kept[t] == tasks[t]
  {
    map t | t in tasks && !Expired(tasks[t], now) :: tasks[t]
  }

  /** A later check keeps no task an earlier one dropped. */
  lemma LiveShrinks<F>(tasks: map<nat, Task<F>>, now: nat, later: nat)
    requires now <= later
    ensures Live(tasks, later).Keys <= Live(tasks, now).Keys
    ensures Live(Live(tasks, now), later) == Live(tasks, later)
  {
  }

  class ExecReactor<F> {
    var tasks: map<nat, Task<F>>
    const offset: nat
    /** The configured `exec_timeout`. */
    const execTimeout: nat
    var nextId: nat

    /** The counter stays in its window and every task sits under a token from it. */
    predicate Valid()
      reads this
    {
      offset + U32_MAX <= R.USIZE_MAX
      && offset <= nextId < offset + U32_MAX
      && forall t :: t in tasks ==> offset <= t < offset + U32_MAX
    }

    /**
     * `ExecReactor::new`: no tasks and the first token is `offset`.
     * `offset + u32::MAX` must fit a usize, since `spawn_boxed` computes it.
     */
    constructor (offset: nat, execTimeout: nat)
      requires offset + U32_MAX <= R.USIZE_MAX
      ensures Valid()
      ensures tasks == map[] && nextId == offset
      ensures this.offset == offset && this.execTimeout == execTimeout
    {
      tasks := map[];
      this.offset := offset;
      this.execTimeout := execTimeout;
      nextId := offset;
    }

    /**
     * `spawn_boxed`: the task takes the current token, the counter moves
     * on, and the task is stored under its token with deadline
     * `now + exec_timeout`, replacing whatever was there.
     */
    method SpawnBoxed(future: F, now: nat) returns (token: nat)
      requires Valid()
      modifies this
      ensures Valid()
      ensures token == old(nextId) && nextId == NextId(offset, old(nextId))
      ensures tasks == old(tasks)[token := Task(Some(future), now + execTimeout)]
    {
      token := nextId;
      if nextId + 1 >= offset + U32_MAX {
        nextId := offset;
      } else {
        nextId := nextId + 1;
      }
      tasks := tasks[token := Task(Some(future), now + execTimeout)];
    }

    /** `spawn` as intended: boxing the future and handing it to `spawn_boxed`. */
    method Spawn(future: F, now: nat) returns (token: nat)
      requires Valid()
      modifies this
      ensures Valid()
      ensures token == old(nextId) && nextId == NextId(offset, old(nextId))
      ensures tasks == old(tasks)[token := Task(Some(future), now + execTimeout)]
    {
      token := SpawnBoxed(future, now);
    }

    /**
     * `ready`: an unknown token changes nothing.  A known task is taken
     * out and its future polled once (`pending` is what the poll
     * answered); a pending task goes back under the same token, a
     * completed one or one with an empty slot stays out.
     */
    method Ready(token: nat, pending: bool)
      requires Valid()
      modifies this
      ensures Valid() && nextId == old(nextId)
      ensures token !in old(tasks) ==> tasks == old(tasks)
      ensures token in old(tasks) && old(tasks)[token].future.Some? && pending ==> tasks == old(tasks)
      ensures token in old(tasks) && !(old(tasks)[token].future.Some? && pending) ==>
                tasks == old(tasks) - {token}
    {
      if token in tasks {
        var task := tasks[token];
        tasks := tasks - {token};
        match task.future {
          case Some(f) =>
            if pending {
              tasks := tasks[token := task];
            }
          case None =>
        }
      }
    }

    /** `check_timeouts`: drops exactly the tasks whose deadline is before `now`. */
    method CheckTimeouts(now: nat)
      requires Valid()
      modifies this
      ensures Valid() && nextId == old(nextId)
      ensures tasks == Live(old(tasks), now)
    {
      tasks := map t | t in tasks && !Expired(tasks[t], now) :: tasks[t];
    }
  }

  /** What the body of `spawn` calls: itself, as written, or `spawn_boxed`, as intended. */
  datatype SpawnBody = CallsSpawn | CallsSpawnBoxed

  /**
   * How a call to `spawn` ends: it never returns (the nested calls run
   * until the stack is exhausted), or it returns having stored the task
   * under `token`.
   */
  datatype SpawnOutcome<F> = Diverging | Spawned(tasks: map<nat, Task<F>>, nextId: nat, token: nat)

  /**
   * A call to `spawn` whose body is `body`, followed for at most `fuel`
   * nested calls; a call still nested when the fuel runs out has not
   * returned.  `spawn_boxed` is modelled by its specification, as
   * `ExecReactor.SpawnBoxed` states it.
   */
  function RunSpawn<F>(body: SpawnBody, offset: nat, tasks: map<nat, Task<F>>, nextId: nat,
                       future: F, deadline: nat, fuel: nat): (r: SpawnOutcome<F>)
    requires offset <= nextId < offset + U32_MAX
    ensures r.Spawned? ==> fuel >= 1 && body == CallsSpawnBoxed
  {
    if fuel == 0 then Diverging
    else match body
      case CallsSpawnBoxed => Spawned(tasks[nextId := Task(Some(future), deadline)], NextId(offset, nextId), nextId)
      case CallsSpawn => RunSpawn(body, offset, tasks, nextId, future, deadline, fuel - 1)
  }

  /**
   * `spawn` as written (exec.rs:34-36) never returns: however many nested
   * calls are followed, it is still calling itself, no token is issued and
   * no task is stored.  This follows from `RunSpawn`'s own contract, which
   * its recursion proves: only a body handing over to `spawn_boxed` returns.
   */
  lemma SpawnAsWrittenDiverges<F>(offset: nat, tasks: map<nat, Task<F>>, nextId: nat,
                                  future: F, deadline: nat, fuel: nat)
    requires offset <= nextId < offset + U32_MAX
    ensures RunSpawn(CallsSpawn, offset, tasks, nextId, future, deadline, fuel) == Diverging
  {
  }

  /**
   * `spawn` as intended returns after one call, with the task stored under
   * the current token and the counter moved on, as `spawn_boxed` does.
   */
  lemma SpawnIntendedReturns<F>(offset: nat, tasks: map<nat, Task<F>>, nextId: nat,
                                future: F, deadline: nat, fuel: nat)
    requires offset <= nextId < offset + U32_MAX && fuel >= 1
    ensures var r := RunSpawn(CallsSpawnBoxed, offset, tasks, nextId, future, deadline, fuel);
            r.Spawned? && r.token == nextId && r.nextId == NextId(offset, nextId)
            && r.tasks == tasks[nextId := Task(Some(future), deadline)]
            && r.token in r.tasks && r.tasks[r.token].future == Some(future)
  {
  }
}
