/**
 * The registry of live TLS sessions (sgx/enclave/src/api/session.rs): a
 * global map from session id to session, guarded by a lock, and a global
 * counter that hands out ids.  The counter is an atomic usize whose
 * `fetch_add` wraps at 2^64.  Whether taking the lock succeeds is an
 * input; the sessions themselves are of an abstract type `S`.
 */
module Session {
  import opened Wrappers
  import R = Request
  import ReactorExec

  /** The number of distinct values of the usize counter. */
  const ID_SPACE: nat := R.USIZE_MAX + 1

  /** The id handed out `k` creations after the counter stood at `count`. */
  function IdAfter(count: nat, k: nat): (id: nat)
    ensures id < ID_SPACE
  {
    (count + k) % ID_SPACE
  }

  /** Ids never repeat within 2^64 successful creations. */
  lemma IdsDistinct(count: nat, i: nat, j: nat)
    requires i < j < ID_SPACE
    ensures IdAfter(count, i) != IdAfter(count, j)
  {
    ReactorExec.ModDiff(count + i, j - i, ID_SPACE);
  }

  class SessionManager<S> {
    /** `GLOBAL_CONTEXTS`. */
    var sessions: map<nat, S>
    /** `GLOBAL_CONTEXT_COUNT`. */
    var count: nat
    /** The sessions whose boxes `remove_session` has released, in order. */
    var freed: seq<S>

    predicate Valid()
      reads this
    {
      count < ID_SPACE && forall id :: id in sessions ==> id < ID_SPACE
    }

    /** The registry at start-up: no sessions, the counter at 0. */
    constructor ()
      ensures Valid() && sessions == map[] && count == 0 && freed == []
    {
      sessions := map[];
      count := 0;
      freed := [];
    }

    /**
     * `new_session`: with the lock, the session takes the counter's value
     * as its id and is stored under it, and the counter moves on (wrapping
     * at 2^64).  Without the lock nothing changes and the answer is None.
     */
    method NewSession(s: S, lockOk: bool) returns (id: Option<nat>)
      requires Valid()
      modifies this
      ensures Valid() && freed == old(freed)
      ensures !lockOk ==> id == None && sessions == old(sessions) && count == old(count)
      ensures lockOk ==> id == Some(old(count)) && count == IdAfter(old(count), 1)
                         && sessions == old(sessions)[old(count) := s]
    {
      if !lockOk {
        return None;
      }
      var current := count;
      count := (count + 1) % ID_SPACE;
      sessions := sessions[current := s];
      id := Some(current);
    }

    /** `get_session`: the session under `id`, or None for an unknown id or without the lock. */
    method GetSession(id: nat, lockOk: bool) returns (r: Option<S>)
      ensures r.Some? <==> lockOk && id in sessions
      ensures r.Some? ==> r.value == sessions[id]
    {
      if lockOk && id in sessions {
        r := Some(sessions[id]);
      } else {
        r := None;
      }
    }

    /**
     * `remove_session`: with the lock, a known session is released and its
     * entry removed; an unknown id, or a failed lock, changes nothing.
     */
    method RemoveSession(id: nat, lockOk: bool)
      requires Valid()
      modifies this
      ensures Valid() && count == old(count)
      ensures lockOk && id in old(sessions) ==>
                sessions == old(sessions) - {id} && freed == old(freed) + [old(sessions)[id]]
      ensures !(lockOk && id in old(sessions)) ==> sessions == old(sessions) && freed == old(freed)
    {
      if lockOk && id in sessions {
        freed := freed + [sessions[id]];
        sessions := sessions - {id};
      }
    }
  }

  /**
   * A created session is found under the id it was given, until it is
   * removed; after that the id is unknown.
   */
  method CreateFindRemove<S>(m: SessionManager<S>, s: S) returns (found: Option<S>, after: Option<S>)
    requires m.Valid()
    modifies m
    ensures found == Some(s) && after == None
    ensures m.Valid() && m.freed == old(m.freed) + [s]
  {
    var id := m.NewSession(s, true);
    found := m.GetSession(id.value, true);
    m.RemoveSession(id.value, true);
    after := m.GetSession(id.value, true);
  }
}
