/** The pending-call table both versions keep at module level: the id
    counter `nextFuncId` and the set of ids whose remoteFunc promise still
    waits in `pendingFuncs`. The continuations themselves are not data here:
    calling one is the `Settle` effect. */
module Calls {
  import opened Protocol

  datatype Table = Table(nextFuncId: nat, pending: set<nat>)

  /** The state when the module is loaded: `let nextFuncId = 1` and
      `let pendingFuncs = {}`. */
  const Initial: Table := Table(1, {})

  /** Every waiting id was issued: ids start at 1 and stay below the counter. */
  predicate WellFormed(t: Table) {
    t.nextFuncId >= 1 && forall id :: id in t.pending ==> 1 <= id < t.nextFuncId
  }

  /** 1 when the promise with this id may still be settled later: it is
      waiting, or its id has not been issued yet; 0 once it has been settled. */
  function Open(t: Table, id: nat): nat {
    if id in t.pending || id >= t.nextFuncId then 1 else 0
  }

  /** Going from `t` to `t2` with `effects` never moves the counter back and
      settles a promise only by using up its openness: each settlement of an
      id is paid for by that id leaving the table for good. */
  ghost predicate Accounted(t: Table, t2: Table, effects: seq<Effect>) {
    t2.nextFuncId >= t.nextFuncId &&
    forall id :: Settlements(id, effects) + Open(t2, id) <= Open(t, id)
  }

  /** The result of one operation: the new table and its effects in order. */
  datatype Step = Step(table: Table, effects: seq<Effect>)

  /** Issuing the next id (with effects that settle nothing) keeps the
      table well formed and is accounted: the new id was open before, since
      it had not been issued, and is open after, since it is waiting. */
  lemma IssueAccounted(t: Table, e: Effect)
    requires WellFormed(t) && !e.Settle?
    ensures WellFormed(Table(t.nextFuncId + 1, t.pending + {t.nextFuncId}))
    ensures Accounted(t, Table(t.nextFuncId + 1, t.pending + {t.nextFuncId}), [e])
  {
    var t2 := Table(t.nextFuncId + 1, t.pending + {t.nextFuncId});
    forall id ensures Settlements(id, [e]) + Open(t2, id) <= Open(t, id) {
      NoSettlements(id, [e]);
    }
  }

  /** Settling a waiting id once and removing it is accounted. */
  lemma SettleAccounted(t: Table, id: nat, s: Settlement)
    requires WellFormed(t) && id in t.pending
    ensures WellFormed(Table(t.nextFuncId, t.pending - {id}))
    ensures Accounted(t, Table(t.nextFuncId, t.pending - {id}), [Settle(id, s)])
  {
    var t2 := Table(t.nextFuncId, t.pending - {id});
    forall k ensures Settlements(k, [Settle(id, s)]) + Open(t2, k) <= Open(t, k) {
      assert Settlements(k, [Settle(id, s)]) == (if k == id then 1 else 0) + Settlements(k, []);
    }
  }

  /** Effects that settle nothing, on an unchanged table, are accounted. */
  lemma QuietAccounted(t: Table, effects: seq<Effect>)
    requires forall i :: 0 <= i < |effects| ==> !effects[i].Settle?
    ensures Accounted(t, t, effects)
  {
    forall id ensures Settlements(id, effects) == 0 {
      NoSettlements(id, effects);
    }
  }

  /** Accounting composes along a run. */
  lemma AccountedChain(t1: Table, t2: Table, t3: Table, e1: seq<Effect>, e2: seq<Effect>)
    requires Accounted(t1, t2, e1) && Accounted(t2, t3, e2)
    ensures Accounted(t1, t3, e1 + e2)
  {
    forall id ensures Settlements(id, e1 + e2) + Open(t3, id) <= Open(t1, id) {
      SettlementsAppend(id, e1, e2);
    }
  }

  /** A promise that is already settled (its id issued and no longer
      waiting) is never settled again by an accounted run, and no promise is
      settled twice. */
  lemma AccountedSettlesAtMostOnce(t: Table, t2: Table, effects: seq<Effect>, id: nat)
    requires Accounted(t, t2, effects)
    ensures Settlements(id, effects) <= 1
    ensures id < t.nextFuncId && id !in t.pending ==> Settlements(id, effects) == 0
  {
    assert Settlements(id, effects) + Open(t2, id) <= Open(t, id);
  }
}
