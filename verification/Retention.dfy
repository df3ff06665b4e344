/** Retention sweeps: they compose, never touch live work, and never change what runs next. */
module Retention {
  import opened Core
  import opened StoreModel
  import opened StoreLaws

  /** A later sweep absorbs an earlier one. */
  lemma SweepAbsorbs(db: Db, t1: Instant, t2: Instant, p: RetentionPolicy)
    requires t1 <= t2
    ensures SweepDb(SweepDb(db, t1, p), t2, p) == SweepDb(db, t2, p)
  {
    var once := SweepDb(db, t2, p);
    var twice := SweepDb(SweepDb(db, t1, p), t2, p);
    forall s | s in db.sessions && SessionExpired(db, s, t1, p)
      ensures SessionExpired(db, s, t2, p)
    {
      ArmedShrinks(db.rules, s, t1, t2);
    }
    assert twice.sessions == once.sessions;
    assert twice.conts == once.conts;
    assert twice.events == once.events;
  }

  lemma ArmedShrinks(rules: map<string, Rule>, s: string, t1: Instant, t2: Instant)
    requires t1 <= t2
    ensures Armed(rules, s, t2) ==> Armed(rules, s, t1)
  {
    if r :| r in rules && rules[r].sessionId == s && rules[r].Active(t2) {
      assert rules[r].Active(t1);
    }
  }

  /** A sweep changes no rule, keeps every unfinished row as it is, and so leaves each queue's order alone. */
  lemma SweepLeavesDispatchAlone(db: Db, now: Instant, p: RetentionPolicy, s: string, id: string)
    ensures var db' := SweepDb(db, now, p);
      && db'.rules == db.rules
      && (id in db.conts && !db.conts[id].state.Terminal() ==> id in db'.conts && db'.conts[id] == db.conts[id])
      && (IsOldestPending(db', s, id) <==> IsOldestPending(db, s, id))
      && PendingSessions(db') == PendingSessions(db)
  {
    var db' := SweepDb(db, now, p);
    forall q, j ensures IsPending(db', q, j) <==> IsPending(db, q, j) {}
    forall q ensures HasPending(db', q) <==> HasPending(db, q) {
      if j :| IsPending(db, q, j) { assert IsPending(db', q, j); }
      if j :| IsPending(db', q, j) { assert IsPending(db, q, j); }
    }
    if IsOldestPending(db', s, id) {
      forall j | IsPending(db, s, j) && j != id ensures Before(db.conts[id], db.conts[j]) {
        assert IsPending(db', s, j);
      }
    }
  }

  /** A running session, and one an active rule still points at, survive; nothing else protects a session. */
  lemma SweptSessionsExactly(db: Db, now: Instant, p: RetentionPolicy, s: string)
    requires s in db.sessions
    ensures s !in SweepDb(db, now, p).sessions <==>
      && db.sessions[s].updatedAt < now - p.sessionIdle
      && db.sessions[s].state != SessionRunning
      && forall r :: r in db.rules && db.rules[r].sessionId == s ==> !db.rules[r].Active(now)
  {
  }

  /** A row is deleted exactly if it has finished and is past the limit, whatever rule it belongs to. */
  lemma SweptRowsExactly(db: Db, now: Instant, p: RetentionPolicy, id: string)
    requires id in db.conts
    ensures id !in SweepDb(db, now, p).conts <==>
      && (db.conts[id].state == Completed || db.conts[id].state == Failed)
      && db.conts[id].updatedAt < now - p.continuationAge
  {
  }

  /** Every key of the one map is in the other, with the same value. */
  predicate Within<T(==)>(m: map<string, T>, n: map<string, T>) {
    forall k :: k in m ==> k in n && m[k] == n[k]
  }

  /** The three deletions, and nothing else. */
  ghost predicate SweptExactly(db: Db, db': Db, now: Instant, p: RetentionPolicy) {
    && db'.rules == db.rules
    && Within(db'.conts, db.conts) && Within(db'.events, db.events) && Within(db'.sessions, db.sessions)
    && (forall id :: id in db.conts ==>
          (id !in db'.conts <==> (db.conts[id].state == Completed || db.conts[id].state == Failed)
                                 && db.conts[id].updatedAt < now - p.continuationAge))
    && (forall e :: e in db.events ==> (e !in db'.events <==> db.events[e].timestamp < now - p.eventAge))
    && (forall s :: s in db.sessions ==>
          (s !in db'.sessions <==>
            && db.sessions[s].updatedAt < now - p.sessionIdle && db.sessions[s].state != SessionRunning
            && forall r :: r in db.rules && db.rules[r].sessionId == s ==>
                 db.rules[r].consumed || (db.rules[r].expiresAt.Some? && db.rules[r].expiresAt.value <= now)))
  }

  lemma SweepIsExact(db: Db, now: Instant, p: RetentionPolicy)
    ensures SweptExactly(db, SweepDb(db, now, p), now, p)
  {
    var db' := SweepDb(db, now, p);
    forall s | s in db.sessions ensures s !in db'.sessions <==>
      && db.sessions[s].updatedAt < now - p.sessionIdle && db.sessions[s].state != SessionRunning
      && forall r :: r in db.rules && db.rules[r].sessionId == s ==>
           db.rules[r].consumed || (db.rules[r].expiresAt.Some? && db.rules[r].expiresAt.value <= now)
    {
      SweptSessionsExactly(db, now, p, s);
    }
  }

  /**
   Pending work does not protect a session: one is registered, work is queued for it, and a sweep
   then deletes the registration while the work still waits.
   */
  lemma PendingWorkDoesNotProtect(register: Op, insert: Op, sweep: Op)
    requires register == OpRegister(Session("s", "claude", "/", Unset, 0, 0), 0)
    requires insert == OpInsert(ManualRow("c", "manual-1", "manual-2", "s", "go", 0))
    requires sweep == OpSweep(10, RetentionPolicy(1, 1, 1))
    ensures Runs(EMPTY_DB, EMPTY_LEDGER, [register, insert, sweep])
    ensures "s" in FinalDb(EMPTY_DB, EMPTY_LEDGER, [register]).sessions
    ensures var db := FinalDb(EMPTY_DB, EMPTY_LEDGER, [register, insert, sweep]);
      HasPending(db, "s") && "s" !in db.sessions
  {
    RegisterFirst(register);
    QueueManual(insert);
    SweepForgets(sweep);
    hide OpOk, ApplyOp, ApplyLedger, Runs, FinalDb, FinalLedger, HasPending, ManualRow;
    ThreeCalls(register, insert, sweep, REGISTERED, WORK_QUEUED, ApplyLedger(REGISTERED, EMPTY_LEDGER, insert));
  }

  const REGISTERED := EMPTY_DB.(sessions := map["s" := Session("s", "claude", "/", Waiting, 0, 0)])
  const WORK_QUEUED := REGISTERED.(conts := map["c" := ManualRow("c", "manual-1", "manual-2", "s", "go", 0)])

  lemma RegisterFirst(op: Op)
    requires op == OpRegister(Session("s", "claude", "/", Unset, 0, 0), 0)
    ensures OpOk(EMPTY_DB, EMPTY_LEDGER, op) && ApplyOp(EMPTY_DB, op) == REGISTERED
    ensures ApplyLedger(EMPTY_DB, EMPTY_LEDGER, op) == EMPTY_LEDGER
  {
  }

  lemma QueueManual(op: Op)
    requires op == OpInsert(ManualRow("c", "manual-1", "manual-2", "s", "go", 0))
    ensures OpOk(REGISTERED, EMPTY_LEDGER, op) && ApplyOp(REGISTERED, op) == WORK_QUEUED
  {
  }

  lemma SweepForgets(op: Op)
    requires op == OpSweep(10, RetentionPolicy(1, 1, 1))
    ensures forall led :: OpOk(WORK_QUEUED, led, op)
    ensures HasPending(ApplyOp(WORK_QUEUED, op), "s") && "s" !in ApplyOp(WORK_QUEUED, op).sessions
  {
    assert IsPending(ApplyOp(WORK_QUEUED, op), "s", "c");
  }

  lemma ThreeCalls(a: Op, b: Op, c: Op, db1: Db, db2: Db, led2: Ledger)
    requires OpOk(EMPTY_DB, EMPTY_LEDGER, a) && ApplyOp(EMPTY_DB, a) == db1
    requires ApplyLedger(EMPTY_DB, EMPTY_LEDGER, a) == EMPTY_LEDGER
    requires OpOk(db1, EMPTY_LEDGER, b) && ApplyOp(db1, b) == db2 && ApplyLedger(db1, EMPTY_LEDGER, b) == led2
    requires OpOk(db2, led2, c)
    ensures Reaches([a], db1, EMPTY_LEDGER) && Reaches([a, b, c], ApplyOp(db2, c), ApplyLedger(db2, led2, c))
  {
    hide Reaches, ApplyOp, ApplyLedger;
    ReachesStart();
    ReachesNext([], EMPTY_DB, EMPTY_LEDGER, a);
    assert [] + [a] == [a];
    ReachesNext([a], db1, EMPTY_LEDGER, b);
    assert [a] + [b] == [a, b];
    ReachesNext([a, b], db2, led2, c);
    assert [a, b] + [c] == [a, b, c];
  }
}
