/** Delivering an event twice: when it is a no-op, and exactly what it does otherwise. */
module Redelivery {
  import opened Core
  import opened StoreModel
  import opened StoreLaws

  /** Every rule that could select the event at `t` or later has its continuation for it. */
  ghost predicate Settled(db: Db, ev: Event, t: Instant) {
    && ev.id in db.events
    && forall r, t2 :: r in db.rules && t <= t2 && Selected(db.rules[r], ev, t2) ==> Fired(db.conts, r, ev.id)
  }

  /** Neither a new rule nor a retention sweep. */
  predicate Harmless(op: Op) { !op.OpAddRule? && !op.OpSweep? }

  lemma FiredBy(conts: map<string, Continuation>, id: string)
    requires id in conts
    ensures Fired(conts, conts[id].ruleId, conts[id].eventId)
  {
  }

  lemma SelectedIsFired(db: Db, led: Ledger, ev: Event, t: Instant, mint: map<string, Mint>, r: string)
    requires RulesKept(db, led) && MintOk(db, ev, t, mint)
    requires r in db.rules && Selected(db.rules[r], ev, t)
    ensures Fired(IngestDb(db, ev, t, mint).conts, r, ev.id)
  {
    IngestRowsAfter(db, ev, t, mint);
    var conts' := IngestDb(db, ev, t, mint).conts;
    var rows := RowsFor(db.rules, Firing(db, ev, t), ev, t, mint);
    if r in Firing(db, ev, t) {
      assert Covered(mint, r);
      var id :| id in mint && mint[id].ruleId == r;
      assert rows[id].ruleId == r && rows[id].eventId == ev.id;
      hide IngestDb, MintOk, Firing, Fired;
      FiredBy(conts', id);
    } else {
      var id :| id in db.conts && db.conts[id].ruleId == r && db.conts[id].eventId == ev.id;
      hide IngestDb, MintOk, Firing, Fired;
      FiredBy(conts', id);
    }
  }

  lemma IngestSettles(db: Db, led: Ledger, ev: Event, t: Instant, mint: map<string, Mint>)
    requires RulesKept(db, led) && MintOk(db, ev, t, mint)
    ensures Settled(IngestDb(db, ev, t, mint), ev, t)
  {
    var rules' := Consume(db.rules, Firing(db, ev, t));
    forall r, t2 | r in rules' && t <= t2 && Selected(rules'[r], ev, t2)
      ensures Fired(IngestDb(db, ev, t, mint).conts, r, ev.id)
    {
      assert Selected(db.rules[r], ev, t);
      SelectedIsFired(db, led, ev, t, mint, r);
    }
  }

  lemma FiredStays(db: Db, led: Ledger, op: Op, r: string, e: string)
    requires RowsKept(db, led) && OpOk(db, led, op) && !op.OpSweep? && Fired(db.conts, r, e)
    ensures Fired(ApplyOp(db, op).conts, r, e)
  {
    var id :| id in db.conts && db.conts[id].ruleId == r && db.conts[id].eventId == e;
    RowKeptUnlessSwept(db, led, op, id);
    hide RowsKept, OpOk, ApplyOp, Fired;
    FiredBy(ApplyOp(db, op).conts, id);
  }

  lemma RowKeptUnlessSwept(db: Db, led: Ledger, op: Op, id: string)
    requires RowsKept(db, led) && OpOk(db, led, op) && !op.OpSweep? && id in db.conts
    ensures id in ApplyOp(db, op).conts && SameRow(db.conts[id], ApplyOp(db, op).conts[id])
  {
    RowAfter(db, led, op, id);
    NothingDeleted(db, op, id);
    hide RowsKept, OpOk, ApplyOp, NewRows;
  }

  lemma NothingDeleted(db: Db, op: Op, id: string)
    requires (op.OpIngest? ==> MintOk(db, op.ev, op.at, op.mint)) && !op.OpSweep? && id in db.conts
    ensures id in ApplyOp(db, op).conts
  {
    hide MintOk, Firing, RowsFor;
  }

  /** Without new rules, a rule active after a call was there, with the same selector, and active before it. */
  lemma ActiveBefore(db: Db, led: Ledger, op: Op, ev: Event, r: string, t: Instant)
    requires OpOk(db, led, op) && !op.OpAddRule?
    requires r in ApplyOp(db, op).rules && Selected(ApplyOp(db, op).rules[r], ev, t)
    ensures r in db.rules && Selected(db.rules[r], ev, t)
  {
  }

  lemma SettledStays(db: Db, led: Ledger, op: Op, ev: Event, t: Instant)
    requires RowsKept(db, led) && OpOk(db, led, op) && Harmless(op) && Settled(db, ev, t)
    ensures Settled(ApplyOp(db, op), ev, t)
  {
    var rules', conts' := ApplyOp(db, op).rules, ApplyOp(db, op).conts;
    forall r, t2 | r in rules' && t <= t2 && Selected(rules'[r], ev, t2)
      ensures Fired(conts', r, ev.id)
    {
      ActiveBefore(db, led, op, ev, r, t2);
      FiredStays(db, led, op, r, ev.id);
    }
  }

  lemma {:induction false} SettledAlways(db: Db, led: Ledger, ops: seq<Op>, ev: Event, t: Instant)
    requires StoreInv(db, led) && Runs(db, led, ops) && Settled(db, ev, t)
    requires forall k :: 0 <= k < |ops| ==> Harmless(ops[k])
    ensures Settled(FinalDb(db, led, ops), ev, t)
    decreases |ops|
  {
    if ops == [] {
    } else {
      SettledStays(db, led, ops[0], ev, t);
      StoreInvByOp(db, led, ops[0]);
      SettledAlways(ApplyOp(db, ops[0]), ApplyLedger(db, led, ops[0]), ops[1..], ev, t);
    }
  }

  /**
   After an event was ingested at `t`, and any calls that add no rule and sweep nothing,
   ingesting it again at `t` or later creates no continuation and changes no table.
   */
  lemma RedeliveryIsNoOp(db: Db, led: Ledger, ev: Event, t: Instant, mint: map<string, Mint>,
                         ops: seq<Op>, t2: Instant, mint2: map<string, Mint>)
    requires StoreInv(db, led)
    requires Runs(db, led, [OpIngest(ev, t, mint)] + ops)
    requires forall k :: 0 <= k < |ops| ==> Harmless(ops[k])
    requires t <= t2
    requires MintOk(FinalDb(db, led, [OpIngest(ev, t, mint)] + ops), ev, t2, mint2)
    ensures var later := FinalDb(db, led, [OpIngest(ev, t, mint)] + ops);
      Firing(later, ev, t2) == {} && IngestDb(later, ev, t2, mint2) == later
  {
    var op := OpIngest(ev, t, mint);
    assert ([op] + ops)[1..] == ops;
    IngestSettles(db, led, ev, t, mint);
    StoreInvByOp(db, led, op);
    SettledAlways(ApplyOp(db, op), ApplyLedger(db, led, op), ops, ev, t);
    SettledIngest(FinalDb(db, led, [op] + ops), ev, t, t2, mint2);
  }

  lemma SettledIngest(db: Db, ev: Event, t: Instant, t2: Instant, mint: map<string, Mint>)
    requires Settled(db, ev, t) && t <= t2 && MintOk(db, ev, t2, mint)
    ensures Firing(db, ev, t2) == {} && IngestDb(db, ev, t2, mint) == db
  {
    forall r ensures r !in Firing(db, ev, t2) {}
    IdleIngest(db, ev, t2, mint);
  }

  lemma IdleIngest(db: Db, ev: Event, now: Instant, mint: map<string, Mint>)
    requires MintOk(db, ev, now, mint) && ev.id in db.events && Firing(db, ev, now) == {}
    ensures IngestDb(db, ev, now, mint) == db
  {
    hide Consume, RowsFor, Fired;
    ConsumeNothing(db.rules, {});
    RowsForNothing(db.rules, {}, ev, now, mint, db.conts);
  }

  // ---------- Exactly when a re-delivery changes nothing ----------

  /** An ingest changes nothing exactly if the event is stored and no rule fires. */
  lemma IdleIngestIff(db: Db, ev: Event, now: Instant, mint: map<string, Mint>)
    requires MintOk(db, ev, now, mint)
    ensures IngestDb(db, ev, now, mint) == db <==> ev.id in db.events && Firing(db, ev, now) == {}
  {
    if ev.id in db.events && Firing(db, ev, now) == {} {
      IdleIngest(db, ev, now, mint);
    } else if r :| r in Firing(db, ev, now) {
      assert Covered(mint, r);
      var id :| id in mint && mint[id].ruleId == r;
      IngestRowsAfter(db, ev, now, mint);
      assert id in IngestDb(db, ev, now, mint).conts && id !in db.conts;
    }
  }

  /** The rule created a row for the event that retention has not deleted. */
  ghost predicate Answered(led: Ledger, r: string, e: string) {
    exists id :: id in led.created && id !in led.swept && led.created[id].ruleId == r && led.created[id].eventId == e
  }

  lemma AnsweredIsFired(db: Db, led: Ledger, r: string, e: string)
    requires RowsKept(db, led)
    ensures Answered(led, r, e) <==> Fired(db.conts, r, e)
  {
    if id :| id in led.created && id !in led.swept && led.created[id].ruleId == r && led.created[id].eventId == e {
      FiredBy(db.conts, id);
    }
    if id :| id in db.conts && db.conts[id].ruleId == r && db.conts[id].eventId == e {
      assert led.created[id].ruleId == r && id !in led.swept;
    }
  }

  /** The event is stored, and each rule that selects it now has answered it. */
  ghost predicate NothingOwed(db: Db, led: Ledger, ev: Event, t: Instant) {
    && ev.id in db.events
    && forall r :: r in db.rules && Selected(db.rules[r], ev, t) ==> Answered(led, r, ev.id)
  }

  lemma RedeliveryIffHere(db: Db, led: Ledger, ev: Event, t: Instant, mint: map<string, Mint>)
    requires RowsKept(db, led) && MintOk(db, ev, t, mint)
    ensures IngestDb(db, ev, t, mint) == db <==> NothingOwed(db, led, ev, t)
  {
    IdleIngestIff(db, ev, t, mint);
    hide IngestDb, MintOk, Answered, Fired, Selected, RowsKept;
    forall r { AnsweredIsFired(db, led, r, ev.id); }
    if NothingOwed(db, led, ev, t) {
      forall r ensures r !in Firing(db, ev, t) {}
    } else if ev.id in db.events {
      var r :| r in db.rules && Selected(db.rules[r], ev, t) && !Answered(led, r, ev.id);
      assert r in Firing(db, ev, t);
    }
  }

  /**
   After any calls at all, rules added, removed, rows swept and events delivered any number of
   times, ingesting an event changes no table if and only if it is stored and every rule that
   selects it now created a row for it that was not swept.
   */
  lemma RedeliveryIff(ops: seq<Op>, ev: Event, t: Instant, mint: map<string, Mint>)
    requires Runs(EMPTY_DB, EMPTY_LEDGER, ops) && MintOk(FinalDb(EMPTY_DB, EMPTY_LEDGER, ops), ev, t, mint)
    ensures var later, led := FinalDb(EMPTY_DB, EMPTY_LEDGER, ops), FinalLedger(EMPTY_DB, EMPTY_LEDGER, ops);
      IngestDb(later, ev, t, mint) == later <==>
        && ev.id in later.events
        && forall r :: r in later.rules && Selected(later.rules[r], ev, t) ==> Answered(led, r, ev.id)
  {
    StoreInvAlways(EMPTY_DB, EMPTY_LEDGER, ops);
    RedeliveryIffHere(FinalDb(EMPTY_DB, EMPTY_LEDGER, ops), FinalLedger(EMPTY_DB, EMPTY_LEDGER, ops), ev, t, mint);
  }

  /** A rule added in between is the only one that can fire, so it decides. */
  lemma RedeliveryAfterAddRule(db: Db, led: Ledger, ev: Event, t: Instant, rule: Rule, t2: Instant,
                               mint: map<string, Mint>)
    requires RowsKept(db, led) && Settled(db, ev, t) && t <= t2 && OpOk(db, led, OpAddRule(rule))
    requires MintOk(AddRuleDb(db, rule), ev, t2, mint)
    ensures Firing(AddRuleDb(db, rule), ev, t2) == if Selected(rule, ev, t2) then {rule.id} else {}
    ensures IngestDb(AddRuleDb(db, rule), ev, t2, mint) == AddRuleDb(db, rule) <==> !Selected(rule, ev, t2)
  {
    AddedRuleFires(db, led, ev, t, rule, t2);
    hide Firing, MintOk, IngestDb, RowsKept, OpOk, Selected;
    IdleIngestIff(AddRuleDb(db, rule), ev, t2, mint);
  }

  lemma AddedRuleFires(db: Db, led: Ledger, ev: Event, t: Instant, rule: Rule, t2: Instant)
    requires RowsKept(db, led) && Settled(db, ev, t) && t <= t2 && OpOk(db, led, OpAddRule(rule))
    ensures Firing(AddRuleDb(db, rule), ev, t2) == if Selected(rule, ev, t2) then {rule.id} else {}
  {
    assert !Fired(db.conts, rule.id, ev.id);
  }

  /** The sweep deletes this row of the event although its rule still selects the event. */
  predicate Missed(db: Db, ev: Event, t2: Instant, sweepAt: Instant, p: RetentionPolicy, id: string) {
    && id in db.conts && db.conts[id].eventId == ev.id && RowExpired(db.conts[id], sweepAt, p)
    && db.conts[id].ruleId in db.rules && Selected(db.rules[db.conts[id].ruleId], ev, t2)
  }

  /** A sweep re-arms exactly the still-selecting rules whose row for the event it deleted. */
  lemma SweepRearms(db: Db, ev: Event, t: Instant, sweepAt: Instant, p: RetentionPolicy, t2: Instant, r: string)
    requires PairsUnique(db.conts) && Settled(db, ev, t) && t <= t2
    ensures r in Firing(SweepDb(db, sweepAt, p), ev, t2) <==>
      exists id :: Missed(db, ev, t2, sweepAt, p, id) && db.conts[id].ruleId == r
  {
    var db' := SweepDb(db, sweepAt, p);
    if r in db.rules && Selected(db.rules[r], ev, t2) {
      var id :| id in db.conts && db.conts[id].ruleId == r && db.conts[id].eventId == ev.id;
      if RowExpired(db.conts[id], sweepAt, p) {
        assert Missed(db, ev, t2, sweepAt, p, id);
      } else {
        assert id in db'.conts;
      }
    }
  }

  /** A re-delivery right after a sweep: harmless exactly if the sweep kept the event and every row still wanted. */
  lemma RedeliveryAfterSweep(db: Db, ev: Event, t: Instant, sweepAt: Instant, p: RetentionPolicy,
                             t2: Instant, mint: map<string, Mint>)
    requires PairsUnique(db.conts) && Settled(db, ev, t) && t <= t2
    requires MintOk(SweepDb(db, sweepAt, p), ev, t2, mint)
    ensures IngestDb(SweepDb(db, sweepAt, p), ev, t2, mint) == SweepDb(db, sweepAt, p) <==>
      && sweepAt - p.eventAge <= db.events[ev.id].timestamp
      && forall id :: !Missed(db, ev, t2, sweepAt, p, id)
  {
    hide *;
    IdleIngestIff(SweepDb(db, sweepAt, p), ev, t2, mint);
    SweepMissesNone(db, ev, t, sweepAt, p, t2);
    SweptEvents(db, sweepAt, p, ev.id);
  }

  lemma SweptEvents(db: Db, sweepAt: Instant, p: RetentionPolicy, e: string)
    ensures e in SweepDb(db, sweepAt, p).events <==>
      e in db.events && sweepAt - p.eventAge <= db.events[e].timestamp
  {
  }

  lemma SweepMissesNone(db: Db, ev: Event, t: Instant, sweepAt: Instant, p: RetentionPolicy, t2: Instant)
    requires PairsUnique(db.conts) && Settled(db, ev, t) && t <= t2
    ensures ev.id in db.events
    ensures Firing(SweepDb(db, sweepAt, p), ev, t2) == {} <==> forall id :: !Missed(db, ev, t2, sweepAt, p, id)
  {
    hide Firing, Fired, Selected, RowExpired, PairsUnique, SweepDb;
    forall r { SweepRearms(db, ev, t, sweepAt, p, t2, r); }
    if id :| Missed(db, ev, t2, sweepAt, p, id) {
      assert db.conts[id].ruleId in Firing(SweepDb(db, sweepAt, p), ev, t2);
    }
  }

  // ---------- Three ways a re-delivery is not a no-op ----------

  const PUSH_RULE := Rule("r", Selector("push", ""), ACTION_CONTINUE_SESSION, "s", "{{", "", false, false, None, 0)
  const PUSH := Event("e", "push", "", map[], 0)

  /** The rule's template does not render, so its row is finished at once. */
  function MintAs(id: string): map<string, Mint> { map[id := Mint("r", Err("unclosed action"))] }

  const PUSH_ROW := NewRow(PUSH_RULE, PUSH, 1, "c1", Err("unclosed action"))

  /** `ev` was delivered by one of the calls, and delivering it once more at `t` changes the tables. */
  ghost predicate ChangesAgain(ops: seq<Op>, ev: Event, t: Instant, mint: map<string, Mint>) {
    && Runs(EMPTY_DB, EMPTY_LEDGER, ops)
    && (exists k :: 0 <= k < |ops| && ops[k].OpIngest? && ops[k].ev == ev && ops[k].at <= t)
    && MintOk(FinalDb(EMPTY_DB, EMPTY_LEDGER, ops), ev, t, mint)
    && IngestDb(FinalDb(EMPTY_DB, EMPTY_LEDGER, ops), ev, t, mint) != FinalDb(EMPTY_DB, EMPTY_LEDGER, ops)
  }

  lemma ShowsChange(ops: seq<Op>, k: nat, db: Db, led: Ledger, t: Instant, mint: map<string, Mint>)
    requires Reaches(ops, db, led)
    requires k < |ops| && ops[k].OpIngest? && ops[k].ev == PUSH && ops[k].at <= t
    requires MintOk(db, PUSH, t, mint) && IngestDb(db, PUSH, t, mint) != db
    ensures ChangesAgain(ops, PUSH, t, mint)
  {
    hide Runs, FinalDb, FinalLedger, MintOk, IngestDb;
  }

  /** Where the rule is stored and has no row for the event, delivering it creates one. */
  lemma PushFires(db: Db, t: Instant, id: string)
    requires db.rules == map["r" := PUSH_RULE] && db.conts == map[]
    ensures Firing(db, PUSH, t) == {"r"} && MintOk(db, PUSH, t, MintAs(id))
    ensures RowsFor(db.rules, {"r"}, PUSH, t, MintAs(id))
         == map[id := NewRow(PUSH_RULE, PUSH, t, id, Err("unclosed action"))]
    ensures IngestDb(db, PUSH, t, MintAs(id)) != db
  {
    assert MintAs(id)[id].ruleId == "r" && Covered(MintAs(id), "r");
    assert id in IngestDb(db, PUSH, t, MintAs(id)).conts;
  }

  const ONE_RULE := map["r" := PUSH_RULE]
  const ONE_RULE_BOOKS := Ledger(map[], {}, ONE_RULE)
  const DELIVERED := EMPTY_DB.(events := map["e" := PUSH])

  lemma AddPushRule(db: Db)
    requires db.rules == map[]
    ensures OpOk(db, EMPTY_LEDGER, OpAddRule(PUSH_RULE))
    ensures ApplyOp(db, OpAddRule(PUSH_RULE)) == db.(rules := ONE_RULE)
    ensures ApplyLedger(db, EMPTY_LEDGER, OpAddRule(PUSH_RULE)) == ONE_RULE_BOOKS
  {
  }

  lemma DeliverFirst()
    ensures OpOk(EMPTY_DB, EMPTY_LEDGER, OpIngest(PUSH, 1, map[]))
    ensures ApplyOp(EMPTY_DB, OpIngest(PUSH, 1, map[])) == DELIVERED
    ensures ApplyLedger(EMPTY_DB, EMPTY_LEDGER, OpIngest(PUSH, 1, map[])) == EMPTY_LEDGER
  {
  }

  lemma DeliverToRule()
    ensures MintOk(EMPTY_DB.(rules := ONE_RULE), PUSH, 1, MintAs("c1"))
    ensures OpOk(EMPTY_DB.(rules := ONE_RULE), ONE_RULE_BOOKS, OpIngest(PUSH, 1, MintAs("c1")))
    ensures ApplyOp(EMPTY_DB.(rules := ONE_RULE), OpIngest(PUSH, 1, MintAs("c1")))
         == Db(map["e" := PUSH], ONE_RULE, map[], map["c1" := PUSH_ROW])
  {
    PushFires(EMPTY_DB.(rules := ONE_RULE), 1, "c1");
    hide MintOk, RowsFor, Firing;
  }

  lemma SweepRow(led: Ledger)
    ensures var db := Db(map["e" := PUSH], ONE_RULE, map[], map["c1" := PUSH_ROW]);
      var sweep := OpSweep(100, RetentionPolicy(1000, 10, 1000));
      OpOk(db, led, sweep) && ApplyOp(db, sweep) == db.(conts := map[])
  {
  }

  lemma SweepEvent()
    ensures OpOk(DELIVERED, EMPTY_LEDGER, OpSweep(100, RetentionPolicy(1000, 1000, 10)))
    ensures ApplyOp(DELIVERED, OpSweep(100, RetentionPolicy(1000, 1000, 10))) == EMPTY_DB
    ensures MintOk(EMPTY_DB, PUSH, 101, map[]) && IngestDb(EMPTY_DB, PUSH, 101, map[]) != EMPTY_DB
  {
    assert "e" in IngestDb(EMPTY_DB, PUSH, 101, map[]).events;
  }

  /** The rule's finished row is swept, and the rule fires a second time. */
  lemma SweptRowFiresAgain(add: Op, ingest: Op, sweep: Op)
    requires add == OpAddRule(PUSH_RULE) && ingest == OpIngest(PUSH, 1, MintAs("c1"))
    requires sweep == OpSweep(100, RetentionPolicy(1000, 10, 1000))
    ensures ChangesAgain([add, ingest, sweep], PUSH, 101, MintAs("c2"))
  {
    hide OpOk, ApplyOp, ApplyLedger, Runs, Reaches, ChangesAgain, MintOk, IngestDb, Firing, RowsFor, NewRow;
    DeliverToRule();
    var db1 := EMPTY_DB.(rules := ONE_RULE);
    var db2 := Db(map["e" := PUSH], ONE_RULE, map[], map["c1" := PUSH_ROW]);
    var led2 := ApplyLedger(db1, ONE_RULE_BOOKS, ingest);
    var db3, led3 := db2.(conts := map[]), ApplyLedger(db2, led2, sweep);
    ReachesStart();
    AddPushRule(EMPTY_DB);
    ReachesNext([], EMPTY_DB, EMPTY_LEDGER, add);
    assert [] + [add] == [add];
    ReachesNext([add], db1, ONE_RULE_BOOKS, ingest);
    SweepRow(led2);
    assert [add] + [ingest] == [add, ingest];
    ReachesNext([add, ingest], db2, led2, sweep);
    assert [add, ingest] + [sweep] == [add, ingest, sweep];
    PushFires(db3, 101, "c2");
    ShowsChange([add, ingest, sweep], 1, db3, led3, 101, MintAs("c2"));
  }

  /** Only the event is swept; delivering it again stores it again, though no rule fires. */
  lemma SweptEventReturns(ingest: Op, sweep: Op)
    requires ingest == OpIngest(PUSH, 1, map[]) && sweep == OpSweep(100, RetentionPolicy(1000, 1000, 10))
    ensures ChangesAgain([ingest, sweep], PUSH, 101, map[])
  {
    hide OpOk, ApplyOp, ApplyLedger, Runs, Reaches, ChangesAgain, MintOk, IngestDb, Firing, RowsFor, NewRow;
    ReachesStart();
    DeliverFirst();
    ReachesNext([], EMPTY_DB, EMPTY_LEDGER, ingest);
    SweepEvent();
    assert [] + [ingest] == [ingest];
    ReachesNext([ingest], DELIVERED, EMPTY_LEDGER, sweep);
    assert [ingest] + [sweep] == [ingest, sweep];
    ShowsChange([ingest, sweep], 0, EMPTY_DB, ApplyLedger(DELIVERED, EMPTY_LEDGER, sweep), 101, map[]);
  }

  /** A rule added after the first delivery fires on the second. */
  lemma NewRuleFires(ingest: Op, add: Op)
    requires ingest == OpIngest(PUSH, 1, map[]) && add == OpAddRule(PUSH_RULE)
    ensures ChangesAgain([ingest, add], PUSH, 101, MintAs("c1"))
  {
    hide OpOk, ApplyOp, ApplyLedger, Runs, Reaches, ChangesAgain, MintOk, IngestDb, Firing, RowsFor, NewRow;
    ReachesStart();
    DeliverFirst();
    ReachesNext([], EMPTY_DB, EMPTY_LEDGER, ingest);
    AddPushRule(DELIVERED);
    assert [] + [ingest] == [ingest];
    ReachesNext([ingest], DELIVERED, EMPTY_LEDGER, add);
    assert [ingest] + [add] == [ingest, add];
    PushFires(DELIVERED.(rules := ONE_RULE), 101, "c1");
    ShowsChange([ingest, add], 0, DELIVERED.(rules := ONE_RULE), ONE_RULE_BOOKS, 101, MintAs("c1"));
  }
}
