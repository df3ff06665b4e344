/**
 What every sequence of store calls keeps, whoever makes them: rows are conserved, work is
 never lost to retention, and a one-shot rule creates at most one continuation ever.
 */
module StoreLaws {
  import opened Core
  import opened StoreModel

  // ---------- Runs of store calls ----------

  ghost predicate Runs(db: Db, led: Ledger, ops: seq<Op>)
    decreases |ops|
  {
    ops == [] ||
    (OpOk(db, led, ops[0]) && Runs(ApplyOp(db, ops[0]), ApplyLedger(db, led, ops[0]), ops[1..]))
  }

  ghost function FinalDb(db: Db, led: Ledger, ops: seq<Op>): Db
    requires Runs(db, led, ops)
    decreases |ops|
  {
    if ops == [] then db
    else FinalDb(ApplyOp(db, ops[0]), ApplyLedger(db, led, ops[0]), ops[1..])
  }

  ghost function FinalLedger(db: Db, led: Ledger, ops: seq<Op>): Ledger
    requires Runs(db, led, ops)
    decreases |ops|
  {
    if ops == [] then led
    else FinalLedger(ApplyOp(db, ops[0]), ApplyLedger(db, led, ops[0]), ops[1..])
  }

  const EMPTY_DB := Db(map[], map[], map[], map[])
  const EMPTY_LEDGER := Ledger(map[], {}, map[])

  lemma {:induction false} RunsThen(db: Db, led: Ledger, ops: seq<Op>, op: Op)
    requires Runs(db, led, ops) && OpOk(FinalDb(db, led, ops), FinalLedger(db, led, ops), op)
    ensures Runs(db, led, ops + [op])
    ensures FinalDb(db, led, ops + [op]) == ApplyOp(FinalDb(db, led, ops), op)
    ensures FinalLedger(db, led, ops + [op]) == ApplyLedger(FinalDb(db, led, ops), FinalLedger(db, led, ops), op)
    decreases |ops|
  {
    hide ApplyOp, ApplyLedger;
    if ops == [] {
      assert (ops + [op])[1..] == [];
    } else {
      assert (ops + [op])[1..] == ops[1..] + [op];
      RunsThen(ApplyOp(db, ops[0]), ApplyLedger(db, led, ops[0]), ops[1..], op);
    }
  }

  /** From the empty store, these calls lead to these tables and books. */
  ghost predicate Reaches(ops: seq<Op>, db: Db, led: Ledger) {
    && Runs(EMPTY_DB, EMPTY_LEDGER, ops)
    && FinalDb(EMPTY_DB, EMPTY_LEDGER, ops) == db && FinalLedger(EMPTY_DB, EMPTY_LEDGER, ops) == led
  }

  lemma ReachesStart()
    ensures Reaches([], EMPTY_DB, EMPTY_LEDGER)
  {
  }

  lemma ReachesNext(ops: seq<Op>, db: Db, led: Ledger, op: Op)
    requires Reaches(ops, db, led) && OpOk(db, led, op)
    ensures Reaches(ops + [op], ApplyOp(db, op), ApplyLedger(db, led, op))
  {
    hide Runs, FinalDb, FinalLedger, OpOk, ApplyOp, ApplyLedger;
    RunsThen(EMPTY_DB, EMPTY_LEDGER, ops, op);
  }

  // ---------- The invariant of the tables ----------

  ghost predicate RowsKept(db: Db, led: Ledger) {
    && (forall id :: id in db.conts ==>
          db.conts[id].id == id && id in led.created && SameRow(led.created[id], db.conts[id]))
    && (forall id :: id in led.created ==> led.created[id].id == id)
    && led.created.Keys == db.conts.Keys + led.swept
    && db.conts.Keys !! led.swept
  }

  predicate SameRule(a: Rule, b: Rule) {
    a == b.(consumed := a.consumed)
  }

  ghost predicate RulesKept(db: Db, led: Ledger) {
    forall r :: r in db.rules ==> RuleKept(db, led, r)
  }

  /** An unconsumed one-shot rule has no creation in its history. */
  ghost predicate OneShotFresh(db: Db, led: Ledger) {
    forall r, id :: r in db.rules && db.rules[r].oneShot && !db.rules[r].consumed && id in led.created
      ==> led.created[id].ruleId != r
  }

  ghost predicate OneShotOnce(led: Ledger) {
    forall i, j :: i in led.created && j in led.created
      && led.created[i].ruleId == led.created[j].ruleId
      && led.created[i].ruleId in led.rulesEver && led.rulesEver[led.created[i].ruleId].oneShot
      ==> i == j
  }

  /** The UNIQUE(rule_id, event_id) constraint. */
  ghost predicate PairsUnique(conts: map<string, Continuation>) {
    forall i, j ::
      i in conts && j in conts && conts[i].ruleId == conts[j].ruleId && conts[i].eventId == conts[j].eventId
      ==> i == j
  }

  ghost predicate StoreInv(db: Db, led: Ledger) {
    RowsKept(db, led) && RulesKept(db, led) && OneShotFresh(db, led) && OneShotOnce(led) && PairsUnique(db.conts)
  }

  // ---------- One call ----------

  lemma IngestRowsAfter(db: Db, ev: Event, at: Instant, mint: map<string, Mint>)
    requires MintOk(db, ev, at, mint)
    ensures var rows := RowsFor(db.rules, Firing(db, ev, at), ev, at, mint);
      && IngestDb(db, ev, at, mint).conts == db.conts + rows
      && (forall id :: id in rows ==> id in mint && id !in db.conts && rows[id].id == id)
  {
    hide Firing, Covered, Consume;
  }

  /** A row the call added to the table for rule `r`. */
  predicate Added(db: Db, db': Db, r: string, id: string) {
    id in db'.conts && id !in db.conts && db'.conts[id].ruleId == r
  }

  /** The row says what its rule and the outcome of rendering call for. */
  predicate Carries(c: Continuation, r: Rule, ev: Event, now: Instant, rendered: Result<string>) {
    && c.ruleId == r.id && c.eventId == ev.id && c.sessionId == r.sessionId && c.tag == r.tag
    && c.createdAt == now && c.updatedAt == now && c.command == "" && c.exitCode == None
    && (rendered.Ok? ==> c.state == Pending && c.prompt == rendered.value && c.outputSummary == "")
    && (rendered.Err? ==>
          c.state == Failed && c.prompt == "" && c.outputSummary == "prompt template error: " + rendered.error)
  }

  lemma RowCarries(rules: map<string, Rule>, fire: set<string>, ev: Event, at: Instant, mint: map<string, Mint>,
                   id: string)
    requires fire <= rules.Keys && (forall r :: r in rules ==> rules[r].id == r)
    requires id in RowsFor(rules, fire, ev, at, mint)
    ensures var c := RowsFor(rules, fire, ev, at, mint)[id];
      && c.id == id && id in mint && mint[id].ruleId == c.ruleId && c.ruleId in fire
      && Carries(c, rules[c.ruleId], ev, at, mint[id].rendered)
  {
  }

  /** Every row an ingest adds carries its rule's session and label and the rendered prompt, or the rendering error. */
  lemma AddedRowsCarry(db: Db, ev: Event, at: Instant, mint: map<string, Mint>, id: string)
    requires MintOk(db, ev, at, mint) && forall r :: r in db.rules ==> db.rules[r].id == r
    requires id in IngestDb(db, ev, at, mint).conts && id !in db.conts
    ensures var c := IngestDb(db, ev, at, mint).conts[id];
      && c.id == id && id in mint && mint[id].ruleId == c.ruleId && c.ruleId in Firing(db, ev, at)
      && Carries(c, db.rules[c.ruleId], ev, at, mint[id].rendered)
  {
    hide IngestDb, MintOk, RowsFor, Firing, Carries;
    IngestRowsAfter(db, ev, at, mint);
    RowCarries(db.rules, Firing(db, ev, at), ev, at, mint, id);
  }

  lemma IngestConsumesExactly(db: Db, ev: Event, at: Instant, mint: map<string, Mint>, r: string)
    requires MintOk(db, ev, at, mint)
    ensures var db' := IngestDb(db, ev, at, mint);
      && (r in db'.rules <==> r in db.rules)
      && (r in db.rules ==>
            db'.rules[r] ==
              db.rules[r].(consumed := db.rules[r].consumed || (r in Firing(db, ev, at) && db.rules[r].oneShot)))
      && db'.sessions == db.sessions
  {
    hide MintOk, Firing, RowsFor;
  }

  lemma IngestAdds(db: Db, led: Ledger, ev: Event, at: Instant, mint: map<string, Mint>, id: string)
    requires RulesKept(db, led) && MintOk(db, ev, at, mint)
    ensures var db', fire := IngestDb(db, ev, at, mint), Firing(db, ev, at);
      && (id in db.conts ==> id in db'.conts && db'.conts[id] == db.conts[id])
      && (id in db'.conts && id !in db.conts ==>
            id in mint && db'.conts[id].ruleId == mint[id].ruleId && mint[id].ruleId in fire
            && db'.conts[id].eventId == ev.id)
      && (id in mint && mint[id].ruleId in fire ==> Added(db, db', mint[id].ruleId, id))
  {
    hide Consume, Fired, Selected;
  }

  lemma IngestAddsOnce(db: Db, led: Ledger, ev: Event, at: Instant, mint: map<string, Mint>, r: string)
    requires RulesKept(db, led) && MintOk(db, ev, at, mint)
    ensures var db' := IngestDb(db, ev, at, mint);
      && ((exists id :: Added(db, db', r, id)) <==> r in Firing(db, ev, at))
      && (forall i, j :: Added(db, db', r, i) && Added(db, db', r, j) ==> i == j)
      && (forall id :: Added(db, db', r, id) ==> db'.conts[id].eventId == ev.id)
      && (forall id :: id in db.conts ==> id in db'.conts && db'.conts[id] == db.conts[id])
  {
    hide IngestDb, Firing, RulesKept;
    forall id { IngestAdds(db, led, ev, at, mint, id); }
    if r in Firing(db, ev, at) {
      assert Covered(mint, r);
      var id :| id in mint && mint[id].ruleId == r;
      assert Added(db, IngestDb(db, ev, at, mint), r, id);
    }
  }

  /** An event is stored once, as first delivered. */
  lemma IngestEvents(db: Db, ev: Event, at: Instant, mint: map<string, Mint>)
    requires MintOk(db, ev, at, mint)
    ensures IngestDb(db, ev, at, mint).events == if ev.id in db.events then db.events else db.events[ev.id := ev]
  {
    hide MintOk, Firing, RowsFor, Consume;
  }

  /** The rule is active and selects the event, and has no row for it yet. */
  ghost predicate Fires(db: Db, ev: Event, at: Instant, r: string) {
    && r in db.rules && db.rules[r].selector.kind == ev.kind
    && (db.rules[r].selector.source == "" || db.rules[r].selector.source == ev.source)
    && !db.rules[r].consumed && (db.rules[r].expiresAt.None? || at < db.rules[r].expiresAt.value)
    && !exists id :: id in db.conts && db.conts[id].ruleId == r && db.conts[id].eventId == ev.id
  }

  lemma FiringMeans(db: Db, ev: Event, at: Instant, r: string)
    ensures r in Firing(db, ev, at) <==> Fires(db, ev, at, r)
  {
  }

  /**
   An ingest adds exactly one row for every active matching rule that has none for the event yet,
   and consumes exactly the one-shot rules among these; the rest of the tables stays as it was.
   */
  lemma IngestExactly(db: Db, led: Ledger, ev: Event, at: Instant, mint: map<string, Mint>, r: string)
    requires RulesKept(db, led) && MintOk(db, ev, at, mint)
    ensures var db' := IngestDb(db, ev, at, mint);
      && ((exists id :: Added(db, db', r, id)) <==> Fires(db, ev, at, r))
      && (forall i, j :: Added(db, db', r, i) && Added(db, db', r, j) ==> i == j)
      && (forall id :: Added(db, db', r, id) ==> db'.conts[id].eventId == ev.id)
      && (forall id :: id in db.conts ==> id in db'.conts && db'.conts[id] == db.conts[id])
      && (r in db'.rules <==> r in db.rules)
      && (r in db.rules ==>
            db'.rules[r] ==
              db.rules[r].(consumed := db.rules[r].consumed || (Fires(db, ev, at, r) && db.rules[r].oneShot)))
      && db'.sessions == db.sessions
      && (forall e :: e in db'.events <==> e in db.events || e == ev.id)
      && (forall e :: e in db.events ==> db'.events[e] == db.events[e])
      && (ev.id !in db.events ==> db'.events[ev.id] == ev)
  {
    hide IngestDb, RulesKept, Added, MintOk, Firing, Fires;
    IngestEvents(db, ev, at, mint);
    FiringMeans(db, ev, at, r);
    IngestConsumesExactly(db, ev, at, mint, r);
    IngestAddsOnce(db, led, ev, at, mint, r);
  }

  /** What a call does to one row: `row` is the one it inserts under this id, if any. */
  ghost predicate RowStep(db: Db, led: Ledger, db': Db, rows: map<string, Continuation>, id: string) {
    && (id in db'.conts ==>
          || (id in db.conts && SameRow(db.conts[id], db'.conts[id]))
          || (id in rows && db'.conts[id] == rows[id]))
    && (id in db.conts && !db.conts[id].state.Terminal() ==> id in db'.conts)
    && (id in rows ==> id !in led.created && id !in db.conts && id in db'.conts && rows[id].id == id)
  }

  lemma IngestRow(db: Db, led: Ledger, op: Op, id: string)
    requires OpOk(db, led, op) && op.OpIngest?
    ensures RowStep(db, led, ApplyOp(db, op), NewRows(db, op), id)
  {
    hide OpOk, ApplyOp, NewRows, MintOk, Firing, RowsFor, IngestDb;
    IngestCall(db, led, op);
    IngestRowsAfter(db, op.ev, op.at, op.mint);
  }

  lemma IngestCall(db: Db, led: Ledger, op: Op)
    requires OpOk(db, led, op) && op.OpIngest?
    ensures MintOk(db, op.ev, op.at, op.mint) && forall id :: id in op.mint ==> id !in led.created
    ensures ApplyOp(db, op) == IngestDb(db, op.ev, op.at, op.mint)
    ensures NewRows(db, op) == RowsFor(db.rules, Firing(db, op.ev, op.at), op.ev, op.at, op.mint)
  {
    hide MintOk, Firing, RowsFor, IngestDb;
  }

  lemma SweptRow(db: Db, led: Ledger, op: Op, id: string)
    requires op.OpSweep?
    ensures RowStep(db, led, ApplyOp(db, op), NewRows(db, op), id)
  {
  }

  lemma UpdatedRow(db: Db, led: Ledger, op: Op, id: string)
    requires op.OpClaim? || op.OpRecord? || op.OpReset?
    ensures RowStep(db, led, ApplyOp(db, op), NewRows(db, op), id)
  {
  }

  lemma OtherRow(db: Db, led: Ledger, op: Op, id: string)
    requires OpOk(db, led, op) && !op.OpIngest? && !op.OpSweep? && !op.OpClaim? && !op.OpRecord? && !op.OpReset?
    ensures RowStep(db, led, ApplyOp(db, op), NewRows(db, op), id)
  {
  }

  /** Apart from the rows it inserts and the rows retention deletes, a call keeps the stored rows' identity. */
  lemma RowAfter(db: Db, led: Ledger, op: Op, id: string)
    requires RowsKept(db, led) && OpOk(db, led, op)
    ensures id in ApplyOp(db, op).conts ==>
      || (id in db.conts && SameRow(db.conts[id], ApplyOp(db, op).conts[id]))
      || (id in NewRows(db, op) && ApplyOp(db, op).conts[id] == NewRows(db, op)[id])
    ensures id in db.conts && !db.conts[id].state.Terminal() ==> id in ApplyOp(db, op).conts
    ensures id in NewRows(db, op) ==>
      id !in led.created && id !in db.conts && id in ApplyOp(db, op).conts && NewRows(db, op)[id].id == id
  {
    hide OpOk, ApplyOp, NewRows, RowsKept, SameRow;
    match op
    case OpIngest(_, _, _) => IngestRow(db, led, op, id);
    case OpSweep(_, _) => SweptRow(db, led, op, id);
    case OpClaim(_, _) => UpdatedRow(db, led, op, id);
    case OpRecord(_, _, _) => UpdatedRow(db, led, op, id);
    case OpReset(_) => UpdatedRow(db, led, op, id);
    case _ => OtherRow(db, led, op, id);
  }

  lemma RowsAfter(db: Db, led: Ledger, op: Op)
    requires RowsKept(db, led) && OpOk(db, led, op)
    ensures forall id :: id in ApplyOp(db, op).conts ==>
      || (id in db.conts && SameRow(db.conts[id], ApplyOp(db, op).conts[id]))
      || (id in NewRows(db, op) && ApplyOp(db, op).conts[id] == NewRows(db, op)[id])
    ensures forall id :: id in db.conts && !db.conts[id].state.Terminal() ==> id in ApplyOp(db, op).conts
    ensures forall id :: id in NewRows(db, op) ==>
      id !in led.created && id !in db.conts && id in ApplyOp(db, op).conts && NewRows(db, op)[id].id == id
  {
    hide OpOk, ApplyOp, NewRows, RowsKept, SameRow;
    forall id { RowAfter(db, led, op, id); }
  }

  lemma RowsKeptByOp(db: Db, led: Ledger, op: Op)
    requires RowsKept(db, led) && OpOk(db, led, op)
    ensures RowsKept(ApplyOp(db, op), ApplyLedger(db, led, op))
  {
    RowsAfter(db, led, op);
    RowsKeptFrom(db, led, NewRows(db, op), ApplyOp(db, op));
    hide RowsKept, ApplyOp, NewRows, OpOk;
  }

  lemma RowsKeptFrom(db: Db, led: Ledger, rows: map<string, Continuation>, db': Db)
    requires RowsKept(db, led)
    requires forall id :: id in db'.conts ==>
      || (id in db.conts && SameRow(db.conts[id], db'.conts[id]))
      || (id in rows && db'.conts[id] == rows[id])
    requires forall id :: id in rows ==>
      id !in led.created && id !in db.conts && id in db'.conts && rows[id].id == id
    ensures forall rules ::
      RowsKept(db', Ledger(led.created + rows, led.swept + (db.conts.Keys - db'.conts.Keys), rules))
  {
    BalanceKept(db.conts, led, rows, db'.conts);
  }

  /** The books balance when every new row is entered and every missing row is written off. */
  lemma BalanceKept(conts: map<string, Continuation>, led: Ledger, rows: map<string, Continuation>,
                    conts': map<string, Continuation>)
    requires led.created.Keys == conts.Keys + led.swept && conts.Keys !! led.swept
    requires forall id :: id in conts' ==> id in conts || id in rows
    requires forall id :: id in rows ==> id !in led.created && id in conts'
    ensures (led.created + rows).Keys == conts'.Keys + (led.swept + (conts.Keys - conts'.Keys))
    ensures conts'.Keys !! (led.swept + (conts.Keys - conts'.Keys))
  {
  }

  lemma NewRowRule(db: Db, led: Ledger, op: Op, id: string)
    requires RulesKept(db, led) && OpOk(db, led, op) && id in NewRows(db, op)
    ensures op.OpInsert? || (op.OpIngest? && NewRows(db, op)[id].eventId == op.ev.id
      && NewRows(db, op)[id].ruleId in Firing(db, op.ev, op.at)
      && id in op.mint && op.mint[id].ruleId == NewRows(db, op)[id].ruleId)
    ensures op.OpInsert? ==> !RuleIdUsed(led, NewRows(db, op)[id].ruleId)
  {
  }

  predicate RuleKept(db: Db, led: Ledger, r: string) {
    r in db.rules ==> db.rules[r].id == r && r in led.rulesEver && SameRule(led.rulesEver[r], db.rules[r])
  }

  lemma RuleKeptByOp(db: Db, led: Ledger, op: Op, r: string)
    requires RuleKept(db, led, r) && OpOk(db, led, op)
    ensures RuleKept(ApplyOp(db, op), ApplyLedger(db, led, op), r)
  {
    hide MintOk, Firing, NewRows;
  }

  lemma RulesKeptByOp(db: Db, led: Ledger, op: Op)
    requires RulesKept(db, led) && OpOk(db, led, op)
    ensures RulesKept(ApplyOp(db, op), ApplyLedger(db, led, op))
  {
    hide ApplyOp, ApplyLedger, SameRule;
    forall r ensures RuleKept(ApplyOp(db, op), ApplyLedger(db, led, op), r) {
      assert RuleKept(db, led, r);
      RuleKeptByOp(db, led, op, r);
    }
  }

  lemma PairsUniqueByOp(db: Db, led: Ledger, op: Op)
    requires StoreInv(db, led) && OpOk(db, led, op)
    ensures PairsUnique(ApplyOp(db, op).conts)
  {
    hide OneShotFresh, OneShotOnce;
    RowsAfter(db, led, op);
    var rows := NewRows(db, op);
    var conts' := ApplyOp(db, op).conts;
    forall i, j | i in conts' && j in conts' && conts'[i].ruleId == conts'[j].ruleId
      && conts'[i].eventId == conts'[j].eventId
      ensures i == j
    {
      if i in rows { NewRowRule(db, led, op, i); }
      if j in rows { NewRowRule(db, led, op, j); }
    }
  }

  /** The rule a new row belongs to is consumed with it, if it is one-shot. */
  lemma FiredIsConsumed(db: Db, led: Ledger, op: Op, r: string, id: string)
    requires RulesKept(db, led) && OpOk(db, led, op) && id in NewRows(db, op) && r in ApplyOp(db, op).rules
    requires ApplyOp(db, op).rules[r].oneShot && !ApplyOp(db, op).rules[r].consumed
    ensures NewRows(db, op)[id].ruleId != r
  {
    NewRowRule(db, led, op, id);
    hide NewRows, MintOk, Firing, RowsFor;
  }

  lemma WasUnconsumed(db: Db, led: Ledger, op: Op, r: string)
    requires OpOk(db, led, op) && r in ApplyOp(db, op).rules
    requires ApplyOp(db, op).rules[r].oneShot && !ApplyOp(db, op).rules[r].consumed
    ensures !RuleIdUsed(led, r) || (r in db.rules && db.rules[r].oneShot && !db.rules[r].consumed)
  {
    hide MintOk, Firing, RowsFor;
  }

  lemma OneShotFreshByOp(db: Db, led: Ledger, op: Op)
    requires StoreInv(db, led) && OpOk(db, led, op)
    ensures OneShotFresh(ApplyOp(db, op), ApplyLedger(db, led, op))
  {
    hide RowsKept, OneShotOnce, PairsUnique;
    var db', led' := ApplyOp(db, op), ApplyLedger(db, led, op);
    forall r, id | r in db'.rules && db'.rules[r].oneShot && !db'.rules[r].consumed && id in led'.created
      ensures led'.created[id].ruleId != r
    {
      if id in NewRows(db, op) { FiredIsConsumed(db, led, op, r, id); } else { WasUnconsumed(db, led, op, r); }
    }
  }

  lemma OneShotOnceByOp(db: Db, led: Ledger, op: Op)
    requires StoreInv(db, led) && OpOk(db, led, op)
    ensures OneShotOnce(ApplyLedger(db, led, op))
  {
    var rows, led' := NewRows(db, op), ApplyLedger(db, led, op);
    forall i, j | i in led'.created && j in led'.created
      && led'.created[i].ruleId == led'.created[j].ruleId
      && led'.created[i].ruleId in led'.rulesEver && led'.rulesEver[led'.created[i].ruleId].oneShot
      ensures i == j
    {
      if i in rows { NewRowRule(db, led, op, i); }
      if j in rows { NewRowRule(db, led, op, j); }
    }
  }

  lemma StoreInvByOp(db: Db, led: Ledger, op: Op)
    requires StoreInv(db, led) && OpOk(db, led, op)
    ensures StoreInv(ApplyOp(db, op), ApplyLedger(db, led, op))
  {
    hide RowsKept, RulesKept, OneShotFresh, OneShotOnce, PairsUnique, ApplyOp, ApplyLedger, OpOk;
    RowsKeptByOp(db, led, op);
    RulesKeptByOp(db, led, op);
    PairsUniqueByOp(db, led, op);
    OneShotFreshByOp(db, led, op);
    OneShotOnceByOp(db, led, op);
  }

  /** A call that neither adds nor deletes rows leaves the books as they are. */
  lemma SameBooks(db: Db, led: Ledger, op: Op)
    requires OpOk(db, led, op) && (op.OpNone? || op.OpClaim? || op.OpSetSession? || op.OpRecord?)
    ensures ApplyLedger(db, led, op) == led
  {
    assert db.conts.Keys - ApplyOp(db, op).conts.Keys == {};
    assert led.created + map[] == led.created && led.swept + {} == led.swept;
  }

  // ---------- Whole runs ----------

  lemma {:induction false} StoreInvAlways(db: Db, led: Ledger, ops: seq<Op>)
    requires StoreInv(db, led) && Runs(db, led, ops)
    ensures StoreInv(FinalDb(db, led, ops), FinalLedger(db, led, ops))
    decreases |ops|
  {
    if ops == [] {
    } else {
      StoreInvByOp(db, led, ops[0]);
      StoreInvAlways(ApplyOp(db, ops[0]), ApplyLedger(db, led, ops[0]), ops[1..]);
    }
  }

  /** Over any run of store calls, a one-shot rule creates at most one continuation in total. */
  lemma OneShotAtMostOnce(ops: seq<Op>, i: string, j: string)
    requires Runs(EMPTY_DB, EMPTY_LEDGER, ops)
    requires var led := FinalLedger(EMPTY_DB, EMPTY_LEDGER, ops);
      && i in led.created && j in led.created
      && led.created[i].ruleId == led.created[j].ruleId
      && led.created[i].ruleId in led.rulesEver
      && led.rulesEver[led.created[i].ruleId].oneShot
    ensures i == j
  {
    StoreInvAlways(EMPTY_DB, EMPTY_LEDGER, ops);
  }

  /** Rows created = rows stored + rows swept, with nothing counted twice. */
  lemma RowsConserved(ops: seq<Op>)
    requires Runs(EMPTY_DB, EMPTY_LEDGER, ops)
    ensures var db, led := FinalDb(EMPTY_DB, EMPTY_LEDGER, ops), FinalLedger(EMPTY_DB, EMPTY_LEDGER, ops);
      && led.created.Keys == db.conts.Keys + led.swept
      && |led.created| == |db.conts| + |led.swept|
  {
    StoreInvAlways(EMPTY_DB, EMPTY_LEDGER, ops);
    var db, led := FinalDb(EMPTY_DB, EMPTY_LEDGER, ops), FinalLedger(EMPTY_DB, EMPTY_LEDGER, ops);
    assert |led.created| == |led.created.Keys| && |db.conts| == |db.conts.Keys|;
  }
}
