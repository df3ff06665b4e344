/**
 The durable state and the effect of every store call on it. A call is one SQL statement
 or one transaction on the single connection, so each is one atomic function of the state.
 */
module StoreModel {
  import opened Core
  import Lex

  datatype Db = Db(
    events: map<string, Event>,
    rules: map<string, Rule>,
    sessions: map<string, Session>,
    conts: map<string, Continuation>)

  // ---------- Queries ----------

  /** The FIFO order of a session's queue: created_at, then id. */
  predicate Before(a: Continuation, b: Continuation) {
    a.createdAt < b.createdAt || (a.createdAt == b.createdAt && Lex.Less(a.id, b.id))
  }

  lemma BeforeTransitive(a: Continuation, b: Continuation, c: Continuation)
    requires Before(a, b) && Before(b, c)
    ensures Before(a, c)
  {
    if a.createdAt == b.createdAt == c.createdAt {
      Lex.Transitive(a.id, b.id, c.id);
    }
  }

  lemma BeforeTotal(a: Continuation, b: Continuation)
    requires a.id != b.id
    ensures Before(a, b) <==> !Before(b, a)
  {
    Lex.Trichotomy(a.id, b.id);
  }

  predicate IsPending(db: Db, s: string, id: string) {
    id in db.conts && db.conts[id].sessionId == s && db.conts[id].state.Pending?
  }

  ghost predicate HasPending(db: Db, s: string) {
    exists id :: IsPending(db, s, id)
  }

  ghost predicate IsOldestPending(db: Db, s: string, id: string) {
    && IsPending(db, s, id)
    && forall j :: IsPending(db, s, j) && j != id ==> Before(db.conts[id], db.conts[j])
  }

  function PendingSessions(db: Db): (r: set<string>)
    ensures forall s :: s in r <==> HasPending(db, s)
  {
    var r := set id | id in db.conts && db.conts[id].state.Pending? :: db.conts[id].sessionId;
    assert forall s :: HasPending(db, s) ==> s in r by {
      forall s | HasPending(db, s) ensures s in r {
        ghost var id :| IsPending(db, s, id);
      }
    }
    assert forall s :: s in r ==> HasPending(db, s) by {
      forall s | s in r ensures HasPending(db, s) {
        ghost var id :| id in db.conts && db.conts[id].state.Pending? && db.conts[id].sessionId == s;
        assert IsPending(db, s, id);
      }
    }
    r
  }

  // ---------- Ingest ----------

  /** What is decided for one drawn continuation id: its rule, and the outcome of rendering the prompt. */
  datatype Mint = Mint(ruleId: string, rendered: Result<string>)

  /** The rule query's WHERE clause. */
  predicate Selected(r: Rule, ev: Event, now: Instant) {
    r.selector.Matches(ev) && r.Active(now)
  }

  /** Whether the UNIQUE(rule_id, event_id) constraint already has this pair. */
  predicate Fired(conts: map<string, Continuation>, ruleId: string, eventId: string) {
    exists id :: id in conts && conts[id].ruleId == ruleId && conts[id].eventId == eventId
  }

  /** The rules for which an ingest creates a continuation. */
  function Firing(db: Db, ev: Event, now: Instant): (fire: set<string>)
    ensures fire <= db.rules.Keys
  {
    set r | r in db.rules && Selected(db.rules[r], ev, now) && !Fired(db.conts, r, ev.id)
  }

  ghost predicate Covered(mint: map<string, Mint>, r: string) {
    exists id :: id in mint && mint[id].ruleId == r
  }

  /** Every firing rule gets its own, unused continuation id. */
  ghost predicate MintOk(db: Db, ev: Event, now: Instant, mint: map<string, Mint>) {
    && (forall r :: r in Firing(db, ev, now) ==> Covered(mint, r))
    && (forall id :: id in mint ==> id !in db.conts)
    && (forall i, j :: i in mint && j in mint && mint[i].ruleId == mint[j].ruleId ==> i == j)
  }

  /** The row inserted for one rule; a rendering error makes it failed from birth. */
  function NewRow(r: Rule, ev: Event, now: Instant, id: string, rendered: Result<string>): Continuation {
    match rendered
    case Ok(prompt) =>
      Continuation(id, r.id, ev.id, r.sessionId, prompt, r.tag, Pending, "", None, "", now, now)
    case Err(e) =>
      Continuation(id, r.id, ev.id, r.sessionId, "", r.tag, Failed, "", None,
                   "prompt template error: " + e, now, now)
  }

  /** The rows inserted for the rules in `fire`. */
  function RowsFor(rules: map<string, Rule>, fire: set<string>, ev: Event, now: Instant, mint: map<string, Mint>)
    : map<string, Continuation>
    requires fire <= rules.Keys
  {
    map id | id in mint && mint[id].ruleId in fire ::
      NewRow(rules[mint[id].ruleId], ev, now, id, mint[id].rendered)
  }

  /** One-shot rules among `fire` are consumed in the same transaction. */
  function Consume(rules: map<string, Rule>, fire: set<string>): map<string, Rule> {
    map r | r in rules :: if r in fire && rules[r].oneShot then rules[r].(consumed := true) else rules[r]
  }

  lemma ConsumeNothing(rules: map<string, Rule>, fire: set<string>)
    requires fire == {}
    ensures Consume(rules, fire) == rules
  {
  }

  lemma RowsForNothing(rules: map<string, Rule>, fire: set<string>, ev: Event, now: Instant, mint: map<string, Mint>,
                       conts: map<string, Continuation>)
    requires fire == {}
    ensures conts + RowsFor(rules, fire, ev, now, mint) == conts
  {
    hide NewRow;
    assert RowsFor(rules, fire, ev, now, mint).Keys == {};
  }

  ghost function IngestDb(db: Db, ev: Event, now: Instant, mint: map<string, Mint>): Db
    requires MintOk(db, ev, now, mint)
  {
    var fire := Firing(db, ev, now);
    Db(if ev.id in db.events then db.events else db.events[ev.id := ev],
       Consume(db.rules, fire),
       db.sessions,
       db.conts + RowsFor(db.rules, fire, ev, now, mint))
  }

  // ---------- Other statements ----------

  /** UPDATE ... SET state = 'running' WHERE id = ? AND state = 'pending' */
  function ClaimDb(db: Db, id: string, now: Instant): Db {
    if id in db.conts && db.conts[id].state.Pending?
    then db.(conts := db.conts[id := db.conts[id].(state := Running, updatedAt := now)])
    else db
  }

  function Finish(c: Continuation, v: Verdict, now: Instant): Continuation {
    c.(state := v.state, command := v.command, exitCode := v.exitCode,
       outputSummary := v.summary, updatedAt := now)
  }

  /** UPDATE ... WHERE id = ?, whatever the row's state is. */
  function RecordDb(db: Db, id: string, v: Verdict, now: Instant): Db {
    if id in db.conts then db.(conts := db.conts[id := Finish(db.conts[id], v, now)]) else db
  }

  function ResetRow(c: Continuation, now: Instant): Continuation {
    if c.state.Running? then c.(state := Pending, updatedAt := now) else c
  }

  function ResetDb(db: Db, now: Instant): Db {
    db.(conts := map id | id in db.conts :: ResetRow(db.conts[id], now))
  }

  function ManualRow(id: string, ruleId: string, eventId: string, s: string, prompt: string, now: Instant)
    : Continuation
  {
    Continuation(id, ruleId, eventId, s, prompt, "manual", Pending, "", None, "", now, now)
  }

  function InsertDb(db: Db, c: Continuation): Db {
    db.(conts := db.conts[c.id := c])
  }

  function AddRuleDb(db: Db, r: Rule): Db {
    db.(rules := db.rules[r.id := r])
  }

  function RemoveRuleDb(db: Db, id: string): Db {
    db.(rules := db.rules - {id})
  }

  /** Upsert: a new session without a state waits; re-registering keeps the stored state and created_at. */
  function RegisterDb(db: Db, s: Session, now: Instant): Db {
    var row := if s.sessionId in db.sessions
               then db.sessions[s.sessionId].(agent := s.agent, repoPath := s.repoPath, updatedAt := now)
               else s.(state := if s.state.Unset? then Waiting else s.state, createdAt := now, updatedAt := now);
    db.(sessions := db.sessions[s.sessionId := row])
  }

  function SetSessionDb(db: Db, id: string, st: SessionState, now: Instant): Db {
    if id in db.sessions
    then db.(sessions := db.sessions[id := db.sessions[id].(state := st, updatedAt := now)])
    else db
  }

  // ---------- Retention ----------

  /** The session is the target of an unconsumed, unexpired rule. */
  predicate Armed(rules: map<string, Rule>, s: string, now: Instant) {
    exists r :: r in rules && rules[r].sessionId == s && rules[r].Active(now)
  }

  predicate SessionExpired(db: Db, s: string, now: Instant, p: RetentionPolicy)
    requires s in db.sessions
  {
    && db.sessions[s].updatedAt < now - p.sessionIdle
    && !db.sessions[s].state.SessionRunning?
    && !Armed(db.rules, s, now)
  }

  predicate RowExpired(c: Continuation, now: Instant, p: RetentionPolicy) {
    c.state.Terminal() && c.updatedAt < now - p.continuationAge
  }

  function SweepDb(db: Db, now: Instant, p: RetentionPolicy): Db {
    Db(map e | e in db.events && !(db.events[e].timestamp < now - p.eventAge) :: db.events[e],
       db.rules,
       map s | s in db.sessions && !SessionExpired(db, s, now, p) :: db.sessions[s],
       map id | id in db.conts && !RowExpired(db.conts[id], now, p) :: db.conts[id])
  }

  // ---------- Operations as data, and the ledger of what ever happened ----------

  datatype Op =
    | OpNone
    | OpIngest(ev: Event, at: Instant, mint: map<string, Mint>)
    | OpClaim(id: string, at: Instant)
    | OpRecord(id: string, verdict: Verdict, at: Instant)
    | OpReset(at: Instant)
    | OpInsert(row: Continuation)
    | OpAddRule(rule: Rule)
    | OpRemoveRule(id: string)
    | OpRegister(session: Session, at: Instant)
    | OpSetSession(id: string, st: SessionState, at: Instant)
    | OpSweep(at: Instant, policy: RetentionPolicy)

  /** Every row and rule that ever existed, and the rows retention removed. */
  datatype Ledger = Ledger(
    created: map<string, Continuation>, swept: set<string>, rulesEver: map<string, Rule>)

  ghost predicate RuleIdUsed(led: Ledger, r: string) {
    r in led.rulesEver || exists id :: id in led.created && led.created[id].ruleId == r
  }

  /** What callers guarantee: an event has an id, and drawn ids were never used before. */
  ghost predicate OpOk(db: Db, led: Ledger, op: Op) {
    match op
    case OpIngest(ev, at, mint) =>
      && ev.id != ""
      && MintOk(db, ev, at, mint)
      && forall id :: id in mint ==> id !in led.created
    case OpInsert(row) =>
      && row.id !in led.created && row.id !in db.conts
      && !RuleIdUsed(led, row.ruleId)
      && row == ManualRow(row.id, row.ruleId, row.eventId, row.sessionId, row.prompt, row.createdAt)
    case OpAddRule(rule) => !RuleIdUsed(led, rule.id) && !rule.consumed
    case _ => true
  }

  ghost function ApplyOp(db: Db, op: Op): Db
    requires op.OpIngest? ==> MintOk(db, op.ev, op.at, op.mint)
  {
    match op
    case OpNone => db
    case OpIngest(ev, at, mint) => IngestDb(db, ev, at, mint)
    case OpClaim(id, at) => ClaimDb(db, id, at)
    case OpRecord(id, v, at) => RecordDb(db, id, v, at)
    case OpReset(at) => ResetDb(db, at)
    case OpInsert(row) => InsertDb(db, row)
    case OpAddRule(rule) => AddRuleDb(db, rule)
    case OpRemoveRule(id) => RemoveRuleDb(db, id)
    case OpRegister(s, at) => RegisterDb(db, s, at)
    case OpSetSession(id, st, at) => SetSessionDb(db, id, st, at)
    case OpSweep(at, p) => SweepDb(db, at, p)
  }

  /** The rows an operation creates. */
  ghost function NewRows(db: Db, op: Op): map<string, Continuation>
    requires op.OpIngest? ==> MintOk(db, op.ev, op.at, op.mint)
  {
    match op
    case OpIngest(ev, at, mint) => RowsFor(db.rules, Firing(db, ev, at), ev, at, mint)
    case OpInsert(row) => map[row.id := row]
    case _ => map[]
  }

  ghost function ApplyLedger(db: Db, led: Ledger, op: Op): Ledger
    requires op.OpIngest? ==> MintOk(db, op.ev, op.at, op.mint)
  {
    Ledger(led.created + NewRows(db, op),
           led.swept + (db.conts.Keys - ApplyOp(db, op).conts.Keys),
           if op.OpAddRule? then led.rulesEver[op.rule.id := op.rule] else led.rulesEver)
  }
}
