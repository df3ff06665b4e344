/**
 Workflow files: validation and default labels, compilation to one-shot rules, and what those
 rules then mean: each step fires exactly once, on the first event after it that it selects.
 */
module Workflow {
  import opened Core
  import opened StoreModel
  import opened StoreLaws
  import Decimal
  import Store

  datatype Step = Step(tag: string, on: Selector, prompt: string)
  datatype Workflow = Workflow(session: string, agent: string, repo: string, steps: seq<Step>)

  // ---------- Validation ----------

  function DefaultTag(i: nat): string { "step-" + Decimal.FormatNat(i + 1) }

  function TagOf(steps: seq<Step>, i: nat): string
    requires i < |steps|
  {
    if steps[i].tag == "" then DefaultTag(i) else steps[i].tag
  }

  function WithTags(w: Workflow): Workflow {
    w.(steps := seq(|w.steps|, i requires 0 <= i < |w.steps| => w.steps[i].(tag := TagOf(w.steps, i))))
  }

  predicate StepOk(s: Step, validTemplate: string -> bool) {
    s.on.kind != "" && s.prompt != "" && validTemplate(s.prompt)
  }

  /** The first `n` steps are complete and their labels, defaulted where missing, differ. */
  ghost predicate GoodSteps(w: Workflow, n: nat, validTemplate: string -> bool)
    requires n <= |w.steps|
  {
    && (forall i :: 0 <= i < n ==> StepOk(w.steps[i], validTemplate))
    && (forall i, j :: 0 <= i < j < n ==> TagOf(w.steps, i) != TagOf(w.steps, j))
  }

  ghost predicate Acceptable(w: Workflow, validTemplate: string -> bool) {
    w.session != "" && w.agent != "" && w.steps != [] && GoodSteps(w, |w.steps|, validTemplate)
  }

  /** Accepts exactly the acceptable documents, filling in the missing labels. */
  method Parse(decoded: Workflow, validTemplate: string -> bool) returns (res: Result<Workflow>)
    ensures res.Ok? <==> Acceptable(decoded, validTemplate)
    ensures res.Ok? ==> res.value == WithTags(decoded)
    ensures decoded.session == "" ==> res == Err("workflow: session is required")
    ensures decoded.session != "" && decoded.agent == "" ==> res == Err("workflow: agent is required")
    ensures decoded.session != "" && decoded.agent != "" && decoded.steps == [] ==>
      res == Err("workflow: at least one step is required")
    ensures res.Ok? ==> decoded.session != "" && decoded.agent != "" && decoded.steps != []
    ensures res.Ok? ==> forall i :: 0 <= i < |decoded.steps| ==>
      var s := decoded.steps[i]; s.on.kind != "" && s.prompt != "" && validTemplate(s.prompt)
    ensures res.Ok? ==>
      && res.value.session == decoded.session && res.value.agent == decoded.agent && res.value.repo == decoded.repo
      && |res.value.steps| == |decoded.steps|
      && (forall i :: 0 <= i < |decoded.steps| ==> var s := decoded.steps[i];
            res.value.steps[i] ==
              Step(if s.tag == "" then "step-" + Decimal.FormatNat(i + 1) else s.tag, s.on, s.prompt))
      && (forall i, j :: 0 <= i < j < |decoded.steps| ==> res.value.steps[i].tag != res.value.steps[j].tag)
    ensures res.Err? ==>
      || decoded.session == "" || decoded.agent == "" || decoded.steps == []
      || (exists i :: 0 <= i < |decoded.steps| && var s := decoded.steps[i];
            s.on.kind == "" || s.prompt == "" || !validTemplate(s.prompt))
      || (exists i, j :: 0 <= i < j < |decoded.steps| && TagOf(decoded.steps, i) == TagOf(decoded.steps, j))
  {
    var w := decoded;
    if w.session == "" { return Err("workflow: session is required"); }
    if w.agent == "" { return Err("workflow: agent is required"); }
    if |w.steps| == 0 { return Err("workflow: at least one step is required"); }
    var seen: set<string> := {};
    var i := 0;
    while i < |w.steps|
      invariant i <= |w.steps| == |decoded.steps|
      invariant w == decoded.(steps := w.steps)
      invariant forall j :: 0 <= j < i ==> w.steps[j] == decoded.steps[j].(tag := TagOf(decoded.steps, j))
      invariant forall j :: i <= j < |w.steps| ==> w.steps[j] == decoded.steps[j]
      invariant seen == set j | 0 <= j < i :: TagOf(decoded.steps, j)
      invariant GoodSteps(decoded, i, validTemplate)
    {
      var s := w.steps[i];
      if s.tag == "" {
        s := s.(tag := DefaultTag(i));
        w := w.(steps := w.steps[i := s]);
      }
      assert s.tag == TagOf(decoded.steps, i);
      if s.tag in seen {
        assert !GoodSteps(decoded, |decoded.steps|, validTemplate);
        return Err("workflow: duplicate label " + s.tag);
      }
      seen := seen + {s.tag};
      if s.on.kind == "" { return Err("workflow: step " + s.tag + ": on.type is required"); }
      if s.prompt == "" { return Err("workflow: step " + s.tag + ": prompt is required"); }
      if !validTemplate(s.prompt) { return Err("workflow: step " + s.tag + ": bad prompt template"); }
      i := i + 1;
    }
    assert w.steps == WithTags(decoded).steps;
    res := Ok(w);
  }

  /** Default labels never collide with each other: a document without labels is never refused for them. */
  lemma DefaultTagsDiffer(i: nat, j: nat)
    requires DefaultTag(i) == DefaultTag(j)
    ensures i == j
  {
    assert DefaultTag(i)[5..] == Decimal.FormatNat(i + 1);
    assert DefaultTag(j)[5..] == Decimal.FormatNat(j + 1);
    Decimal.FormatNatInjective(i + 1, j + 1);
  }

  /** Labels of an accepted workflow tell its steps apart. */
  lemma TagsNameSteps(w: Workflow, validTemplate: string -> bool, i: nat, j: nat)
    requires Acceptable(w, validTemplate) && i < |w.steps| && j < |w.steps|
    ensures TagOf(w.steps, i) == TagOf(w.steps, j) ==> i == j
  {
  }

  // ---------- Compilation ----------

  function CompileStep(w: Workflow, s: Step): Rule {
    Rule("", s.on, ACTION_CONTINUE_SESSION, w.session, s.prompt, s.tag, true, false, None, 0)
  }

  function Rules(w: Workflow): seq<Rule> {
    seq(|w.steps|, i requires 0 <= i < |w.steps| => CompileStep(w, w.steps[i]))
  }

  // ---------- What a compiled rule does ----------

  predicate Hits(op: Op, sel: Selector) { op.OpIngest? && sel.Matches(op.ev) }

  /** The position of the first ingest the selector matches, or the length if there is none. */
  function FirstHit(ops: seq<Op>, sel: Selector): (k: nat)
    ensures k <= |ops|
    ensures forall j :: 0 <= j < k ==> !Hits(ops[j], sel)
    ensures k < |ops| ==> Hits(ops[k], sel)
  {
    if ops == [] || Hits(ops[0], sel) then 0 else 1 + FirstHit(ops[1..], sel)
  }

  /** The rule is in place, unconsumed, without expiry, and has never created anything. */
  ghost predicate Waits(db: Db, led: Ledger, r: Rule) {
    && r.oneShot && !r.consumed && r.expiresAt.None?
    && r.id in db.rules && db.rules[r.id] == r
    && forall id :: id in led.created ==> led.created[id].ruleId != r.id
  }

  /** The rule has created `c`, and nothing else. */
  ghost predicate Spent(led: Ledger, r: Rule, c: Continuation) {
    && c.ruleId == r.id && c.id in led.created && led.created[c.id] == c
    && forall id :: id in led.created && led.created[id].ruleId == r.id ==> id == c.id
  }

  lemma StaysWaiting(db: Db, led: Ledger, op: Op, r: Rule)
    requires StoreInv(db, led) && OpOk(db, led, op) && Waits(db, led, r)
    requires !Hits(op, r.selector) && op != OpRemoveRule(r.id)
    ensures Waits(ApplyOp(db, op), ApplyLedger(db, led, op), r)
  {
    RuleStaysWaiting(db, led, op, r);
    hide ApplyOp, OpOk, StoreInv, Firing;
    var led' := ApplyLedger(db, led, op);
    forall id | id in led'.created ensures led'.created[id].ruleId != r.id {
      if id in NewRows(db, op) { NewRowElsewhere(db, led, op, r, id); }
    }
  }

  lemma RuleStaysWaiting(db: Db, led: Ledger, op: Op, r: Rule)
    requires OpOk(db, led, op) && Waits(db, led, r) && !Hits(op, r.selector) && op != OpRemoveRule(r.id)
    requires r.id in led.rulesEver
    ensures r.id in ApplyOp(db, op).rules && ApplyOp(db, op).rules[r.id] == r
  {
    hide MintOk, RowsFor;
  }

  lemma NewRowElsewhere(db: Db, led: Ledger, op: Op, r: Rule, id: string)
    requires StoreInv(db, led) && OpOk(db, led, op) && Waits(db, led, r) && !Hits(op, r.selector)
    requires id in NewRows(db, op)
    ensures NewRows(db, op)[id].ruleId != r.id
  {
    NewRowRule(db, led, op, id);
    hide NewRows, MintOk;
  }

  /** The first matching event creates the step's continuation, addressed and labelled as the step says. */
  lemma FiresOnHit(db: Db, led: Ledger, op: Op, r: Rule) returns (c: Continuation)
    requires StoreInv(db, led) && OpOk(db, led, op) && Waits(db, led, r) && Hits(op, r.selector)
    ensures Spent(ApplyLedger(db, led, op), r, c)
    ensures c.eventId == op.ev.id && c.sessionId == r.sessionId && c.tag == r.tag
    ensures CreatedBy(op, r, c)
  {
    var fire := Firing(db, op.ev, op.at);
    assert !Fired(db.conts, r.id, op.ev.id);
    assert r.id in fire;
    assert Covered(op.mint, r.id);
    var i :| i in op.mint && op.mint[i].ruleId == r.id;
    c := NewRow(r, op.ev, op.at, i, op.mint[i].rendered);
    assert NewRows(db, op)[i] == c;
    var led' := ApplyLedger(db, led, op);
    forall id | id in led'.created && led'.created[id].ruleId == r.id ensures id == i {
      if id in NewRows(db, op) { NewRowRule(db, led, op, id); }
    }
  }

  /** Later calls add nothing to what a one-shot rule created, even if the rule or the row is deleted. */
  lemma StaysSpent(db: Db, led: Ledger, op: Op, r: Rule, c: Continuation)
    requires StoreInv(db, led) && OpOk(db, led, op) && Spent(led, r, c)
    requires r.id in led.rulesEver && led.rulesEver[r.id].oneShot
    ensures var led' := ApplyLedger(db, led, op);
      Spent(led', r, c) && r.id in led'.rulesEver && led'.rulesEver[r.id].oneShot
  {
    StoreInvByOp(db, led, op);
    RowsAfter(db, led, op);
    assert c.id !in NewRows(db, op);
  }

  lemma {:induction false} StaysSpentAlways(db: Db, led: Ledger, ops: seq<Op>, r: Rule, c: Continuation)
    requires StoreInv(db, led) && Runs(db, led, ops) && Spent(led, r, c)
    requires r.id in led.rulesEver && led.rulesEver[r.id].oneShot
    ensures Spent(FinalLedger(db, led, ops), r, c)
    decreases |ops|
  {
    hide StoreInv, Spent, ApplyLedger;
    if ops == [] {
    } else {
      StaysSpent(db, led, ops[0], r, c);
      StoreInvByOp(db, led, ops[0]);
      StaysSpentAlways(ApplyOp(db, ops[0]), ApplyLedger(db, led, ops[0]), ops[1..], r, c);
    }
  }

  lemma WaitingIsStored(db: Db, led: Ledger, r: Rule)
    requires StoreInv(db, led) && Waits(db, led, r)
    ensures r.id in led.rulesEver && led.rulesEver[r.id].oneShot
  {
    hide RowsKept, OneShotFresh, OneShotOnce, PairsUnique;
    assert RuleKept(db, led, r.id);
  }

  lemma SpentIsStored(db: Db, led: Ledger, op: Op, r: string)
    requires OpOk(db, led, op) && r in led.rulesEver && led.rulesEver[r].oneShot
    ensures r in ApplyLedger(db, led, op).rulesEver && ApplyLedger(db, led, op).rulesEver[r].oneShot
  {
    hide NewRows, ApplyOp;
  }

  /** The row a waiting rule creates for the ingest that hits it. */
  ghost predicate CreatedBy(op: Op, r: Rule, c: Continuation)
    requires op.OpIngest?
  {
    && c.id in op.mint && op.mint[c.id].ruleId == r.id
    && c == NewRow(r, op.ev, op.at, c.id, op.mint[c.id].rendered)
  }

  /**
   Over any later run of store calls (deliveries in any order and number, claims, results, resets,
   sweeps, other rules coming and going): a waiting one-shot rule creates nothing if no event
   matches, and otherwise exactly one continuation, for the first event that matches.
   */
  lemma {:induction false} FiresOnceOnFirstMatch(db: Db, led: Ledger, ops: seq<Op>, r: Rule)
    returns (c: Option<Continuation>)
    requires StoreInv(db, led) && Runs(db, led, ops) && Waits(db, led, r)
    requires forall j :: 0 <= j < FirstHit(ops, r.selector) ==> ops[j] != OpRemoveRule(r.id)
    ensures var k := FirstHit(ops, r.selector);
      if k == |ops| then
        c.None? && Waits(FinalDb(db, led, ops), FinalLedger(db, led, ops), r)
      else
        c.Some? && CreatedBy(ops[k], r, c.value) && Spent(FinalLedger(db, led, ops), r, c.value)
    decreases |ops|
  {
    hide StoreInv, Waits, Spent, ApplyOp, ApplyLedger;
    if ops == [] {
      c := None;
    } else if Hits(ops[0], r.selector) {
      WaitingIsStored(db, led, r);
      SpentIsStored(db, led, ops[0], r.id);
      var row := FiresOnHit(db, led, ops[0], r);
      StoreInvByOp(db, led, ops[0]);
      StaysSpentAlways(ApplyOp(db, ops[0]), ApplyLedger(db, led, ops[0]), ops[1..], r, row);
      c := Some(row);
    } else {
      StaysWaiting(db, led, ops[0], r);
      StoreInvByOp(db, led, ops[0]);
      var k := FirstHit(ops[1..], r.selector);
      assert forall j :: 0 <= j < k ==> ops[1..][j] == ops[j + 1];
      c := FiresOnceOnFirstMatch(ApplyOp(db, ops[0]), ApplyLedger(db, led, ops[0]), ops[1..], r);
    }
  }

  /** The rule stored for step `i`. */
  function StepRule(w: Workflow, i: nat, id: string, at: Instant): Rule
    requires i < |w.steps|
  {
    Rules(WithTags(w))[i].(id := id, createdAt := at)
  }

  /**
   Compilation preserves meaning: from the moment the rule of step `i` is stored, the step runs
   its session once, on the first event its selector matches, under its own label, or not at all.
   */
  lemma WorkflowMeaning(w: Workflow, validTemplate: string -> bool, i: nat, id: string, at: Instant,
                        db: Db, led: Ledger, ops: seq<Op>, render: Renderer) returns (c: Option<Continuation>)
    requires Acceptable(w, validTemplate) && i < |w.steps|
    requires StoreInv(db, led) && Runs(db, led, [OpAddRule(StepRule(w, i, id, at))] + ops)
    requires forall j :: 0 <= j < FirstHit(ops, w.steps[i].on) ==> ops[j] != OpRemoveRule(id)
    ensures var r := StepRule(w, i, id, at);
      && r.id == id && r.selector == w.steps[i].on && r.promptTemplate == w.steps[i].prompt
      && r.actionKind == "continue_session" && r.sessionId == w.session && r.tag == TagOf(w.steps, i)
      && r.oneShot && !r.consumed && r.expiresAt == None && r.createdAt == at
    ensures var k := FirstHit(ops, w.steps[i].on);
      k < |ops| && c.Some? && Renders(ops[k], id, w.steps[i].prompt, render) ==>
        match render(w.steps[i].prompt, ops[k].ev)
        case Ok(text) => c.value.state == Pending && c.value.prompt == text
        case Err(e) =>
          c.value.state == Failed && c.value.prompt == "" && c.value.outputSummary == "prompt template error: " + e
    ensures var k := FirstHit(ops, w.steps[i].on);
      var final := FinalLedger(db, led, [OpAddRule(StepRule(w, i, id, at))] + ops);
      if k == |ops| then
        c.None? && forall n :: n in final.created ==> final.created[n].ruleId != id
      else
        && c.Some? && c.value.id in final.created && final.created[c.value.id] == c.value
        && (forall n :: n in final.created && final.created[n].ruleId == id ==> n == c.value.id)
        && CreatedBy(ops[k], StepRule(w, i, id, at), c.value)
        && c.value.eventId == ops[k].ev.id && c.value.sessionId == w.session && c.value.tag == TagOf(w.steps, i)
        && (c.value.state.Pending? || c.value.state.Failed?)
  {
    hide StoreInv, OpOk, ApplyOp, ApplyLedger, StepRule;
    var r := StepRule(w, i, id, at);
    StepRuleFields(w, i, id, at);
    StoredRuleWaits(db, led, r);
    assert ([OpAddRule(r)] + ops)[1..] == ops;
    c := FiresOnceOnFirstMatch(ApplyOp(db, OpAddRule(r)), ApplyLedger(db, led, OpAddRule(r)), ops, r);
    var k := FirstHit(ops, w.steps[i].on);
    if k < |ops| && c.Some? && Renders(ops[k], id, w.steps[i].prompt, render) {
      RowIsRendered(ops[k], r, c.value, render);
    }
  }

  /** In this ingest, prompts of rule `id` are what rendering the template gives. */
  predicate Renders(op: Op, id: string, template: string, render: Renderer) {
    && op.OpIngest?
    && forall m :: m in op.mint && op.mint[m].ruleId == id ==> op.mint[m].rendered == render(template, op.ev)
  }

  /** The store's own ingest is one. */
  lemma StoreRenders(rules: map<string, Rule>, drawn: map<string, string>, render: Renderer, ev: Event, at: Instant,
                     r: string)
    requires r in rules
    ensures Renders(OpIngest(ev, at, Store.MintsOf(rules, drawn, render, ev)), r, rules[r].promptTemplate, render)
  {
  }

  lemma RowIsRendered(op: Op, r: Rule, c: Continuation, render: Renderer)
    requires op.OpIngest? && CreatedBy(op, r, c) && Renders(op, r.id, r.promptTemplate, render)
    ensures match render(r.promptTemplate, op.ev)
      case Ok(text) => c.state == Pending && c.prompt == text
      case Err(e) => c.state == Failed && c.prompt == "" && c.outputSummary == "prompt template error: " + e
  {
  }

  lemma StepRuleFields(w: Workflow, i: nat, id: string, at: Instant)
    requires i < |w.steps|
    ensures var r := StepRule(w, i, id, at);
      && r.id == id && r.selector == w.steps[i].on && r.tag == TagOf(w.steps, i) && r.sessionId == w.session
      && r.promptTemplate == w.steps[i].prompt && r.actionKind == "continue_session" && r.createdAt == at
      && r.oneShot && !r.consumed && r.expiresAt.None?
  {
  }

  lemma StoredRuleWaits(db: Db, led: Ledger, r: Rule)
    requires StoreInv(db, led) && OpOk(db, led, OpAddRule(r)) && r.oneShot && r.expiresAt.None?
    ensures var db', led' := ApplyOp(db, OpAddRule(r)), ApplyLedger(db, led, OpAddRule(r));
      StoreInv(db', led') && Waits(db', led', r)
  {
    StoreInvByOp(db, led, OpAddRule(r));
    hide StoreInv;
  }
}
