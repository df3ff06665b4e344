/**
 What happens to each continuation over its whole life, restarts included: how often it is
 claimed, that its verdict is final, and which result event it gets.
 */
module RunHistory {
  import opened Core
  import opened StoreModel
  import opened StoreLaws
  import opened Engine
  import opened WorkerSafety
  import Decimal

  // ---------- Claims, resets and verdicts ----------

  /** The row's result columns are the verdict. */
  predicate Shows(c: Continuation, v: Verdict) {
    c.state == v.state && c.command == v.command && c.exitCode == v.exitCode && c.outputSummary == v.summary
  }

  /** A claim is paid for by the row's creation or by a boot reset that found it running. */
  ghost predicate RowHistory(c: Continuation, h: History, id: string) {
    match c.state
    case Pending => h.Claims(id) == h.Resets(id) && id !in h.verdicts
    case Running => h.Claims(id) == h.Resets(id) + 1 && id !in h.verdicts
    case _ =>
      if id in h.verdicts then Shows(c, h.verdicts[id]) && h.Claims(id) == h.Resets(id) + 1
      else h.Claims(id) == 0 && h.Resets(id) == 0 && c.state.Failed?
  }

  ghost predicate NoHistory(h: History, id: string) {
    h.Claims(id) == 0 && h.Resets(id) == 0 && id !in h.verdicts && h.Results(id) == []
  }

  ghost predicate HistInv(conts: map<string, Continuation>, created: map<string, Continuation>, h: History) {
    && (forall id :: id in conts ==> RowHistory(conts[id], h, id))
    && (forall id :: id !in created ==> NoHistory(h, id))
    && (forall id :: h.Claims(id) <= h.Resets(id) + 1)
  }

  ghost predicate HistInvOf(s: Sys) { HistInv(s.db.conts, s.led.created, s.hist) }

  lemma QuietHist(conts: map<string, Continuation>, conts': map<string, Continuation>,
                  created: map<string, Continuation>, created': map<string, Continuation>, h: History)
    requires HistInv(conts, created, h) && Quiet(conts, conts')
    requires forall id :: id in created ==> id in created'
    requires forall id :: id in conts' && id !in conts ==> id !in created
    ensures HistInv(conts', created', h)
  {
    forall id | id in conts' ensures RowHistory(conts'[id], h, id) {
      if id !in conts { assert NoHistory(h, id); }
    }
  }

  /** A quiet store call brings in only ids that were never used before. */
  lemma QuietCall(s: Sys, op: Op)
    requires StoreInv(s.db, s.led) && HistInvOf(s) && OpOk(s.db, s.led, op) && QuietOp(op)
    ensures HistInv(Commit(s, op).db.conts, Commit(s, op).led.created, s.hist)
  {
    QuietChange(s.db, s.led, op);
    RowsAfter(s.db, s.led, op);
    QuietHist(s.db.conts, Commit(s, op).db.conts, s.led.created, Commit(s, op).led.created, s.hist);
  }

  /** The calls that insert nothing leave the ledger of created rows as it is. */
  lemma SameCreated(s: Sys, op: Op)
    requires OpOk(s.db, s.led, op) && !op.OpIngest? && !op.OpInsert?
    ensures Commit(s, op).led.created == s.led.created
  {
  }

  lemma OutHist(s: Sys, o: Outside)
    requires StoreInv(s.db, s.led) && HistInvOf(s) && OutEnabled(s, o)
    ensures HistInvOf(OutApply(s, o))
  {
    match o
    case Inject(ev, at, mint) => QuietCall(s, OpIngest(ev, at, mint));
    case RunManually(row) => QuietCall(s, OpInsert(row));
    case Administer(op) => QuietCall(s, op);
    case _ =>
  }

  lemma ResetHist(db: Db, created: map<string, Continuation>, h: History, at: Instant)
    requires HistInv(db.conts, created, h)
    requires forall id :: id in db.conts ==> id in created
    ensures HistInv(ResetDb(db, at).conts, created, CountResets(h, db))
  {
    var h' := CountResets(h, db);
    forall id ensures h'.Claims(id) <= h'.Resets(id) + 1 {
      assert h.Claims(id) <= h.Resets(id) + 1;
    }
    forall id | id in db.conts ensures RowHistory(ResetRow(db.conts[id], at), h', id) {
      assert RowHistory(db.conts[id], h, id);
    }
    forall id | id !in created ensures NoHistory(h', id) {
      assert NoHistory(h, id);
    }
  }

  lemma DisHist(s: Sys, d: Dispatch)
    requires RowsKept(s.db, s.led) && HistInvOf(s) && DisEnabled(s, d)
    ensures HistInvOf(DisApply(s, d))
  {
    if d.BootReset? {
      ResetHist(s.db, s.led.created, s.hist, d.at);
      SameCreated(s, OpReset(d.at));
    }
    hide HistInv, CountResets, ResetDb, RowsKept;
  }

  lemma ClaimHist(conts: map<string, Continuation>, created: map<string, Continuation>, h: History, id: string,
                  at: Instant)
    requires HistInv(conts, created, h) && id in conts && id in created && conts[id].state.Pending?
    ensures HistInv(conts[id := conts[id].(state := Running, updatedAt := at)], created,
                    h.(claims := h.claims[id := h.Claims(id) + 1]))
  {
    var h' := h.(claims := h.claims[id := h.Claims(id) + 1]);
    var conts' := conts[id := conts[id].(state := Running, updatedAt := at)];
    assert RowHistory(conts[id], h, id);
    forall j | j in conts' ensures RowHistory(conts'[j], h', j) {
      if j != id { assert RowHistory(conts[j], h, j); }
    }
    forall j | j !in created ensures NoHistory(h', j) { assert NoHistory(h, j); }
    forall j ensures h'.Claims(j) <= h'.Resets(j) + 1 { assert h.Claims(j) <= h.Resets(j) + 1; }
  }

  lemma RecordHist(conts: map<string, Continuation>, created: map<string, Continuation>, h: History, id: string,
                   v: Verdict, at: Instant)
    requires HistInv(conts, created, h) && id in conts && id in created && conts[id].state.Running?
    requires v.state.Terminal()
    ensures HistInv(conts[id := Finish(conts[id], v, at)], created, h.(verdicts := h.verdicts[id := v]))
  {
    var h' := h.(verdicts := h.verdicts[id := v]);
    var conts' := conts[id := Finish(conts[id], v, at)];
    assert RowHistory(conts[id], h, id);
    forall j | j in conts' ensures RowHistory(conts'[j], h', j) {
      if j != id { assert RowHistory(conts[j], h, j); }
    }
    forall j | j !in created ensures NoHistory(h', j) { assert NoHistory(h, j); }
    forall j ensures h'.Claims(j) <= h'.Resets(j) + 1 { assert h.Claims(j) <= h.Resets(j) + 1; }
  }

  lemma EmitHist(conts: map<string, Continuation>, created: map<string, Continuation>, h: History, id: string,
                 ev: Event)
    requires HistInv(conts, created, h) && id in created
    ensures HistInv(conts, created, h.(results := h.results[id := h.Results(id) + [ev]]))
  {
    var h' := h.(results := h.results[id := h.Results(id) + [ev]]);
    assert forall j :: h'.Claims(j) == h.Claims(j) && h'.Resets(j) == h.Resets(j);
    assert forall j :: j != id ==> h'.Results(j) == h.Results(j);
  }

  // ---------- Result events ----------

  /** At most one result event, and it states the recorded verdict under the continuation's label. */
  ghost predicate ResultOk(created: map<string, Continuation>, h: History, id: string) {
    && |h.Results(id)| <= 1
    && (id in h.verdicts ==> id in created)
    && (h.Results(id) != [] ==>
          && id in h.verdicts
          && var ev := h.Results(id)[0];
             ev == ResultEvent(created[id], h.verdicts[id], ev.id, ev.timestamp))
  }

  /** A worker about to emit has just recorded that verdict, and nobody has reported it yet. */
  ghost predicate EmitterOk(created: map<string, Continuation>, h: History, pc: WorkerPc) {
    pc.Emitting? ==>
      && pc.c.id in created && SameRow(created[pc.c.id], pc.c)
      && pc.c.id in h.verdicts && h.verdicts[pc.c.id] == pc.v && h.Results(pc.c.id) == []
  }

  /** A run that returned after shutdown was raised never reaches the recording step. */
  predicate NotLate(pc: WorkerPc, cancelled: bool) {
    && (pc.Returned? || pc.Judging? ==> (pc.late ==> cancelled))
    && (pc.Recording? ==> !pc.late)
  }

  ghost predicate ResultsOk(created: map<string, Continuation>, h: History) {
    forall id :: ResultOk(created, h, id)
  }

  ghost predicate EmittersOk(created: map<string, Continuation>, h: History, workers: map<string, WorkerPc>,
                             cancelled: bool)
  {
    forall w :: w in workers ==> EmitterOk(created, h, workers[w]) && NotLate(workers[w], cancelled)
  }

  ghost predicate ResultInv(s: Sys) {
    ResultsOk(s.led.created, s.hist) && EmittersOk(s.led.created, s.hist, s.workers, s.cancelled)
  }

  ghost predicate Tracked(s: Sys) { Safe(s) && HistInvOf(s) && ResultInv(s) }

  ghost predicate Extends(created: map<string, Continuation>, created': map<string, Continuation>) {
    forall id :: id in created ==> id in created' && created'[id] == created[id]
  }

  lemma LedgerGrows(s: Sys, op: Op)
    requires StoreInv(s.db, s.led) && OpOk(s.db, s.led, op)
    ensures Extends(s.led.created, Commit(s, op).led.created)
  {
    RowsAfter(s.db, s.led, op);
  }

  /** Nothing was recorded or emitted: the books stay right. */
  lemma ResultsKept(created: map<string, Continuation>, created': map<string, Continuation>,
                    h: History, h': History)
    requires ResultsOk(created, h) && Extends(created, created')
    requires h'.verdicts == h.verdicts && h'.results == h.results
    ensures ResultsOk(created', h')
  {
    forall id ensures ResultOk(created', h', id) {
      assert ResultOk(created, h, id);
    }
  }

  lemma EmittersKept(created: map<string, Continuation>, created': map<string, Continuation>,
                     h: History, h': History, workers: map<string, WorkerPc>, workers': map<string, WorkerPc>,
                     cancelled: bool)
    requires EmittersOk(created, h, workers, cancelled) && Extends(created, created')
    requires h'.verdicts == h.verdicts && h'.results == h.results
    requires forall w :: w in workers' ==>
      || (w in workers && workers'[w] == workers[w])
      || (NotLate(workers'[w], cancelled) && !workers'[w].Emitting?)
    ensures EmittersOk(created', h', workers', cancelled)
  {
  }

  lemma OutResults(s: Sys, o: Outside)
    requires StoreInv(s.db, s.led) && ResultInv(s) && OutEnabled(s, o)
    ensures ResultInv(OutApply(s, o))
  {
    match o {
      case Inject(ev, at, mint) => LedgerGrows(s, OpIngest(ev, at, mint));
      case RunManually(row) => LedgerGrows(s, OpInsert(row));
      case Administer(op) => LedgerGrows(s, op);
      case _ =>
    }
    var s' := OutApply(s, o);
    ResultsKept(s.led.created, s'.led.created, s.hist, s'.hist);
    EmittersKept(s.led.created, s'.led.created, s.hist, s'.hist, s.workers, s'.workers, s.cancelled);
  }

  lemma DisResults(s: Sys, d: Dispatch)
    requires StoreInv(s.db, s.led) && ResultInv(s) && DisEnabled(s, d)
    ensures ResultInv(DisApply(s, d))
  {
    if d.BootReset? { LedgerGrows(s, OpReset(d.at)); }
    var s' := DisApply(s, d);
    ResultsKept(s.led.created, s'.led.created, s.hist, s'.hist);
    EmittersKept(s.led.created, s'.led.created, s.hist, s'.hist, s.workers, s'.workers, s.cancelled);
  }

  lemma RecordResults(created: map<string, Continuation>, h: History, workers: map<string, WorkerPc>,
                      cancelled: bool, w: string, c: Continuation, v: Verdict)
    requires ResultsOk(created, h) && EmittersOk(created, h, workers, cancelled)
    requires c.id in created && SameRow(created[c.id], c) && c.id !in h.verdicts
    ensures ResultsOk(created, h.(verdicts := h.verdicts[c.id := v]))
    ensures EmittersOk(created, h.(verdicts := h.verdicts[c.id := v]), workers[w := Emitting(c, v)], cancelled)
  {
    var h' := h.(verdicts := h.verdicts[c.id := v]);
    assert forall id :: h'.Results(id) == h.Results(id);
    assert ResultOk(created, h, c.id);
    forall id ensures ResultOk(created, h', id) {
      assert ResultOk(created, h, id);
    }
  }

  lemma EmitResults(created: map<string, Continuation>, h: History, workers: map<string, WorkerPc>,
                    cancelled: bool, w: string, pc: WorkerPc, evId: string, at: Instant)
    requires ResultsOk(created, h) && EmittersOk(created, h, workers, cancelled)
    requires w in workers && workers[w].Emitting? && (pc.Notifying? || pc.Top?)
    requires forall x :: x in workers && workers[x].Emitting? ==> workers[x].c.sessionId == x
    ensures var id := workers[w].c.id;
      var h' := h.(results := h.results[id := h.Results(id) + [ResultEvent(workers[w].c, workers[w].v, evId, at)]]);
      ResultsOk(created, h') && EmittersOk(created, h', workers[w := pc], cancelled)
  {
    var c, v := workers[w].c, workers[w].v;
    var h' := h.(results := h.results[c.id := h.Results(c.id) + [ResultEvent(c, v, evId, at)]]);
    assert forall id :: id != c.id ==> h'.Results(id) == h.Results(id);
    assert EmitterOk(created, h, workers[w]);
    forall id ensures ResultOk(created, h', id) {
      assert ResultOk(created, h, id);
    }
    forall x | x in workers && x != w && workers[x].Emitting? ensures workers[x].c.id != c.id {
      assert EmitterOk(created, h, workers[x]);
    }
  }

  // ---------- Worker steps ----------

  predicate Plain(k: Work) { !k.Claim? && !k.Record? && !k.Emit? }

  lemma ClaimStep(s: Sys, w: string, k: Work)
    requires HistInvOf(s) && WorkEnabled(s, w, k) && k.Claim?
    requires var id := s.workers[w].c.id;
      id in s.led.created && id in s.db.conts && s.db.conts[id].state.Pending?
    ensures HistInvOf(WorkApply(s, w, k))
  {
    hide HistInv, OpOk;
    ClaimHist(s.db.conts, s.led.created, s.hist, s.workers[w].c.id, k.at);
    SameCreated(s, WorkCall(s.workers[w], k));
  }

  lemma EmitHistStep(s: Sys, w: string, k: Work)
    requires StoreInv(s.db, s.led) && HistInvOf(s) && WorkEnabled(s, w, k) && k.Emit?
    requires s.workers[w].c.id in s.led.created
    ensures HistInvOf(WorkApply(s, w, k))
  {
    var pc := s.workers[w];
    var s1 := Commit(s, WorkCall(pc, k));
    LedgerGrows(s, WorkCall(pc, k));
    hide HistInv, StoreInv, ApplyOp, ApplyLedger, OpOk;
    QuietCall(s, WorkCall(pc, k));
    EmitHist(s1.db.conts, s1.led.created, s.hist, pc.c.id, ResultEvent(pc.c, pc.v, k.evId, k.at));
  }

  lemma RecordHistStep(s: Sys, w: string, k: Work)
    requires HistInvOf(s) && WorkEnabled(s, w, k) && k.Record? && s.workers[w].v.state.Terminal()
    requires var id := s.workers[w].c.id;
      id in s.led.created && id in s.db.conts && s.db.conts[id].state.Running?
    ensures HistInvOf(WorkApply(s, w, k))
  {
    hide HistInv, OpOk;
    RecordHist(s.db.conts, s.led.created, s.hist, s.workers[w].c.id, s.workers[w].v, k.at);
    SameCreated(s, WorkCall(s.workers[w], k));
  }

  lemma QuietHistStep(s: Sys, w: string, k: Work)
    requires StoreInv(s.db, s.led) && HistInvOf(s) && WorkEnabled(s, w, k) && Plain(k)
    ensures HistInvOf(WorkApply(s, w, k))
  {
    hide HistInv, StoreInv, ApplyOp, ApplyLedger, OpOk;
    QuietCall(s, WorkCall(s.workers[w], k));
  }

  /** The row a worker has fetched or holds is a stored, ledgered row. */
  lemma WorkersRow(s: Sys, w: string)
    requires Safe(s) && w in s.workers && (s.workers[w].Claiming? || s.workers[w].Holding())
    ensures var id := s.workers[w].c.id;
      && id in s.led.created && id in s.db.conts && SameRow(s.led.created[id], s.workers[w].c)
      && (if s.workers[w].Claiming? then s.db.conts[id].state.Pending? else s.db.conts[id].state.Running?)
    ensures s.workers[w].Recording? ==> s.workers[w].v.state.Terminal()
  {
    assert WorkerOk(s.db.conts, w, s.workers[w]);
  }

  lemma WorkHist(s: Sys, w: string, k: Work)
    requires Safe(s) && HistInvOf(s) && WorkEnabled(s, w, k)
    requires s.workers[w].Emitting? ==> s.workers[w].c.id in s.led.created
    ensures HistInvOf(WorkApply(s, w, k))
  {
    hide HistInv, StoreInv, WorkerInv, WorkApply, OpOk;
    match k
    case Claim(at) => WorkersRow(s, w); ClaimStep(s, w, k);
    case Record(at) => WorkersRow(s, w); RecordHistStep(s, w, k);
    case Emit(evId, at, mint) => EmitHistStep(s, w, k);
    case _ => QuietHistStep(s, w, k);
  }

  lemma PlainMove(s: Sys, w: string, k: Work)
    requires WorkEnabled(s, w, k) && NotLate(s.workers[w], s.cancelled) && Plain(k)
    ensures NotLate(WorkPc(s, w, k), s.cancelled) && !WorkPc(s, w, k).Emitting?
  {
  }

  lemma PlainResults(s: Sys, w: string, k: Work)
    requires StoreInv(s.db, s.led) && ResultInv(s) && WorkEnabled(s, w, k) && (Plain(k) || k.Claim?)
    ensures ResultInv(WorkApply(s, w, k))
  {
    hide StoreInv, OpOk, ApplyOp, ApplyLedger, ResultsOk;
    var s' := WorkApply(s, w, k);
    if Plain(k) { PlainMove(s, w, k); }
    LedgerGrows(s, WorkCall(s.workers[w], k));
    ResultsKept(s.led.created, s'.led.created, s.hist, s'.hist);
    EmittersKept(s.led.created, s'.led.created, s.hist, s'.hist, s.workers, s'.workers, s.cancelled);
  }

  lemma RecordStep(s: Sys, w: string, k: Work)
    requires Tracked(s) && WorkEnabled(s, w, k) && k.Record?
    ensures ResultInv(WorkApply(s, w, k))
  {
    var pc := s.workers[w];
    WorkersRow(s, w);
    assert RowHistory(s.db.conts[pc.c.id], s.hist, pc.c.id);
    RecordResults(s.led.created, s.hist, s.workers, s.cancelled, w, pc.c, pc.v);
    SameCreated(s, WorkCall(pc, k));
  }

  lemma EmitStep(s: Sys, w: string, k: Work)
    requires WorkerInvOf(s) && StoreInv(s.db, s.led) && ResultInv(s) && WorkEnabled(s, w, k) && k.Emit?
    ensures ResultInv(WorkApply(s, w, k))
  {
    hide ResultsOk, EmittersOk, StoreInv, WorkerInv, ApplyOp, ApplyLedger, OpOk;
    CallGrows(s, WorkCall(s.workers[w], k));
    EmitterSessions(s);
    EmitResults(Commit(s, WorkCall(s.workers[w], k)).led.created, s.hist, s.workers, s.cancelled, w,
                WorkPc(s, w, k), k.evId, k.at);
  }

  lemma EmitterSessions(s: Sys)
    requires WorkerInvOf(s)
    ensures forall x :: x in s.workers && s.workers[x].Emitting? ==> s.workers[x].c.sessionId == x
  {
    assert forall x :: x in s.workers ==> WorkerOk(s.db.conts, x, s.workers[x]);
  }

  lemma CallGrows(s: Sys, op: Op)
    requires StoreInv(s.db, s.led) && ResultInv(s) && OpOk(s.db, s.led, op)
    ensures ResultsOk(Commit(s, op).led.created, s.hist)
    ensures EmittersOk(Commit(s, op).led.created, s.hist, s.workers, s.cancelled)
  {
    LedgerGrows(s, op);
    CreatedGrows(s.led.created, Commit(s, op).led.created, s.hist, s.workers, s.cancelled);
  }

  lemma CreatedGrows(created: map<string, Continuation>, created': map<string, Continuation>, h: History,
                     workers: map<string, WorkerPc>, cancelled: bool)
    requires ResultsOk(created, h) && EmittersOk(created, h, workers, cancelled) && Extends(created, created')
    ensures ResultsOk(created', h) && EmittersOk(created', h, workers, cancelled)
  {
    ResultsKept(created, created', h, h);
    EmittersKept(created, created', h, h, workers, workers, cancelled);
  }

  // ---------- One step, and whole runs ----------

  lemma WorkTracked(s: Sys, w: string, k: Work)
    requires Tracked(s) && WorkEnabled(s, w, k)
    ensures HistInvOf(WorkApply(s, w, k)) && ResultInv(WorkApply(s, w, k))
  {
    assert EmitterOk(s.led.created, s.hist, s.workers[w]);
    WorkHist(s, w, k);
    if k.Record? { RecordStep(s, w, k); }
    else if k.Emit? { EmitStep(s, w, k); }
    else { PlainResults(s, w, k); }
  }

  lemma TrackedStep(s: Sys, a: Action)
    requires Tracked(s) && Enabled(s, a)
    ensures Tracked(Apply(s, a))
  {
    SafeStep(s, a);
    match a
    case Out(o) => OutHist(s, o); OutResults(s, o);
    case Dis(d) => DisHist(s, d); DisResults(s, d);
    case Wrk(w, k) => WorkTracked(s, w, k);
  }

  lemma {:induction false} TrackedAlways(s: Sys, run: seq<Action>)
    requires Tracked(s) && IsRun(s, run)
    ensures Tracked(End(s, run))
    decreases |run|
  {
    if run == [] {
    } else {
      TrackedStep(s, run[0]);
      TrackedAlways(Apply(s, run[0]), run[1..]);
    }
  }

  lemma StartsTracked(s: Sys)
    requires Init(s)
    ensures Tracked(s)
  {
  }

  /** At-least-once is bounded: a row is claimed at most once more than boot resets found it running. */
  lemma ClaimsBounded(s: Sys, run: seq<Action>, id: string)
    requires Init(s) && IsRun(s, run)
    ensures var e := End(s, run);
      && e.hist.Claims(id) <= e.hist.Resets(id) + 1
      && (id in e.db.conts && e.db.conts[id].state.Pending? ==> e.hist.Claims(id) == e.hist.Resets(id))
  {
    StartsTracked(s);
    hide Init, IsRun, End, Safe, ResultInv;
    TrackedAlways(s, run);
    var e := End(s, run);
    if id in e.db.conts { assert RowHistory(e.db.conts[id], e.hist, id); }
  }

  /** A continuation gets at most one result event ever; it states the stored verdict under the stored label. */
  lemma OneResultEvent(s: Sys, run: seq<Action>, id: string)
    requires Init(s) && IsRun(s, run)
    ensures var e := End(s, run);
      && |e.hist.Results(id)| <= 1
      && (e.hist.Results(id) != [] ==>
            && id in e.led.created && id in e.hist.verdicts
            && Reports(e.hist.Results(id)[0], e.led.created[id], e.hist.verdicts[id])
            && (id in e.db.conts ==> Shows(e.db.conts[id], e.hist.verdicts[id])))
  {
    StartsTracked(s);
    hide Init, IsRun, End, WorkerInv, HistInv, EmittersOk, Reports;
    TrackedAlways(s, run);
    TrackedResult(End(s, run), id);
  }

  lemma TrackedResult(e: Sys, id: string)
    requires RowsKept(e.db, e.led) && HistInvOf(e) && ResultsOk(e.led.created, e.hist)
    ensures |e.hist.Results(id)| <= 1
    ensures e.hist.Results(id) != [] ==>
      && id in e.led.created && id in e.hist.verdicts
      && Reports(e.hist.Results(id)[0], e.led.created[id], e.hist.verdicts[id])
      && (id in e.db.conts ==> Shows(e.db.conts[id], e.hist.verdicts[id]))
  {
    assert ResultOk(e.led.created, e.hist, id);
    if id in e.db.conts { assert RowHistory(e.db.conts[id], e.hist, id); }
    hide RowsKept, HistInvOf, ResultsOk;
    if e.hist.Results(id) != [] {
      RowsNameThemselves(e, id);
      var ev := e.hist.Results(id)[0];
      ResultReports(e.led.created[id], e.hist.verdicts[id], ev.id, ev.timestamp);
    }
  }

  lemma RowsNameThemselves(e: Sys, id: string)
    requires RowsKept(e.db, e.led) && id in e.led.created
    ensures e.led.created[id].id == id
  {
  }

  lemma ResultReports(c: Continuation, v: Verdict, evId: string, at: Instant)
    ensures Reports(ResultEvent(c, v, evId, at), c, v)
  {
  }

  /** The event names the continuation, its verdict, and the step's label (or the rule without one). */
  predicate Reports(ev: Event, c: Continuation, v: Verdict) {
    && ev.kind == (if v.state.Completed? then "continuation.completed" else "continuation.failed")
    && ev.source == (if c.tag == "" then c.ruleId else c.tag)
    && "continuationId" in ev.payload && ev.payload["continuationId"] == c.id
    && "sessionId" in ev.payload && ev.payload["sessionId"] == c.sessionId
    && "durationMs" in ev.payload && ev.payload["durationMs"] == Decimal.FormatInt(v.durationMs)
    && ("exitCode" in ev.payload <==> v.exitCode.Some?)
    && (v.exitCode.Some? ==> ev.payload["exitCode"] == Decimal.FormatInt(v.exitCode.value))
  }

  /** Shutdown is not a verdict: what is about to be recorded returned before shutdown was raised. */
  lemma NoLateVerdict(s: Sys, run: seq<Action>, w: string, at: Instant)
    requires Init(s) && IsRun(s, run) && WorkEnabled(End(s, run), w, Record(at))
    ensures !End(s, run).workers[w].late
  {
    hide Init, IsRun, End, Tracked, WorkEnabled;
    StartsTracked(s);
    TrackedAlways(s, run);
    RecordingIsNotLate(End(s, run), w, at);
  }

  lemma RecordingIsNotLate(e: Sys, w: string, at: Instant)
    requires Tracked(e) && WorkEnabled(e, w, Record(at))
    ensures w in e.workers && e.workers[w].Recording? && !e.workers[w].late
  {
    hide Safe, HistInvOf, ResultsOk, OpOk;
  }

  // ---------- Verdicts are final, unfinished work is never dropped ----------

  lemma FinishedRowStep(s: Sys, a: Action, id: string)
    requires Safe(s) && Enabled(s, a) && id in s.led.created
    requires id in s.db.conts ==> s.db.conts[id].state.Terminal()
    ensures id in Apply(s, a).led.created
    ensures id in Apply(s, a).db.conts ==> id in s.db.conts && Apply(s, a).db.conts[id] == s.db.conts[id]
  {
    StepIsCall(s, a);
    RecordsRunningRow(s, a);
    FinishedRowCall(s.db, s.led, CallOf(s, a), id);
  }

  /** A verdict is only ever written to a row that is running. */
  lemma RecordsRunningRow(s: Sys, a: Action)
    requires WorkerInvOf(s) && Enabled(s, a)
    ensures CallOf(s, a).OpRecord? ==>
      CallOf(s, a).id in s.db.conts && s.db.conts[CallOf(s, a).id].state.Running?
  {
    if a.Wrk? { assert WorkerOk(s.db.conts, a.w, s.workers[a.w]); }
  }

  lemma FinishedRowCall(db: Db, led: Ledger, op: Op, id: string)
    requires RowsKept(db, led) && OpOk(db, led, op) && id in led.created
    requires id in db.conts ==> db.conts[id].state.Terminal()
    requires op.OpRecord? ==> op.id != id || id !in db.conts
    ensures id in ApplyLedger(db, led, op).created
    ensures id in ApplyOp(db, op).conts ==> id in db.conts && ApplyOp(db, op).conts[id] == db.conts[id]
  {
    hide ApplyOp, NewRows, OpOk, RowsKept;
    RowAfter(db, led, op, id);
    if id in db.conts { FinishedRowKept(db, led, op, id); }
  }

  lemma FinishedRowKept(db: Db, led: Ledger, op: Op, id: string)
    requires OpOk(db, led, op) && id in db.conts && db.conts[id].state.Terminal()
    requires op.OpRecord? ==> op.id != id
    ensures id in ApplyOp(db, op).conts ==> ApplyOp(db, op).conts[id] == db.conts[id]
  {
  }

  /** Once finished, a row is never written again: later it is as it was, or swept. */
  lemma {:induction false} VerdictsAreFinal(s: Sys, run: seq<Action>, id: string)
    requires Safe(s) && IsRun(s, run) && id in s.led.created
    requires id in s.db.conts ==> s.db.conts[id].state.Terminal()
    ensures id in End(s, run).db.conts ==> id in s.db.conts && End(s, run).db.conts[id] == s.db.conts[id]
    decreases |run|
  {
    if run == [] {
    } else {
      SafeStep(s, run[0]);
      FinishedRowStep(s, run[0], id);
      VerdictsAreFinal(Apply(s, run[0]), run[1..], id);
    }
  }

  /** No step removes a pending or running row. */
  lemma UnfinishedWorkStays(s: Sys, a: Action, id: string)
    requires StoreInv(s.db, s.led) && Enabled(s, a)
    requires id in s.db.conts && !s.db.conts[id].state.Terminal()
    ensures id in Apply(s, a).db.conts && SameRow(s.db.conts[id], Apply(s, a).db.conts[id])
  {
    StepIsCall(s, a);
    RowAfter(s.db, s.led, CallOf(s, a), id);
  }
}
