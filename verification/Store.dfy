/** The store as the daemon calls it: tables updated in place, one method per store call. */
module Store {
  import opened Core
  import opened StoreModel
  import opened StoreLaws
  import opened Retention
  import Lex

  /** The mints of one ingest: the continuation ids drawn for its rules, and the prompts rendered for them. */
  function MintsOf(rules: map<string, Rule>, drawn: map<string, string>, render: Renderer, ev: Event)
    : map<string, Mint>
  {
    map id | id in drawn && drawn[id] in rules :: Mint(drawn[id], render(rules[drawn[id]].promptTemplate, ev))
  }

  /** `rows` lists the rules the query selects, in some order, each once. */
  ghost predicate Enumerates(rows: seq<string>, rules: map<string, Rule>, ev: Event, now: Instant) {
    && (forall r :: r in rows <==> r in rules && Selected(rules[r], ev, now))
    && (forall i, j :: 0 <= i < j < |rows| ==> rows[i] != rows[j])
  }

  /** Fresh ids, one for each selected rule. */
  ghost predicate Draws(drawn: map<string, string>, rows: seq<string>, conts: map<string, Continuation>) {
    && (forall r :: r in rows ==> exists id :: id in drawn && drawn[id] == r)
    && (forall id :: id in drawn ==> id !in conts)
    && (forall i, j :: i in drawn && j in drawn && drawn[i] == drawn[j] ==> i == j)
  }

  // ---------- The transaction, row by row ----------

  /** The id drawn for a rule. */
  function IdFor(drawn: map<string, string>, r: string): (id: string)
    requires exists id :: id in drawn && drawn[id] == r
    requires forall i, j :: i in drawn && j in drawn && drawn[i] == drawn[j] ==> i == j
    ensures id in drawn && drawn[id] == r
  {
    var id :| id in drawn && drawn[id] == r;
    id
  }

  datatype Tx = Tx(db: Db, out: seq<Continuation>)

  /** INSERT OR IGNORE of one candidate row; if it went in, a one-shot rule is consumed. */
  function Offer(tx: Tx, r: Rule, c: Continuation): Tx {
    if Fired(tx.db.conts, c.ruleId, c.eventId) then tx
    else Tx(tx.db.(conts := tx.db.conts[c.id := c],
                   rules := if r.oneShot then tx.db.rules[r.id := r.(consumed := true)] else tx.db.rules),
            tx.out + [c])
  }

  function Candidate(r: Rule, ev: Event, now: Instant, drawn: map<string, string>, render: Renderer): Continuation
    requires exists id :: id in drawn && drawn[id] == r.id
    requires forall i, j :: i in drawn && j in drawn && drawn[i] == drawn[j] ==> i == j
  {
    NewRow(r, ev, now, IdFor(drawn, r.id), render(r.promptTemplate, ev))
  }

  function WithEvent(db: Db, ev: Event): Db {
    if ev.id in db.events then db else db.(events := db.events[ev.id := ev])
  }

  /** The transaction after the first `n` rows of the query. */
  ghost function After(db: Db, ev: Event, now: Instant, rows: seq<string>, n: nat, drawn: map<string, string>,
                       render: Renderer): Tx
    requires n <= |rows| && Enumerates(rows, db.rules, ev, now) && Draws(drawn, rows, db.conts)
    requires forall r :: r in db.rules ==> db.rules[r].id == r
  {
    if n == 0 then Tx(WithEvent(db, ev), [])
    else
      var r := db.rules[rows[n - 1]];
      Offer(After(db, ev, now, rows, n - 1, drawn, render), r, Candidate(r, ev, now, drawn, render))
  }

  // ---------- Its outcome does not depend on the row order ----------

  /** The rules of `fire` among the first `n` enumerated. */
  function FirstOf(rows: seq<string>, n: nat, fire: set<string>): (part: set<string>)
    requires n <= |rows|
    ensures part <= fire
  {
    set r | r in rows[..n] && r in fire
  }

  /** The firing rules in the order the query returned them. */
  function Kept(rows: seq<string>, n: nat, fire: set<string>): seq<string>
    requires n <= |rows|
  {
    if n == 0 then []
    else Kept(rows, n - 1, fire) + (if rows[n - 1] in fire then [rows[n - 1]] else [])
  }

  /** The reported rows are stored rows, one for each rule of `kept`, in that order. */
  ghost predicate Reported(out: seq<Continuation>, kept: seq<string>, conts: map<string, Continuation>) {
    && |out| == |kept|
    && forall i :: 0 <= i < |out| ==>
         out[i].ruleId == kept[i] && out[i].id in conts && conts[out[i].id] == out[i]
  }

  lemma FirstOfNext(rows: seq<string>, n: nat, fire: set<string>)
    requires n < |rows|
    ensures FirstOf(rows, n + 1, fire) ==
            if rows[n] in fire then FirstOf(rows, n, fire) + {rows[n]} else FirstOf(rows, n, fire)
  {
    assert rows[..n + 1] == rows[..n] + [rows[n]];
  }

  lemma FirstOfAll(rows: seq<string>, fire: set<string>)
    requires forall r :: r in fire ==> r in rows
    ensures FirstOf(rows, |rows|, fire) == fire
  {
    assert rows[..|rows|] == rows;
  }

  lemma RowsForNext(rules: map<string, Rule>, part: set<string>, ev: Event, now: Instant,
                    mint: map<string, Mint>, conts: map<string, Continuation>, id: string)
    requires part <= rules.Keys && id in mint && mint[id].ruleId in rules && mint[id].ruleId !in part
    requires forall i, j :: i in mint && j in mint && mint[i].ruleId == mint[j].ruleId ==> i == j
    ensures var r := mint[id].ruleId;
      conts + RowsFor(rules, part + {r}, ev, now, mint) ==
      (conts + RowsFor(rules, part, ev, now, mint))[id := NewRow(rules[r], ev, now, id, mint[id].rendered)]
  {
  }

  lemma ConsumeNext(rules: map<string, Rule>, part: set<string>, r: string)
    requires r in rules
    ensures Consume(rules, part + {r}) ==
            if rules[r].oneShot then Consume(rules, part)[r := rules[r].(consumed := true)] else Consume(rules, part)
  {
  }

  /** Rows created for other rules do not decide whether this rule already has its row for the event. */
  lemma FiredUnaffected(rules: map<string, Rule>, part: set<string>, r: string, ev: Event, now: Instant,
                        mint: map<string, Mint>, conts: map<string, Continuation>)
    requires part <= rules.Keys && r !in part
    requires forall q :: q in rules ==> rules[q].id == q
    requires forall id :: id in mint ==> id !in conts
    ensures Fired(conts + RowsFor(rules, part, ev, now, mint), r, ev.id) <==> Fired(conts, r, ev.id)
  {
    var rows := RowsFor(rules, part, ev, now, mint);
    if Fired(conts, r, ev.id) {
      var id :| id in conts && conts[id].ruleId == r && conts[id].eventId == ev.id;
      assert (conts + rows)[id] == conts[id];
    }
  }

  lemma MintsAreOk(db: Db, ev: Event, now: Instant, rows: seq<string>, drawn: map<string, string>, render: Renderer)
    requires Enumerates(rows, db.rules, ev, now) && Draws(drawn, rows, db.conts)
    ensures MintOk(db, ev, now, MintsOf(db.rules, drawn, render, ev))
  {
    var mint := MintsOf(db.rules, drawn, render, ev);
    forall r | r in Firing(db, ev, now) ensures Covered(mint, r) {
      var id :| id in drawn && drawn[id] == r;
      assert mint[id].ruleId == r;
    }
  }

  /** The state once exactly the rules in `part` have been handled. */
  ghost function Partly(db: Db, ev: Event, now: Instant, mint: map<string, Mint>, part: set<string>): Db
    requires part <= db.rules.Keys
  {
    Db(WithEvent(db, ev).events, Consume(db.rules, part), db.sessions,
       db.conts + RowsFor(db.rules, part, ev, now, mint))
  }

  lemma PartlyNothing(db: Db, ev: Event, now: Instant, mint: map<string, Mint>, none: set<string>)
    requires none == {}
    ensures Partly(db, ev, now, mint, none) == WithEvent(db, ev)
  {
    hide Consume, RowsFor;
    ConsumeNothing(db.rules, none);
    RowsForNothing(db.rules, none, ev, now, mint, db.conts);
  }

  lemma OfferNext(db: Db, ev: Event, now: Instant, mint: map<string, Mint>, part: set<string>, id: string,
                  out: seq<Continuation>, kept: seq<string>)
    requires part <= db.rules.Keys && forall r :: r in db.rules ==> db.rules[r].id == r
    requires id in mint && mint[id].ruleId in db.rules && mint[id].ruleId !in part
    requires forall i :: i in mint ==> i !in db.conts
    requires forall i, j :: i in mint && j in mint && mint[i].ruleId == mint[j].ruleId ==> i == j
    requires Reported(out, kept, RowsFor(db.rules, part, ev, now, mint))
    ensures var r := db.rules[mint[id].ruleId];
      var tx := Offer(Tx(Partly(db, ev, now, mint, part), out), r, NewRow(r, ev, now, id, mint[id].rendered));
      if Fired(db.conts, r.id, ev.id) then
        tx == Tx(Partly(db, ev, now, mint, part), out)
      else
        && tx.db == Partly(db, ev, now, mint, part + {r.id})
        && Reported(tx.out, kept + [r.id], RowsFor(db.rules, part + {r.id}, ev, now, mint))
  {
    var r := mint[id].ruleId;
    FiredUnaffected(db.rules, part, r, ev, now, mint, db.conts);
    hide Fired;
    RowsForNext(db.rules, part, ev, now, mint, db.conts, id);
    ConsumeNext(db.rules, part, r);
    ReportedNext(db, ev, now, mint, part, id, out, kept);
    hide RowsFor, Consume, Reported, NewRow;
  }

  lemma ReportedNext(db: Db, ev: Event, now: Instant, mint: map<string, Mint>, part: set<string>, id: string,
                     out: seq<Continuation>, kept: seq<string>)
    requires part <= db.rules.Keys && id in mint && mint[id].ruleId in db.rules
    requires db.rules[mint[id].ruleId].id == mint[id].ruleId
    requires Reported(out, kept, RowsFor(db.rules, part, ev, now, mint))
    ensures var r := mint[id].ruleId;
      Reported(out + [NewRow(db.rules[r], ev, now, id, mint[id].rendered)], kept + [r],
               RowsFor(db.rules, part + {r}, ev, now, mint))
  {
  }

  /** The parts of the hypotheses one row of the query needs. */
  lemma RowFacts(db: Db, ev: Event, now: Instant, rows: seq<string>, n: nat, drawn: map<string, string>,
                 render: Renderer)
    requires n < |rows| && Enumerates(rows, db.rules, ev, now) && Draws(drawn, rows, db.conts)
    ensures rows[n] in db.rules && rows[n] !in rows[..n]
    ensures rows[n] in Firing(db, ev, now) <==> !Fired(db.conts, rows[n], ev.id)
    ensures var id, mint := IdFor(drawn, rows[n]), MintsOf(db.rules, drawn, render, ev);
      && id in mint && mint[id] == Mint(rows[n], render(db.rules[rows[n]].promptTemplate, ev))
      && (forall i :: i in mint ==> i !in db.conts)
      && (forall i, j :: i in mint && j in mint && mint[i].ruleId == mint[j].ruleId ==> i == j)
  {
    assert rows[n] in rows;
  }

  ghost predicate InStep(tx: Tx, db: Db, ev: Event, now: Instant, mint: map<string, Mint>, part: set<string>,
                         kept: seq<string>)
    requires part <= db.rules.Keys
  {
    && tx.db == Partly(db, ev, now, mint, part)
    && Reported(tx.out, kept, RowsFor(db.rules, part, ev, now, mint))
  }

  lemma StartsInStep(db: Db, ev: Event, now: Instant, mint: map<string, Mint>, rows: seq<string>, fire: set<string>)
    requires fire <= db.rules.Keys
    ensures InStep(Tx(WithEvent(db, ev), []), db, ev, now, mint, FirstOf(rows, 0, fire), Kept(rows, 0, fire))
  {
    PartlyNothing(db, ev, now, mint, FirstOf(rows, 0, fire));
  }

  lemma {:induction false} AfterInStep(db: Db, ev: Event, now: Instant, rows: seq<string>, n: nat,
                                       drawn: map<string, string>, render: Renderer)
    requires n <= |rows| && Enumerates(rows, db.rules, ev, now) && Draws(drawn, rows, db.conts)
    requires forall r :: r in db.rules ==> db.rules[r].id == r
    ensures var fire := Firing(db, ev, now);
      InStep(After(db, ev, now, rows, n, drawn, render), db, ev, now, MintsOf(db.rules, drawn, render, ev),
             FirstOf(rows, n, fire), Kept(rows, n, fire))
  {
    hide InStep, Firing, MintsOf, Kept, FirstOf, Offer;
    if n == 0 {
      StartsInStep(db, ev, now, MintsOf(db.rules, drawn, render, ev), rows, Firing(db, ev, now));
    } else {
      AfterInStep(db, ev, now, rows, n - 1, drawn, render);
      StaysInStep(db, ev, now, rows, n, drawn, render);
    }
  }

  lemma StaysInStep(db: Db, ev: Event, now: Instant, rows: seq<string>, n: nat,
                    drawn: map<string, string>, render: Renderer)
    requires 0 < n <= |rows| && Enumerates(rows, db.rules, ev, now) && Draws(drawn, rows, db.conts)
    requires forall r :: r in db.rules ==> db.rules[r].id == r
    requires var fire := Firing(db, ev, now);
      InStep(After(db, ev, now, rows, n - 1, drawn, render), db, ev, now, MintsOf(db.rules, drawn, render, ev),
             FirstOf(rows, n - 1, fire), Kept(rows, n - 1, fire))
    ensures var fire := Firing(db, ev, now);
      InStep(After(db, ev, now, rows, n, drawn, render), db, ev, now, MintsOf(db.rules, drawn, render, ev),
             FirstOf(rows, n, fire), Kept(rows, n, fire))
  {
    hide InStep, After, Firing, MintsOf, Kept, FirstOf, Offer;
    RowFacts(db, ev, now, rows, n - 1, drawn, render);
    AfterNext(db, ev, now, rows, n, drawn, render);
    NextInStep(db, ev, now, MintsOf(db.rules, drawn, render, ev), Firing(db, ev, now), rows, n - 1,
               IdFor(drawn, rows[n - 1]), After(db, ev, now, rows, n - 1, drawn, render));
  }

  lemma AfterNext(db: Db, ev: Event, now: Instant, rows: seq<string>, n: nat,
                  drawn: map<string, string>, render: Renderer)
    requires 0 < n <= |rows| && Enumerates(rows, db.rules, ev, now) && Draws(drawn, rows, db.conts)
    requires forall r :: r in db.rules ==> db.rules[r].id == r
    ensures rows[n - 1] in rows && rows[n - 1] in db.rules
    ensures exists id :: id in drawn && drawn[id] == db.rules[rows[n - 1]].id
    ensures forall i, j :: i in drawn && j in drawn && drawn[i] == drawn[j] ==> i == j
    ensures var r, id, mint := db.rules[rows[n - 1]], IdFor(drawn, rows[n - 1]), MintsOf(db.rules, drawn, render, ev);
      && id in mint
      && Candidate(r, ev, now, drawn, render) == NewRow(r, ev, now, id, mint[id].rendered)
      && After(db, ev, now, rows, n, drawn, render)
         == Offer(After(db, ev, now, rows, n - 1, drawn, render), r, Candidate(r, ev, now, drawn, render))
  {
    assert rows[n - 1] in rows;
    hide Offer, NewRow, Selected;
  }

  lemma NextInStep(db: Db, ev: Event, now: Instant, mint: map<string, Mint>, fire: set<string>,
                   rows: seq<string>, n: nat, id: string, tx: Tx)
    requires fire <= db.rules.Keys && forall r :: r in db.rules ==> db.rules[r].id == r
    requires n < |rows| && rows[n] in db.rules && rows[n] !in rows[..n]
    requires rows[n] in fire <==> !Fired(db.conts, rows[n], ev.id)
    requires id in mint && mint[id].ruleId == rows[n]
    requires forall i :: i in mint ==> i !in db.conts
    requires forall i, j :: i in mint && j in mint && mint[i].ruleId == mint[j].ruleId ==> i == j
    requires InStep(tx, db, ev, now, mint, FirstOf(rows, n, fire), Kept(rows, n, fire))
    ensures var r := db.rules[rows[n]];
      InStep(Offer(tx, r, NewRow(r, ev, now, id, mint[id].rendered)), db, ev, now, mint,
             FirstOf(rows, n + 1, fire), Kept(rows, n + 1, fire))
  {
    FirstOfNext(rows, n, fire);
    hide Fired, Offer, Partly, Reported, RowsFor, NewRow;
    OfferNext(db, ev, now, mint, FirstOf(rows, n, fire), id, tx.out, Kept(rows, n, fire));
  }

  /** Whatever order the query returns, the transaction leaves the state `IngestDb` describes. */
  lemma AnyRowOrder(db: Db, ev: Event, now: Instant, rows: seq<string>, drawn: map<string, string>, render: Renderer)
    requires Enumerates(rows, db.rules, ev, now) && Draws(drawn, rows, db.conts)
    requires forall r :: r in db.rules ==> db.rules[r].id == r
    ensures var tx := After(db, ev, now, rows, |rows|, drawn, render);
      var mint := MintsOf(db.rules, drawn, render, ev);
      && MintOk(db, ev, now, mint)
      && tx.db == IngestDb(db, ev, now, mint)
      && Reported(tx.out, Kept(rows, |rows|, Firing(db, ev, now)),
                  RowsFor(db.rules, Firing(db, ev, now), ev, now, mint))
  {
    MintsAreOk(db, ev, now, rows, drawn, render);
    AfterInStep(db, ev, now, rows, |rows|, drawn, render);
    FirstOfAll(rows, Firing(db, ev, now));
  }

  /** Rows are stored under their primary keys. */
  ghost predicate Keyed(db: Db) {
    && (forall r :: r in db.rules ==> db.rules[r].id == r)
    && (forall id :: id in db.conts ==> db.conts[id].id == id)
    && (forall s :: s in db.sessions ==> db.sessions[s].sessionId == s)
  }

  /** The rows reported are the rows added, one for each rule that should fire. */
  ghost predicate ReportsAdded(db: Db, db': Db, ev: Event, now: Instant, out: seq<Continuation>) {
    && (forall c: Continuation :: c in out <==> c.id in db'.conts && c.id !in db.conts && db'.conts[c.id] == c)
    && (forall i, j :: 0 <= i < j < |out| ==> out[i].ruleId != out[j].ruleId)
    && (forall r :: Fires(db, ev, now, r) <==> exists c :: c in out && c.ruleId == r)
  }

  /** Each carries what rendering its rule's template gave. */
  ghost predicate CarryRendered(db: Db, ev: Event, now: Instant, render: Renderer, out: seq<Continuation>) {
    forall c :: c in out ==>
      && c.ruleId in db.rules
      && Carries(c, db.rules[c.ruleId], ev, now, render(db.rules[c.ruleId].promptTemplate, ev))
  }

  /** The event is stored as first delivered, the rows are right, and sessions are left alone. */
  ghost predicate IngestedExactly(db: Db, db': Db, ev: Event, now: Instant, render: Renderer, out: seq<Continuation>) {
    && db'.events == (if ev.id in db.events then db.events else db.events[ev.id := ev])
    && db'.sessions == db.sessions
    && ReportsAdded(db, db', ev, now, out) && CarryRendered(db, ev, now, render, out)
  }

  lemma {:induction false} KeptMeans(rows: seq<string>, n: nat, fire: set<string>)
    requires n <= |rows| && forall i, j :: 0 <= i < j < |rows| ==> rows[i] != rows[j]
    ensures forall r :: r in Kept(rows, n, fire) <==> r in rows[..n] && r in fire
    ensures var kept := Kept(rows, n, fire); forall i, j :: 0 <= i < j < |kept| ==> kept[i] != kept[j]
  {
    if n == 0 {
    } else {
      KeptMeans(rows, n - 1, fire);
      assert rows[..n] == rows[..n - 1] + [rows[n - 1]];
      assert rows[n - 1] !in Kept(rows, n - 1, fire);
    }
  }

  /** Of the rules the query returned, exactly the firing ones are kept, each once. */
  ghost predicate KeepsEach(kept: seq<string>, fire: set<string>) {
    && (forall r :: r in kept <==> r in fire)
    && (forall i, j :: 0 <= i < j < |kept| ==> kept[i] != kept[j])
  }

  lemma AllKept(rows: seq<string>, rules: map<string, Rule>, ev: Event, now: Instant, fire: set<string>)
    requires Enumerates(rows, rules, ev, now) && forall r :: r in fire ==> r in rows
    ensures KeepsEach(Kept(rows, |rows|, fire), fire)
  {
    KeptMeans(rows, |rows|, fire);
    hide Kept;
    assert rows[..|rows|] == rows;
  }

  /** `rows` is what the ingest added, by id. */
  ghost predicate AddedRows(db: Db, db': Db, ev: Event, now: Instant, mint: map<string, Mint>,
                            rows: map<string, Continuation>)
  {
    && (forall id :: id in rows <==> id in db'.conts && id !in db.conts)
    && (forall id :: id in rows ==> rows[id] == db'.conts[id])
    && (forall id :: id in rows ==>
          && id in mint && rows[id].id == id && rows[id].ruleId == mint[id].ruleId
          && rows[id].ruleId in Firing(db, ev, now)
          && Carries(rows[id], db.rules[rows[id].ruleId], ev, now, mint[id].rendered))
  }

  lemma NewIdRows(db: Db, ev: Event, now: Instant, mint: map<string, Mint>)
    requires Keyed(db) && MintOk(db, ev, now, mint)
    ensures AddedRows(db, IngestDb(db, ev, now, mint), ev, now, mint,
                      RowsFor(db.rules, Firing(db, ev, now), ev, now, mint))
  {
    hide IngestDb, RowsFor, Firing, MintOk, Carries;
    IngestRowsAfter(db, ev, now, mint);
    var fire := Firing(db, ev, now);
    var rows, rules := RowsFor(db.rules, fire, ev, now, mint), db.rules;
    assert forall r :: r in rules ==> rules[r].id == r;
    hide Keyed;
    forall id | id in rows ensures id in mint && rows[id].id == id && rows[id].ruleId == mint[id].ruleId
      && rows[id].ruleId in fire && Carries(rows[id], rules[rows[id].ruleId], ev, now, mint[id].rendered)
    {
      RowCarries(rules, fire, ev, now, mint, id);
    }
  }

  /** The sequence lists exactly the rows of the map, one for each of the rules. */
  ghost predicate Lists(out: seq<Continuation>, fire: set<string>, rows: map<string, Continuation>) {
    && (forall c: Continuation :: c in out <==> c.id in rows && rows[c.id] == c)
    && (forall i, j :: 0 <= i < j < |out| ==> out[i].ruleId != out[j].ruleId)
    && (forall c :: c in out ==> c.ruleId in fire)
    && (forall r :: r in fire ==> exists c :: c in out && c.ruleId == r)
  }

  lemma ReportedMeans(db: Db, db': Db, ev: Event, now: Instant, mint: map<string, Mint>, out: seq<Continuation>,
                      kept: seq<string>, rows: map<string, Continuation>)
    requires Reported(out, kept, rows) && KeepsEach(kept, Firing(db, ev, now))
    requires AddedRows(db, db', ev, now, mint, rows) && MintOk(db, ev, now, mint)
    ensures Lists(out, Firing(db, ev, now), rows)
  {
    hide MintOk, Firing, Carries, KeepsEach, AddedRows, Reported, Lists;
    ListedOnce(out, kept, rows);
    forall c: Continuation | c.id in rows && rows[c.id] == c ensures c in out {
      ListedAll(db, db', ev, now, mint, out, kept, rows, c);
    }
    ListedFrom(out, kept, Firing(db, ev, now), rows);
  }

  lemma ListedFrom(out: seq<Continuation>, kept: seq<string>, fire: set<string>, rows: map<string, Continuation>)
    requires Reported(out, kept, rows) && KeepsEach(kept, fire)
    requires forall i :: 0 <= i < |out| ==> out[i].id in rows && rows[out[i].id] == out[i]
    requires forall c: Continuation :: c.id in rows && rows[c.id] == c ==> c in out
    ensures Lists(out, fire, rows)
  {
    forall r | r in fire ensures exists c :: c in out && c.ruleId == r {
      var i :| 0 <= i < |kept| && kept[i] == r;
      assert out[i] in out;
    }
  }

  lemma ListedOnce(out: seq<Continuation>, kept: seq<string>, rows: map<string, Continuation>)
    requires Reported(out, kept, rows)
    ensures forall i :: 0 <= i < |out| ==> out[i].id in rows && rows[out[i].id] == out[i]
  {
  }

  lemma ListedAll(db: Db, db': Db, ev: Event, now: Instant, mint: map<string, Mint>, out: seq<Continuation>,
                  kept: seq<string>, rows: map<string, Continuation>, c: Continuation)
    requires Reported(out, kept, rows) && KeepsEach(kept, Firing(db, ev, now))
    requires AddedRows(db, db', ev, now, mint, rows) && MintOk(db, ev, now, mint)
    requires c.id in rows && rows[c.id] == c
    ensures c in out
  {
    hide Firing, Carries;
    var i :| 0 <= i < |kept| && kept[i] == c.ruleId;
    assert out[i].id in rows && rows[out[i].id].ruleId == c.ruleId;
  }

  lemma ListedAdded(db: Db, db': Db, ev: Event, now: Instant, mint: map<string, Mint>, out: seq<Continuation>,
                    rows: map<string, Continuation>)
    requires Lists(out, Firing(db, ev, now), rows) && AddedRows(db, db', ev, now, mint, rows)
    ensures ReportsAdded(db, db', ev, now, out)
  {
    hide Firing, Fires, Carries;
    forall r ensures Fires(db, ev, now, r) <==> r in Firing(db, ev, now) {
      FiringMeans(db, ev, now, r);
    }
  }

  lemma ListedCarry(db: Db, db': Db, ev: Event, now: Instant, rows: seq<string>, drawn: map<string, string>,
                    render: Renderer, out: seq<Continuation>, added: map<string, Continuation>)
    requires Enumerates(rows, db.rules, ev, now) && Draws(drawn, rows, db.conts)
    requires Lists(out, Firing(db, ev, now), added)
    requires AddedRows(db, db', ev, now, MintsOf(db.rules, drawn, render, ev), added)
    ensures CarryRendered(db, ev, now, render, out)
  {
    MintsRender(db, ev, now, rows, drawn, render);
    hide Carries, Firing, MintsOf, Enumerates, Draws;
  }

  lemma MintsRender(db: Db, ev: Event, now: Instant, rows: seq<string>, drawn: map<string, string>, render: Renderer)
    requires Enumerates(rows, db.rules, ev, now) && Draws(drawn, rows, db.conts)
    ensures var mint := MintsOf(db.rules, drawn, render, ev);
      && (forall r :: r in Firing(db, ev, now) ==> r in rows)
      && (forall id :: id in mint ==>
            && mint[id].ruleId in db.rules
            && mint[id].rendered == render(db.rules[mint[id].ruleId].promptTemplate, ev))
  {
  }

  lemma IngestIsExact(db: Db, ev: Event, now: Instant, rows: seq<string>, drawn: map<string, string>, render: Renderer,
                      out: seq<Continuation>)
    requires Keyed(db) && Enumerates(rows, db.rules, ev, now) && Draws(drawn, rows, db.conts)
    requires MintOk(db, ev, now, MintsOf(db.rules, drawn, render, ev))
    requires Reported(out, Kept(rows, |rows|, Firing(db, ev, now)),
                      RowsFor(db.rules, Firing(db, ev, now), ev, now, MintsOf(db.rules, drawn, render, ev)))
    ensures IngestedExactly(db, IngestDb(db, ev, now, MintsOf(db.rules, drawn, render, ev)), ev, now, render, out)
  {
    hide *;
    var mint, fire := MintsOf(db.rules, drawn, render, ev), Firing(db, ev, now);
    var db', added := IngestDb(db, ev, now, mint), RowsFor(db.rules, fire, ev, now, mint);
    MintsRender(db, ev, now, rows, drawn, render);
    AllKept(rows, db.rules, ev, now, fire);
    NewIdRows(db, ev, now, mint);
    ReportedMeans(db, db', ev, now, mint, out, Kept(rows, |rows|, fire), added);
    ListedAdded(db, db', ev, now, mint, out, added);
    ListedCarry(db, db', ev, now, rows, drawn, render, out, added);
    IngestEvents(db, ev, now, mint);
    SessionsStay(db, ev, now, mint);
    Assembled(db, db', ev, now, render, out);
  }

  lemma Assembled(db: Db, db': Db, ev: Event, now: Instant, render: Renderer, out: seq<Continuation>)
    requires db'.events == (if ev.id in db.events then db.events else db.events[ev.id := ev])
    requires db'.sessions == db.sessions
    requires ReportsAdded(db, db', ev, now, out) && CarryRendered(db, ev, now, render, out)
    ensures IngestedExactly(db, db', ev, now, render, out)
  {
    hide ReportsAdded, CarryRendered;
  }

  lemma SessionsStay(db: Db, ev: Event, now: Instant, mint: map<string, Mint>)
    requires MintOk(db, ev, now, mint)
    ensures IngestDb(db, ev, now, mint).sessions == db.sessions
  {
  }

  lemma KeysStay(db: Db, ev: Event, now: Instant, mint: map<string, Mint>)
    requires MintOk(db, ev, now, mint)
    requires Keyed(db)
    ensures Keyed(IngestDb(db, ev, now, mint))
  {
    hide MintOk, Firing;
  }

  /** Where the transaction ends. */
  lemma Transaction(db: Db, ev: Event, now: Instant, rows: seq<string>, drawn: map<string, string>, render: Renderer)
    requires Keyed(db) && Enumerates(rows, db.rules, ev, now) && Draws(drawn, rows, db.conts)
    ensures var tx, mint := After(db, ev, now, rows, |rows|, drawn, render), MintsOf(db.rules, drawn, render, ev);
      && MintOk(db, ev, now, mint) && tx.db == IngestDb(db, ev, now, mint) && Keyed(tx.db)
      && Reported(tx.out, Kept(rows, |rows|, Firing(db, ev, now)),
                  RowsFor(db.rules, Firing(db, ev, now), ev, now, mint))
      && IngestedExactly(db, tx.db, ev, now, render, tx.out)
  {
    hide After, IngestDb, MintOk, Reported, RowsFor, Firing, Kept, MintsOf, NewRow, Fired, IngestedExactly, Enumerates,
         Draws;
    AnyRowOrder(db, ev, now, rows, drawn, render);
    IngestIsExact(db, ev, now, rows, drawn, render, After(db, ev, now, rows, |rows|, drawn, render).out);
    KeysStay(db, ev, now, MintsOf(db.rules, drawn, render, ev));
  }

  lemma TransactionStarts(db: Db, ev: Event, now: Instant, rows: seq<string>, drawn: map<string, string>,
                          render: Renderer)
    requires Keyed(db) && Enumerates(rows, db.rules, ev, now) && Draws(drawn, rows, db.conts)
    ensures forall r :: r in db.rules ==> db.rules[r].id == r
    ensures After(db, ev, now, rows, 0, drawn, render) ==
      Tx(if ev.id in db.events then db else db.(events := db.events[ev.id := ev]), [])
  {
  }

  lemma OfferIs(tx: Tx, r: Rule, c: Continuation)
    ensures Offer(tx, r, c) == if Fired(tx.db.conts, c.ruleId, c.eventId) then tx else
      Tx(tx.db.(conts := tx.db.conts[c.id := c],
                rules := if r.oneShot then tx.db.rules[r.id := r.(consumed := true)] else tx.db.rules),
         tx.out + [c])
  {
  }

  class Store {
    var events: map<string, Event>
    var rules: map<string, Rule>
    var sessions: map<string, Session>
    var continuations: map<string, Continuation>

    ghost function View(): Db
      reads this
    {
      Db(events, rules, sessions, continuations)
    }

    ghost predicate Valid()
      reads this
    {
      Keyed(View())
    }

    constructor ()
      ensures Valid() && View() == Db(map[], map[], map[], map[])
    {
      events, rules, sessions, continuations := map[], map[], map[], map[];
    }

    /** INSERT OR IGNORE of a rule's row; if it went in, a one-shot rule is consumed with it. */
    method InsertOrIgnore(r: Rule, c: Continuation) returns (inserted: bool)
      modifies this
      ensures inserted <==> !Fired(old(continuations), c.ruleId, c.eventId)
      ensures View() == if !inserted then old(View()) else
        Db(old(events), if r.oneShot then old(rules)[r.id := r.(consumed := true)] else old(rules), old(sessions),
           old(continuations)[c.id := c])
    {
      inserted := !Fired(continuations, c.ruleId, c.eventId);
      if inserted {
        continuations := continuations[c.id := c];
        if r.oneShot {
          rules := rules[r.id := r.(consumed := true)];
        }
      }
    }

    /**
     The outbox transaction. Whatever order the rule query returns its rows in, the new state
     is the one `IngestDb` gives; only the order of the reported continuations follows the query.
     */
    method Ingest(ev: Event, now: Instant, rows: seq<string>, drawn: map<string, string>, render: Renderer)
      returns (res: Result<seq<Continuation>>)
      requires Valid()
      requires Enumerates(rows, rules, ev, now) && Draws(drawn, rows, continuations)
      modifies this
      ensures Valid()
      ensures ev.id == "" ==> res.Err? && View() == old(View())
      ensures ev.id != "" ==>
        var mint := MintsOf(old(rules), drawn, render, ev);
        && MintOk(old(View()), ev, now, mint)
        && View() == IngestDb(old(View()), ev, now, mint)
        && res.Ok?
        && Reported(res.value, Kept(rows, |rows|, Firing(old(View()), ev, now)),
                    RowsFor(old(rules), Firing(old(View()), ev, now), ev, now, mint))
      ensures ev.id != "" ==> IngestedExactly(old(View()), View(), ev, now, render, res.value)
    {
      hide After, IngestDb, MintOk, Reported, RowsFor, Firing, Kept, MintsOf, Fired, IngestedExactly, Keyed, Enumerates,
           Draws, Candidate, Offer;
      if ev.id == "" {
        return Err("store: event id is required");
      }
      ghost var db := View();
      var matched := rules;
      if ev.id !in events {
        events := events[ev.id := ev];
      }
      var out: seq<Continuation> := [];
      var n := 0;
      TransactionStarts(db, ev, now, rows, drawn, render);
      assert After(db, ev, now, rows, 0, drawn, render) == Tx(View(), out);
      Transaction(db, ev, now, rows, drawn, render);
      while n < |rows|
        invariant n <= |rows|
        invariant After(db, ev, now, rows, n, drawn, render) == Tx(View(), out)
      {
        AfterNext(db, ev, now, rows, n + 1, drawn, render);
        ghost var tx := Tx(View(), out);
        var r := matched[rows[n]];
        var c := Candidate(r, ev, now, drawn, render);
        var inserted := InsertOrIgnore(r, c);
        if inserted {
          out := out + [c];
        }
        OfferIs(tx, r, c);
        assert Tx(View(), out) == Offer(tx, r, c);
        n := n + 1;
      }
      res := Ok(out);
    }

    method ClaimContinuation(id: string, now: Instant) returns (claimed: bool)
      requires Valid()
      modifies this
      ensures Valid() && View() == ClaimDb(old(View()), id, now)
      ensures claimed <==> id in old(continuations) && old(continuations)[id].state.Pending?
      ensures events == old(events) && rules == old(rules) && sessions == old(sessions)
      ensures continuations == if !claimed then old(continuations) else
        old(continuations)[id := old(continuations)[id].(state := Running, updatedAt := now)]
    {
      claimed := id in continuations && continuations[id].state.Pending?;
      if claimed {
        continuations := continuations[id := continuations[id].(state := Running, updatedAt := now)];
      }
    }

    method UpdateContinuationResult(id: string, v: Verdict, now: Instant)
      requires Valid()
      modifies this
      ensures Valid() && View() == RecordDb(old(View()), id, v, now)
      ensures events == old(events) && rules == old(rules) && sessions == old(sessions)
      ensures continuations == if id !in old(continuations) then old(continuations) else
        old(continuations)[id := old(continuations)[id].(
          state := v.state, command := v.command, exitCode := v.exitCode, outputSummary := v.summary, updatedAt := now)]
    {
      if id in continuations {
        continuations := continuations[id := Finish(continuations[id], v, now)];
      }
    }

    /** Boot recovery; reports how many orphaned rows went back to the queue. */
    method ResetRunningContinuations(now: Instant) returns (n: nat)
      requires Valid()
      modifies this
      ensures Valid() && View() == ResetDb(old(View()), now)
      ensures n == |set id | id in old(continuations) && old(continuations)[id].state.Running?|
      ensures events == old(events) && rules == old(rules) && sessions == old(sessions)
      ensures continuations.Keys == old(continuations).Keys
      ensures forall id :: id in continuations ==> continuations[id] == var c := old(continuations)[id];
        if c.state == Running then c.(state := Pending, updatedAt := now) else c
    {
      n := |set id | id in continuations && continuations[id].state.Running?|;
      continuations := map id | id in continuations :: ResetRow(continuations[id], now);
    }

    /** The oldest pending row of a session, if it has any. */
    method NextPendingForSession(s: string) returns (next: Option<Continuation>)
      requires Valid()
      ensures next.None? <==> !HasPending(View(), s)
      ensures next.Some? ==> IsOldestPending(View(), s, next.value.id) && View().conts[next.value.id] == next.value
      ensures next.None? ==>
        forall id :: id in continuations && continuations[id].sessionId == s ==> continuations[id].state != Pending
      ensures next.Some? ==>
        next.value in continuations.Values && next.value.sessionId == s && next.value.state == Pending
      ensures next.Some? ==> forall id :: id in continuations && id != next.value.id ==>
        var c := continuations[id];
        c.sessionId == s && c.state == Pending ==>
          next.value.createdAt < c.createdAt || (next.value.createdAt == c.createdAt && Lex.Less(next.value.id, c.id))
    {
      next := None;
      var todo := continuations.Keys;
      while todo != {}
        invariant todo <= continuations.Keys
        invariant next.None? ==> forall j :: IsPending(View(), s, j) ==> j in todo
        invariant next.Some? ==>
          && IsPending(View(), s, next.value.id) && continuations[next.value.id] == next.value
          && forall j :: IsPending(View(), s, j) && j !in todo && j != next.value.id
               ==> Before(next.value, continuations[j])
        decreases |todo|
      {
        var id :| id in todo;
        todo := todo - {id};
        var c := continuations[id];
        if c.sessionId == s && c.state.Pending? && (next.None? || Before(c, next.value)) {
          if next.Some? {
            forall j | IsPending(View(), s, j) && j !in todo && j != id ensures Before(c, continuations[j]) {
              if j != next.value.id {
                BeforeTransitive(c, next.value, continuations[j]);
              }
            }
          }
          next := Some(c);
        } else if next.Some? && IsPending(View(), s, id) && id != next.value.id {
          BeforeTotal(c, next.value);
        }
      }
      assert forall id :: id in continuations && continuations[id].sessionId == s ==>
        (continuations[id].state == Pending ==> IsPending(View(), s, id));
    }

    /** A rule-less continuation; its synthetic ids keep the uniqueness constraint satisfied. */
    method InsertManualContinuation(s: string, prompt: string, now: Instant,
                                    id: string, ruleId: string, eventId: string)
      returns (c: Continuation)
      requires Valid() && id !in continuations
      modifies this
      ensures Valid() && c == ManualRow(id, ruleId, eventId, s, prompt, now)
      ensures View() == InsertDb(old(View()), c) && IsPending(View(), s, id)
      ensures events == old(events) && rules == old(rules) && sessions == old(sessions)
      ensures continuations == old(continuations)[id := c]
      ensures c.id == id && c.ruleId == ruleId && c.eventId == eventId && c.sessionId == s && c.prompt == prompt
      ensures c.tag == "manual" && c.state == Pending && c.createdAt == now && c.updatedAt == now
      ensures c.command == "" && c.exitCode == None && c.outputSummary == ""
    {
      c := ManualRow(id, ruleId, eventId, s, prompt, now);
      continuations := continuations[id := c];
    }

    /** Assigns missing fields; a taken id violates the primary key and changes nothing. */
    method AddRule(r: Rule, freshId: string, now: Instant) returns (res: Result<Rule>)
      requires Valid() && freshId != ""
      modifies this
      ensures Valid()
      ensures var stored := r.(
          id := if r.id == "" then freshId else r.id,
          actionKind := if r.actionKind == "" then ACTION_CONTINUE_SESSION else r.actionKind,
          consumed := false, createdAt := now);
        if stored.id in old(rules)
        then res.Err? && View() == old(View())
        else res == Ok(stored) && View() == AddRuleDb(old(View()), stored)
      ensures events == old(events) && sessions == old(sessions) && continuations == old(continuations)
      ensures res.Ok? ==> rules == old(rules)[res.value.id := res.value]
    {
      var stored := r;
      if stored.id == "" {
        stored := stored.(id := freshId);
      }
      if stored.actionKind == "" {
        stored := stored.(actionKind := ACTION_CONTINUE_SESSION);
      }
      stored := stored.(consumed := false, createdAt := now);
      if stored.id in rules {
        return Err("UNIQUE constraint failed: rules.id");
      }
      rules := rules[stored.id := stored];
      res := Ok(stored);
    }

    method RemoveRule(id: string)
      requires Valid()
      modifies this
      ensures Valid() && View() == RemoveRuleDb(old(View()), id)
      ensures events == old(events) && sessions == old(sessions) && continuations == old(continuations)
      ensures forall r :: r in rules <==> r in old(rules) && r != id
      ensures forall r :: r in rules ==> rules[r] == old(rules)[r]
    {
      rules := rules - {id};
    }

    /** Upsert; the answer is re-read from the table. */
    method RegisterSession(s: Session, now: Instant) returns (stored: Session)
      requires Valid()
      modifies this
      ensures Valid() && View() == RegisterDb(old(View()), s, now)
      ensures s.sessionId in sessions && stored == sessions[s.sessionId]
      ensures s.sessionId in old(sessions) ==>
        stored.state == old(sessions)[s.sessionId].state && stored.createdAt == old(sessions)[s.sessionId].createdAt
      ensures s.sessionId !in old(sessions) ==>
        stored.state == (if s.state.Unset? then Waiting else s.state) && stored.createdAt == now
      ensures stored.sessionId == s.sessionId && stored.agent == s.agent && stored.repoPath == s.repoPath
      ensures stored.updatedAt == now && sessions == old(sessions)[s.sessionId := stored]
      ensures events == old(events) && rules == old(rules) && continuations == old(continuations)
    {
      if s.sessionId in sessions {
        sessions := sessions[s.sessionId :=
          sessions[s.sessionId].(agent := s.agent, repoPath := s.repoPath, updatedAt := now)];
      } else {
        var state := if s.state.Unset? then Waiting else s.state;
        sessions := sessions[s.sessionId := s.(state := state, createdAt := now, updatedAt := now)];
      }
      stored := sessions[s.sessionId];
    }

    method SetSessionState(id: string, st: SessionState, now: Instant)
      requires Valid()
      modifies this
      ensures Valid() && View() == SetSessionDb(old(View()), id, st, now)
      ensures events == old(events) && rules == old(rules) && continuations == old(continuations)
      ensures sessions == if id !in old(sessions) then old(sessions) else
        old(sessions)[id := old(sessions)[id].(state := st, updatedAt := now)]
    {
      if id in sessions {
        sessions := sessions[id := sessions[id].(state := st, updatedAt := now)];
      }
    }

    /** One retention transaction; reports how many rows each of its three deletions removed. */
    method Sweep(now: Instant, p: RetentionPolicy) returns (ses: nat, con: nat, evs: nat)
      requires Valid()
      modifies this
      ensures Valid() && View() == SweepDb(old(View()), now, p)
      ensures ses + |sessions| == |old(sessions)|
      ensures con + |continuations| == |old(continuations)|
      ensures evs + |events| == |old(events)|
      ensures SweptExactly(old(View()), View(), now, p)
    {
      var db := Db(events, rules, sessions, continuations);
      var idle, finished, stale := IdleSessions(db, now, p), ExpiredRows(db, now, p), StaleEvents(db, now, p);
      SweepOutcome(db, now, p);
      hide SweptExactly, SweepDb, Keyed, IdleSessions, ExpiredRows, StaleEvents;
      ses, sessions := Dropped(sessions, idle), sessions - idle;
      con, continuations := Dropped(continuations, finished), continuations - finished;
      evs, events := Dropped(events, stale), events - stale;
    }
  }

  function IdleSessions(db: Db, now: Instant, p: RetentionPolicy): (r: set<string>)
    ensures r <= db.sessions.Keys
  {
    set s | s in db.sessions && SessionExpired(db, s, now, p)
  }

  function ExpiredRows(db: Db, now: Instant, p: RetentionPolicy): (r: set<string>)
    ensures r <= db.conts.Keys
  {
    set id | id in db.conts && RowExpired(db.conts[id], now, p)
  }

  function StaleEvents(db: Db, now: Instant, p: RetentionPolicy): (r: set<string>)
    ensures r <= db.events.Keys
  {
    set e | e in db.events && db.events[e].timestamp < now - p.eventAge
  }

  lemma SweepDeletes(db: Db, now: Instant, p: RetentionPolicy)
    ensures SweepDb(db, now, p) ==
      Db(db.events - StaleEvents(db, now, p), db.rules, db.sessions - IdleSessions(db, now, p),
         db.conts - ExpiredRows(db, now, p))
  {
    var db' := SweepDb(db, now, p);
    assert db'.events == db.events - StaleEvents(db, now, p);
    assert db'.sessions == db.sessions - IdleSessions(db, now, p);
    assert db'.conts == db.conts - ExpiredRows(db, now, p);
  }

  lemma SweepOutcome(db: Db, now: Instant, p: RetentionPolicy)
    requires Keyed(db)
    ensures SweepDb(db, now, p) ==
      Db(db.events - StaleEvents(db, now, p), db.rules, db.sessions - IdleSessions(db, now, p),
         db.conts - ExpiredRows(db, now, p))
    ensures SweptExactly(db, SweepDb(db, now, p), now, p) && Keyed(SweepDb(db, now, p))
  {
    SweepDeletes(db, now, p);
    SweepIsExact(db, now, p);
    hide SweptExactly, SessionExpired, RowExpired;
  }

  function Dropped<T>(m: map<string, T>, gone: set<string>): (n: nat)
    requires gone <= m.Keys
    ensures n + |m - gone| == |m|
  {
    assert (m - gone).Keys == m.Keys - gone;
    assert |m.Keys - gone| == |m.Keys| - |gone|;
    assert |(m - gone).Keys| == |m - gone| && |m.Keys| == |m|;
    |gone|
  }
}
