/**
 Every interleaving of commits, retries after unknown outcomes, crashes, pruning
 and partly failing deliveries: each event is counted once in the analytics and
 once in the ledger, and an event owed to the ledger is never silently lost.
 */
module UsageDelivery {
  import opened UsageOutbox

  /** One run of the outbox flush between its read and its delete. */
  datatype Flush = Peeked(rows: seq<Row>) | Written(rows: seq<Row>)

  /** `since` remembers how long the log was when a model's row was created,
      `inflight` whether a request's own write has committed, `owed` the events
      committed with the sidecar on, `pruned` those dropped at the outbox cap and
      `crashed` those whose write was unfinished when the process died. */
  datatype World = World(
    usage: seq<Entry>,
    models: map<Alias, Totals>,
    since: map<Alias, nat>,
    outbox: Outbox,
    ledger: seq<Entry>,
    retry: seq<Entry>,
    inflight: map<EventId, bool>,
    flushes: map<nat, Flush>,
    sidecar: bool,
    issued: map<EventId, Entry>,
    owed: set<EventId>,
    pruned: set<EventId>,
    crashed: set<EventId>)

  datatype Step =
    | Issue(entry: Entry)
    | Commit(id: EventId)
    | Settle(id: EventId, ok: bool)
    | FlushRetry(committed: bool, ok: bool)
    | Crash
    | SetSidecar(on: bool)
    | AddModel(alias: Alias)
    | DropModel(alias: Alias)
    | PruneOutbox(keep: int)
    | PeekOutbox(task: nat, limit: int)
    | WriteLedger(task: nat, inserted: seq<Entry>, ok: bool)
    | DeleteRows(task: nat)

  function Begin(sidecar: bool): World {
    World([], map[], map[], Outbox([], 0), [], [], map[], map[], sidecar, map[], {}, {}, {})
  }

  function IdsOf(es: seq<Entry>): set<EventId> { set e | e in es :: e.id }

  /** One committed transaction over a batch. */
  function Committed(w: World, es: seq<Entry>): World {
    var usage := InsertAll(w.usage, es);
    InsertAllExtends(w.usage, es);
    w.(usage := usage,
       models := Credit(w.models, usage, |w.usage|),
       outbox := if w.sidecar then EnqueueAll(w.outbox, es) else w.outbox,
       owed := if w.sidecar then w.owed + IdsOf(es) else w.owed)
  }

  function RowIds(rows: seq<Row>): set<nat> { set r | r in rows :: r.row }

  function Issued(w: World, entry: Entry): World {
    w.(issued := w.issued[entry.id := entry], inflight := w.inflight[entry.id := false])
  }

  function SettledWrite(w: World, id: EventId, ok: bool): World
    requires id in w.issued
  {
    var left := w.(inflight := w.inflight - {id});
    if ok then left else left.(retry := Insert(w.retry, w.issued[id]))
  }

  function Retried(w: World, committed: bool, ok: bool): World {
    var after := if committed then Committed(w, w.retry) else w;
    if ok then after.(retry := []) else after
  }

  function Crashed(w: World): World {
    w.(retry := [], inflight := map[], flushes := map[], crashed := w.crashed + w.inflight.Keys + IdsOf(w.retry))
  }

  function ModelAdded(w: World, alias: Alias): World {
    w.(models := w.models[alias := Totals(0, 0)], since := w.since[alias := |w.usage|])
  }

  function ModelDropped(w: World, alias: Alias): World {
    w.(models := w.models - {alias}, since := w.since - {alias})
  }

  function Pruned(w: World, keep: int): World {
    var kept := Prune(w.outbox, keep);
    w.(outbox := kept, pruned := w.pruned + (IdsOf(Entries(w.outbox.rows)) - IdsOf(Entries(kept.rows))))
  }

  function Read(w: World, task: nat, limit: int): World {
    w.(flushes := w.flushes[task := Peeked(Peek(w.outbox, limit))])
  }

  function Delivered(w: World, task: nat, inserted: seq<Entry>, ok: bool): World
    requires task in w.flushes
  {
    w.(ledger := InsertAll(w.ledger, inserted),
       flushes := if ok then w.flushes[task := Written(w.flushes[task].rows)] else w.flushes - {task})
  }

  function Deleted(w: World, task: nat): World
    requires task in w.flushes
  {
    w.(outbox := w.outbox.(rows := Without(w.outbox.rows, RowIds(w.flushes[task].rows))),
       flushes := w.flushes - {task})
  }

  predicate Writable(w: World, task: nat, inserted: seq<Entry>, ok: bool) {
    && task in w.flushes && w.flushes[task].Peeked?
    && (forall e :: e in inserted ==> e in Entries(w.flushes[task].rows))
    && (ok ==> inserted == Entries(w.flushes[task].rows))
  }

  predicate Enabled(w: World, s: Step) {
    match s
    case Issue(entry) => entry.id !in w.issued
    case Commit(id) => id in w.inflight && !w.inflight[id] && id in w.issued
    case Settle(id, ok) => id in w.inflight && id in w.issued && (ok ==> w.inflight[id])
    case FlushRetry(committed, ok) => ok ==> committed
    case Crash => true
    case SetSidecar(_) => true
    case AddModel(alias) => alias !in w.models && alias != Unnamed
    case DropModel(alias) => alias in w.models
    case PruneOutbox(_) => true
    case PeekOutbox(task, _) => task !in w.flushes
    case WriteLedger(task, inserted, ok) => Writable(w, task, inserted, ok)
    case DeleteRows(task) => task in w.flushes && w.flushes[task].Written?
  }

  function Apply(w: World, s: Step): World
    requires Enabled(w, s)
  {
    match s
    case Issue(entry) => Issued(w, entry)
    case Commit(id) => Committed(w, [w.issued[id]]).(inflight := w.inflight[id := true])
    case Settle(id, ok) => SettledWrite(w, id, ok)
    case FlushRetry(committed, ok) => Retried(w, committed, ok)
    case Crash => Crashed(w)
    case SetSidecar(on) => w.(sidecar := on)
    case AddModel(alias) => ModelAdded(w, alias)
    case DropModel(alias) => ModelDropped(w, alias)
    case PruneOutbox(keep) => Pruned(w, keep)
    case PeekOutbox(task, limit) => Read(w, task, limit)
    case WriteLedger(task, inserted, ok) => Delivered(w, task, inserted, ok)
    case DeleteRows(task) => Deleted(w, task)
  }

  // ----- tables that insert with "on conflict do nothing"

  lemma {:induction false} InsertAllExtends(table: seq<Entry>, es: seq<Entry>)
    ensures table <= InsertAll(table, es)
    decreases |es|
  {
    if es != [] { InsertAllExtends(Insert(table, es[0]), es[1..]); }
  }

  lemma {:induction false} InsertAllDistinct(table: seq<Entry>, es: seq<Entry>)
    requires DistinctIds(table)
    ensures DistinctIds(InsertAll(table, es))
    decreases |es|
  {
    if es != [] {
      var next := Insert(table, es[0]);
      assert DistinctIds(next) by {
        if !Known(table, es[0].id) {
          forall i | 0 <= i < |table| ensures table[i].id != es[0].id { assert table[i] in table; }
        }
      }
      InsertAllDistinct(next, es[1..]);
    }
  }

  lemma {:induction false} InsertAllMembers(table: seq<Entry>, es: seq<Entry>, e: Entry)
    ensures e in InsertAll(table, es) ==> e in table || e in es
    ensures e in table ==> e in InsertAll(table, es)
    ensures e in es ==> Has(InsertAll(table, es), e.id)
    decreases |es|
  {
    if es != [] {
      var next := Insert(table, es[0]);
      InsertAllMembers(next, es[1..], e);
      if e == es[0] {
        var held :| held in next && held.id == e.id;
        InsertAllMembers(next, es[1..], held);
      }
    }
  }

  // ----- the invariant

  /** Every copy of an event is the event that was issued under its id. */
  ghost predicate Genuine(w: World, es: seq<Entry>) {
    forall e :: e in es ==> e.id in w.issued && w.issued[e.id] == e
  }

  ghost predicate Tables(w: World) {
    && DistinctIds(w.usage) && DistinctIds(w.ledger) && DistinctIds(w.retry)
    && Genuine(w, w.usage) && Genuine(w, w.ledger) && Genuine(w, w.retry) && Genuine(w, Entries(w.outbox.rows))
    && (forall id :: id in w.issued ==> w.issued[id].id == id)
  }

  /** Row ids grow and are never used twice, so a flush deletes only what it read. */
  ghost predicate Rows(w: World) {
    && DistinctIds(Entries(w.outbox.rows))
    && (forall i, j :: 0 <= i < j < |w.outbox.rows| ==> w.outbox.rows[i].row < w.outbox.rows[j].row)
    && (forall r :: r in w.outbox.rows ==> r.row < w.outbox.next)
    && (forall k, r :: k in w.flushes && r in w.flushes[k].rows ==>
          && r.row < w.outbox.next && r.entry.id in w.issued && w.issued[r.entry.id] == r.entry
          && (forall q :: q in w.outbox.rows && q.row == r.row ==> q == r)
          && (w.flushes[k].Written? ==> Has(w.ledger, r.entry.id)))
  }

  /** A model's totals are the sums over the distinct events of its lifetime. */
  ghost predicate TotalsMatch(models: map<Alias, Totals>, since: map<Alias, nat>, log: seq<Entry>) {
    && models.Keys == since.Keys && Unnamed !in models
    && (forall a :: a in models ==> since[a] <= |log| && Earned(models[a], log, since[a], a))
  }

  ghost predicate TotalsExact(w: World) { TotalsMatch(w.models, w.since, w.usage) }

  ghost predicate Settled(w: World, id: EventId) {
    Has(Entries(w.outbox.rows), id) || Has(w.ledger, id) || id in w.pruned
  }

  ghost predicate NothingLost(w: World) {
    && (forall id :: id in w.owed ==> Has(w.usage, id) && Settled(w, id))
    && (forall id :: id in w.inflight && w.inflight[id] ==> Has(w.usage, id))
    && (forall id :: id in w.issued ==> Has(w.usage, id) || id in w.inflight || Has(w.retry, id) || id in w.crashed)
  }

  ghost predicate Inv(w: World) { Tables(w) && Rows(w) && TotalsExact(w) && NothingLost(w) }

  lemma BeginHolds(sidecar: bool)
    ensures Inv(Begin(sidecar))
  {
  }

  // ----- committing a batch

  lemma {:induction false} SumSplits(log: seq<Entry>, lo: nat, mid: nat, hi: nat, alias: Alias, kind: Kind)
    requires lo <= mid <= hi <= |log|
    ensures Sum(log, lo, hi, alias, kind) == Sum(log, lo, mid, alias, kind) + Sum(log, mid, hi, alias, kind)
    decreases hi
  {
    if hi > mid { SumSplits(log, lo, mid, hi - 1, alias, kind); }
  }

  lemma CreditOne(models: map<Alias, Totals>, since: nat, log: seq<Entry>, longer: seq<Entry>, a: Alias)
    requires a in models && a != Unnamed && Earned(models[a], log, since, a)
    requires since <= |log| <= |longer| && forall i :: 0 <= i < |log| ==> log[i] == longer[i]
    ensures Earned(Credit(models, longer, |log|)[a], longer, since, a)
  {
    SumOfPrefix(log, longer, since, |log|, a, Prompt);
    SumOfPrefix(log, longer, since, |log|, a, Completion);
    SumSplits(longer, since, |log|, |longer|, a, Prompt);
    SumSplits(longer, since, |log|, |longer|, a, Completion);
  }

  lemma CreditMatches(models: map<Alias, Totals>, since: map<Alias, nat>, log: seq<Entry>, longer: seq<Entry>)
    requires TotalsMatch(models, since, log) && |log| <= |longer| && forall i :: 0 <= i < |log| ==> log[i] == longer[i]
    ensures TotalsMatch(Credit(models, longer, |log|), since, longer)
  {
    var credited := Credit(models, longer, |log|);
    forall a | a in credited ensures since[a] <= |longer| && Earned(credited[a], longer, since[a], a) {
      CreditOne(models, since[a], log, longer, a);
    }
  }

  lemma CommitTables(w: World, es: seq<Entry>)
    requires Tables(w) && Genuine(w, es)
    ensures Tables(Committed(w, es).(outbox := w.outbox))
    ensures forall id :: Has(w.usage, id) || id in IdsOf(es) ==> Has(InsertAll(w.usage, es), id)
  {
    InsertAllDistinct(w.usage, es);
    forall e ensures e in InsertAll(w.usage, es) ==> e in w.usage || e in es {
      InsertAllMembers(w.usage, es, e);
    }
    forall id | Has(w.usage, id) || id in IdsOf(es) ensures Has(InsertAll(w.usage, es), id) {
      var e :| (e in w.usage || e in es) && e.id == id;
      InsertAllMembers(w.usage, es, e);
    }
  }

  lemma EnqueueOne(w: World, e: Entry)
    requires Rows(w) && Genuine(w, Entries(w.outbox.rows)) && e.id in w.issued && w.issued[e.id] == e
    ensures var v := w.(outbox := Enqueue(w.outbox, e));
      && Rows(v) && Genuine(v, Entries(v.outbox.rows))
      && Has(Entries(v.outbox.rows), e.id)
      && forall id :: Has(Entries(w.outbox.rows), id) ==> Has(Entries(v.outbox.rows), id)
  {
    var o := w.outbox;
    var p := Enqueue(o, e);
    if !Known(Entries(o.rows), e.id) {
      assert Entries(p.rows) == Entries(o.rows) + [e];
      assert e in Entries(p.rows);
      forall i | 0 <= i < |o.rows| ensures Entries(o.rows)[i].id != e.id {
        assert Entries(o.rows)[i] in Entries(o.rows);
      }
      forall id | Has(Entries(o.rows), id) ensures Has(Entries(p.rows), id) {
        var f :| f in Entries(o.rows) && f.id == id;
        assert f in Entries(p.rows);
      }
    }
  }

  lemma {:induction false} EnqueueMany(w: World, es: seq<Entry>)
    requires Rows(w) && Genuine(w, Entries(w.outbox.rows)) && Genuine(w, es)
    ensures var v := w.(outbox := EnqueueAll(w.outbox, es));
      && Rows(v) && Genuine(v, Entries(v.outbox.rows))
      && forall id :: Has(Entries(w.outbox.rows), id) || id in IdsOf(es) ==> Has(Entries(v.outbox.rows), id)
    decreases |es|
  {
    if es == [] {
      assert w.(outbox := w.outbox) == w;
    } else {
      EnqueueOne(w, es[0]);
      var u := w.(outbox := Enqueue(w.outbox, es[0]));
      EnqueueMany(u, es[1..]);
      assert u.(outbox := EnqueueAll(u.outbox, es[1..])) == w.(outbox := EnqueueAll(w.outbox, es));
      assert forall e :: e in es ==> e == es[0] || e in es[1..];
    }
  }

  lemma CommitSettles(w: World, es: seq<Entry>)
    requires NothingLost(w)
    requires forall id :: Has(w.usage, id) || id in IdsOf(es) ==> Has(InsertAll(w.usage, es), id)
    requires forall id :: Has(Entries(w.outbox.rows), id) || id in IdsOf(es) ==>
      Has(Entries(EnqueueAll(w.outbox, es).rows), id)
    ensures NothingLost(Committed(w, es))
  {
  }

  lemma CommitTotals(w: World, es: seq<Entry>)
    requires TotalsExact(w)
    ensures TotalsExact(Committed(w, es))
  {
    InsertAllExtends(w.usage, es);
    CreditMatches(w.models, w.since, w.usage, InsertAll(w.usage, es));
  }

  lemma CommitRows(w: World, es: seq<Entry>)
    requires Rows(w) && Genuine(w, Entries(w.outbox.rows)) && Genuine(w, es)
    ensures Rows(Committed(w, es)) && Genuine(w, Entries(Committed(w, es).outbox.rows))
    ensures forall id :: Has(Entries(w.outbox.rows), id) || id in IdsOf(es) ==>
      Has(Entries(EnqueueAll(w.outbox, es).rows), id)
  {
    EnqueueMany(w, es);
    RowsFrame(if w.sidecar then w.(outbox := EnqueueAll(w.outbox, es)) else w, Committed(w, es));
  }

  lemma RowsFrame(w: World, v: World)
    requires Rows(w) && v.outbox == w.outbox && v.flushes == w.flushes && v.issued == w.issued && v.ledger == w.ledger
    ensures Rows(v)
  {
  }

  lemma CommitKeeps(w: World, es: seq<Entry>)
    requires Inv(w) && Genuine(w, es)
    ensures Inv(Committed(w, es))
    ensures forall id :: id in IdsOf(es) ==> Has(Committed(w, es).usage, id)
  {
    CommitTables(w, es);
    CommitTotals(w, es);
    CommitRows(w, es);
    CommitSettles(w, es);
  }

  // ----- the other steps

  lemma {:induction false} WithoutMembers(rows: seq<Row>, ids: set<nat>, r: Row)
    ensures r in Without(rows, ids) <==> r in rows && r.row !in ids
  {
    if rows != [] { WithoutMembers(rows[1..], ids, r); }
  }

  /** Dropping rows keeps the order and the distinctness of those that stay. */
  ghost predicate Thinner(rows: seq<Row>, fewer: seq<Row>) {
    && (forall r :: r in fewer ==> r in rows)
    && (forall i, j :: 0 <= i < j < |fewer| ==> fewer[i].row < fewer[j].row && fewer[i].entry.id != fewer[j].entry.id)
  }

  lemma {:induction false} WithoutIsThinner(rows: seq<Row>, ids: set<nat>)
    requires Thinner(rows, rows)
    ensures Thinner(rows, Without(rows, ids))
  {
    if rows != [] {
      assert Thinner(rows[1..], rows[1..]);
      WithoutIsThinner(rows[1..], ids);
      ThinnerCons(rows, Without(rows[1..], ids));
    }
  }

  lemma ThinnerCons(rows: seq<Row>, rest: seq<Row>)
    requires rows != [] && Thinner(rows, rows) && Thinner(rows[1..], rest)
    ensures Thinner(rows, rest) && Thinner(rows, [rows[0]] + rest)
  {
    forall i | 0 <= i < |rest| ensures rows[0].row < rest[i].row && rows[0].entry.id != rest[i].entry.id {
      assert rest[i] in rest;
      var j :| 0 <= j < |rows[1..]| && rows[1..][j] == rest[i];
      assert rows[j + 1] == rest[i];
    }
  }

  lemma RowsThin(w: World, fewer: seq<Row>)
    requires Rows(w) && Genuine(w, Entries(w.outbox.rows)) && Thinner(w.outbox.rows, fewer)
    ensures var v := w.(outbox := w.outbox.(rows := fewer)); Rows(v) && Genuine(v, Entries(fewer))
  {
    forall e | e in Entries(fewer) ensures e.id in w.issued && w.issued[e.id] == e {
      var i :| 0 <= i < |fewer| && fewer[i].entry == e;
      EntryOfRow(w.outbox.rows, fewer[i]);
    }
  }

  lemma EntryOfRow(rows: seq<Row>, r: Row)
    requires r in rows
    ensures r.entry in Entries(rows) && Has(Entries(rows), r.entry.id)
  {
    var i :| 0 <= i < |rows| && rows[i] == r;
    assert Entries(rows)[i] == r.entry;
  }

  lemma PruneIsThinner(o: Outbox, keep: int)
    requires Thinner(o.rows, o.rows)
    ensures Thinner(o.rows, Prune(o, keep).rows)
  {
    var k := if keep < 0 then 0 else keep;
    var kept := Prune(o, keep).rows;
    if |o.rows| > k {
      assert forall i :: 0 <= i < |kept| ==> kept[i] == o.rows[|o.rows| - k + i];
    }
  }

  lemma CutByAge(rows: seq<Row>, cut: nat, early: Row, late: Row)
    requires forall i, j :: 0 <= i < j < |rows| ==> rows[i].row < rows[j].row
    requires cut <= |rows| && early in rows[..cut] && late in rows[cut..]
    ensures early in rows && late in rows && early.row < late.row
  {
    var i :| 0 <= i < cut && rows[i] == early;
    var j :| 0 <= j < |rows[cut..]| && rows[cut..][j] == late;
    assert rows[cut + j] == late;
  }

  lemma OnOneSide(rows: seq<Row>, cut: nat, r: Row)
    requires cut <= |rows| && r in rows
    ensures r in rows[..cut] || r in rows[cut..]
  {
    assert rows == rows[..cut] + rows[cut..];
  }

  /** Pruning keeps as many rows as allowed, and drops only rows older than all it keeps. */
  lemma PruneDropsOldest(o: Outbox, keep: int, gone: Row, kept: Row)
    requires forall i, j :: 0 <= i < j < |o.rows| ==> o.rows[i].row < o.rows[j].row
    ensures |Prune(o, keep).rows| == if keep < 0 then 0 else if keep < |o.rows| then keep else |o.rows|
    ensures gone in o.rows && gone !in Prune(o, keep).rows && kept in Prune(o, keep).rows ==>
      kept in o.rows && gone.row < kept.row
  {
    if gone in o.rows && gone !in Prune(o, keep).rows && kept in Prune(o, keep).rows {
      var cut := |o.rows| - |Prune(o, keep).rows|;
      assert Prune(o, keep).rows == o.rows[cut..];
      OnOneSide(o.rows, cut, gone);
      CutByAge(o.rows, cut, gone, kept);
    }
  }

  /** A flush reads the oldest rows: none it leaves is older than one it takes. */
  lemma PeekTakesOldest(o: Outbox, limit: int, taken: Row, left: Row)
    requires forall i, j :: 0 <= i < j < |o.rows| ==> o.rows[i].row < o.rows[j].row
    ensures |Peek(o, limit)| == if limit <= 0 then 0 else if limit < |o.rows| then limit else |o.rows|
    ensures taken in Peek(o, limit) && left in o.rows && left !in Peek(o, limit) ==>
      taken in o.rows && taken.row < left.row
  {
    if taken in Peek(o, limit) && left in o.rows && left !in Peek(o, limit) {
      var cut := |Peek(o, limit)|;
      assert Peek(o, limit) == o.rows[..cut];
      OnOneSide(o.rows, cut, left);
      CutByAge(o.rows, cut, taken, left);
    }
  }

  lemma PruneSettles(w: World, keep: int)
    requires NothingLost(w)
    ensures NothingLost(Pruned(w, keep))
  {
    var kept := Prune(w.outbox, keep).rows;
    forall id | Has(Entries(w.outbox.rows), id) && !Has(Entries(kept), id)
      ensures id in IdsOf(Entries(w.outbox.rows)) - IdsOf(Entries(kept))
    {
    }
  }

  lemma PruneKeeps(w: World, keep: int)
    requires Inv(w)
    ensures Inv(Pruned(w, keep))
  {
    RowsAreThin(w);
    PruneIsThinner(w.outbox, keep);
    RowsThin(w, Prune(w.outbox, keep).rows);
    PruneSettles(w, keep);
    assert Prune(w.outbox, keep) == w.outbox.(rows := Prune(w.outbox, keep).rows);
  }

  lemma RowsAreThin(w: World)
    requires Rows(w)
    ensures Thinner(w.outbox.rows, w.outbox.rows)
  {
    forall i, j | 0 <= i < j < |w.outbox.rows| ensures w.outbox.rows[i].entry.id != w.outbox.rows[j].entry.id {
      assert Entries(w.outbox.rows)[i].id != Entries(w.outbox.rows)[j].id;
    }
  }

  /** What a finished flush deletes is in the ledger. */
  lemma DeletedAreDelivered(w: World, task: nat, id: EventId)
    requires Rows(w) && task in w.flushes && w.flushes[task].Written? && Has(Entries(w.outbox.rows), id)
    ensures Has(Entries(Without(w.outbox.rows, RowIds(w.flushes[task].rows))), id) || Has(w.ledger, id)
  {
    var rows := w.flushes[task].rows;
    var e :| e in Entries(w.outbox.rows) && e.id == id;
    var i :| 0 <= i < |w.outbox.rows| && w.outbox.rows[i].entry == e;
    var q := w.outbox.rows[i];
    WithoutMembers(w.outbox.rows, RowIds(rows), q);
    if q.row in RowIds(rows) {
      var r :| r in rows && r.row == q.row;
      assert q == r;
    } else {
      EntryOfRow(Without(w.outbox.rows, RowIds(rows)), q);
    }
  }

  lemma DeleteKeeps(w: World, task: nat)
    requires Inv(w) && task in w.flushes && w.flushes[task].Written?
    ensures Inv(Deleted(w, task))
  {
    var ids := RowIds(w.flushes[task].rows);
    RowsAreThin(w);
    WithoutIsThinner(w.outbox.rows, ids);
    RowsThin(w, Without(w.outbox.rows, ids));
    forall id | Has(Entries(w.outbox.rows), id)
      ensures Has(Entries(Without(w.outbox.rows, ids)), id) || Has(w.ledger, id)
    {
      DeletedAreDelivered(w, task, id);
    }
    DeleteSettles(w, task, Without(w.outbox.rows, ids));
  }

  lemma DeleteSettles(w: World, task: nat, fewer: seq<Row>)
    requires Inv(w) && task in w.flushes
    requires var v := w.(outbox := w.outbox.(rows := fewer)); Rows(v) && Genuine(v, Entries(fewer))
    requires forall id :: Has(Entries(w.outbox.rows), id) ==> Has(Entries(fewer), id) || Has(w.ledger, id)
    ensures Inv(w.(outbox := w.outbox.(rows := fewer), flushes := w.flushes - {task}))
  {
  }

  lemma InsertedAreGenuine(w: World, task: nat, inserted: seq<Entry>, e: Entry)
    requires Rows(w) && task in w.flushes && e in inserted
    requires forall x :: x in inserted ==> x in Entries(w.flushes[task].rows)
    ensures e.id in w.issued && w.issued[e.id] == e
  {
    var rows := w.flushes[task].rows;
    var i :| 0 <= i < |rows| && rows[i].entry == e;
    assert rows[i] in rows;
  }

  lemma WriteTables(w: World, task: nat, inserted: seq<Entry>, ok: bool)
    requires Tables(w) && Rows(w) && Writable(w, task, inserted, ok)
    ensures Tables(Delivered(w, task, inserted, ok))
  {
    InsertAllDistinct(w.ledger, inserted);
    forall e | e in InsertAll(w.ledger, inserted) ensures e.id in w.issued && w.issued[e.id] == e {
      InsertAllMembers(w.ledger, inserted, e);
      if e in inserted { InsertedAreGenuine(w, task, inserted, e); }
    }
  }

  lemma LedgerGrows(ledger: seq<Entry>, inserted: seq<Entry>, id: EventId)
    requires Has(ledger, id) || exists e :: e in inserted && e.id == id
    ensures Has(InsertAll(ledger, inserted), id)
  {
    if Has(ledger, id) {
      var e :| e in ledger && e.id == id;
      InsertAllMembers(ledger, inserted, e);
    } else {
      var e :| e in inserted && e.id == id;
      InsertAllMembers(ledger, inserted, e);
    }
  }

  /** A failed write forgets the flush and keeps what it put into the ledger. */
  lemma FailedWriteRows(w: World, task: nat, inserted: seq<Entry>)
    requires Rows(w) && Writable(w, task, inserted, false)
    ensures Rows(Delivered(w, task, inserted, false))
  {
    forall id | Has(w.ledger, id) ensures Has(InsertAll(w.ledger, inserted), id) {
      LedgerGrows(w.ledger, inserted, id);
    }
  }

  /** A successful one has put every row it read there. */
  lemma SuccessfulWriteRows(w: World, task: nat, inserted: seq<Entry>)
    requires Rows(w) && Writable(w, task, inserted, true)
    ensures Rows(Delivered(w, task, inserted, true))
  {
    var rows := w.flushes[task].rows;
    forall id | Has(w.ledger, id) ensures Has(InsertAll(w.ledger, inserted), id) {
      LedgerGrows(w.ledger, inserted, id);
    }
    forall r | r in rows ensures Has(InsertAll(w.ledger, inserted), r.entry.id) {
      EntryOfRow(rows, r);
      LedgerGrows(w.ledger, inserted, r.entry.id);
    }
  }

  lemma WriteSettles(w: World, task: nat, inserted: seq<Entry>, ok: bool)
    requires NothingLost(w) && task in w.flushes
    ensures NothingLost(Delivered(w, task, inserted, ok))
  {
    forall id | Has(w.ledger, id) ensures Has(InsertAll(w.ledger, inserted), id) {
      LedgerGrows(w.ledger, inserted, id);
    }
  }

  lemma WriteKeeps(w: World, task: nat, inserted: seq<Entry>, ok: bool)
    requires Inv(w) && Writable(w, task, inserted, ok)
    ensures Inv(Delivered(w, task, inserted, ok))
  {
    WriteTables(w, task, inserted, ok);
    if ok { SuccessfulWriteRows(w, task, inserted); } else { FailedWriteRows(w, task, inserted); }
    WriteSettles(w, task, inserted, ok);
  }

  lemma PeekedRow(w: World, limit: int, r: Row)
    requires Rows(w) && Genuine(w, Entries(w.outbox.rows)) && r in Peek(w.outbox, limit)
    ensures r.row < w.outbox.next && r.entry.id in w.issued && w.issued[r.entry.id] == r.entry
    ensures forall q :: q in w.outbox.rows && q.row == r.row ==> q == r
  {
    EntryOfRow(w.outbox.rows, r);
    var i :| 0 <= i < |w.outbox.rows| && w.outbox.rows[i] == r;
    forall q | q in w.outbox.rows && q.row == r.row ensures q == r {
      var j :| 0 <= j < |w.outbox.rows| && w.outbox.rows[j] == q;
    }
  }

  lemma PeekKeeps(w: World, task: nat, limit: int)
    requires Inv(w) && task !in w.flushes
    ensures Inv(Read(w, task, limit))
  {
    forall r | r in Peek(w.outbox, limit)
      ensures r.row < w.outbox.next && r.entry.id in w.issued && w.issued[r.entry.id] == r.entry
      ensures forall q :: q in w.outbox.rows && q.row == r.row ==> q == r
    {
      PeekedRow(w, limit, r);
    }
  }

  lemma SettleKeeps(w: World, id: EventId, ok: bool)
    requires Inv(w) && id in w.issued && id in w.inflight && (ok ==> w.inflight[id])
    ensures Inv(SettledWrite(w, id, ok))
  {
    var e := w.issued[id];
    assert InsertAll(w.retry, [e]) == Insert(w.retry, e) by { assert [e][1..] == []; }
    InsertAllDistinct(w.retry, [e]);
    forall other | Has(w.retry, other) || other == id ensures Has(Insert(w.retry, e), other) {
      RetryHolds(w.retry, e, other);
    }
  }

  lemma RetryHolds(retry: seq<Entry>, e: Entry, id: EventId)
    requires Has(retry, id) || e.id == id
    ensures Has(Insert(retry, e), id)
  {
    if Known(retry, e.id) {
    } else if e.id == id {
      assert e in retry + [e];
    } else {
      var f :| f in retry && f.id == id;
      assert f in retry + [e];
    }
  }

  lemma IssueKeeps(w: World, entry: Entry)
    requires Inv(w) && entry.id !in w.issued
    ensures Inv(Issued(w, entry))
  {
    var v := Issued(w, entry);
    assert Genuine(v, w.usage) && Genuine(v, w.ledger) && Genuine(v, w.retry) && Genuine(v, Entries(w.outbox.rows));
    assert Rows(v);
  }

  lemma ModelsKeep(w: World, alias: Alias)
    requires TotalsExact(w)
    ensures alias != Unnamed && alias !in w.models ==> TotalsExact(ModelAdded(w, alias))
    ensures TotalsExact(ModelDropped(w, alias))
  {
  }

  lemma RetryKeeps(w: World, committed: bool, ok: bool)
    requires Inv(w) && (ok ==> committed)
    ensures Inv(Retried(w, committed, ok))
  {
    if committed { CommitKeeps(w, w.retry); }
    if ok && committed { ForgetRetries(Committed(w, w.retry)); }
  }

  lemma ForgetRetries(w: World)
    requires Inv(w) && forall id :: id in IdsOf(w.retry) ==> Has(w.usage, id)
    ensures Inv(w.(retry := []))
  {
    forall id | Has(w.retry, id) ensures Has(w.usage, id) { assert id in IdsOf(w.retry); }
  }

  lemma CrashKeeps(w: World)
    requires Inv(w)
    ensures Inv(Crashed(w))
  {
    forall id | Has(w.retry, id) ensures id in IdsOf(w.retry) {}
  }

  lemma MarkKeeps(w: World, id: EventId)
    requires Inv(w) && Has(w.usage, id)
    ensures Inv(w.(inflight := w.inflight[id := true]))
  {
    var v := w.(inflight := w.inflight[id := true]);
    RowsFrame(w, v);
    assert Tables(v) && TotalsExact(v);
    assert forall x :: Settled(w, x) <==> Settled(v, x);
  }

  lemma FirstCommitKeeps(w: World, id: EventId)
    requires Inv(w) && id in w.issued
    ensures Inv(Committed(w, [w.issued[id]]).(inflight := w.inflight[id := true]))
  {
    var e := w.issued[id];
    assert e in [e];
    CommitKeeps(w, [e]);
    MarkKeeps(Committed(w, [e]), id);
  }

  lemma SidecarKeeps(w: World, on: bool)
    requires Inv(w)
    ensures Inv(w.(sidecar := on))
  {
    RowsFrame(w, w.(sidecar := on));
  }

  lemma StepKeeps(w: World, s: Step)
    requires Inv(w) && Enabled(w, s)
    ensures Inv(Apply(w, s))
  {
    match s
    case Issue(entry) => IssueKeeps(w, entry);
    case Commit(id) => FirstCommitKeeps(w, id);
    case Settle(id, ok) => SettleKeeps(w, id, ok);
    case FlushRetry(committed, ok) => RetryKeeps(w, committed, ok);
    case AddModel(alias) => ModelsKeep(w, alias);
    case DropModel(alias) => ModelsKeep(w, alias);
    case PruneOutbox(keep) => PruneKeeps(w, keep);
    case PeekOutbox(task, limit) => PeekKeeps(w, task, limit);
    case WriteLedger(task, inserted, ok) => WriteKeeps(w, task, inserted, ok);
    case DeleteRows(task) => DeleteKeeps(w, task);
    case Crash => CrashKeeps(w);
    case SetSidecar(on) => SidecarKeeps(w, on);
  }

  // ----- only what a commit owes is delivered

  ghost predicate AllOwed(w: World, rows: seq<Row>) { forall r :: r in rows ==> r.entry.id in w.owed }

  /** Whatever is on its way to Postgres, or there, was committed for it. */
  ghost predicate OnlyOwed(w: World) {
    && AllOwed(w, w.outbox.rows)
    && (forall k :: k in w.flushes ==> AllOwed(w, w.flushes[k].rows))
    && (forall e :: e in w.ledger ==> e.id in w.owed)
  }

  lemma {:induction false} EnqueuedRows(o: Outbox, es: seq<Entry>, r: Row)
    requires r in EnqueueAll(o, es).rows
    ensures r in o.rows || r.entry in es
    decreases |es|
  {
    if es != [] { EnqueuedRows(Enqueue(o, es[0]), es[1..], r); }
  }

  lemma CommitOwes(w: World, es: seq<Entry>)
    requires OnlyOwed(w)
    ensures OnlyOwed(Committed(w, es))
  {
    if w.sidecar {
      forall r | r in EnqueueAll(w.outbox, es).rows ensures r.entry.id in w.owed + IdsOf(es) {
        EnqueuedRows(w.outbox, es, r);
      }
    }
  }

  lemma WriteOwes(w: World, task: nat, inserted: seq<Entry>, ok: bool)
    requires OnlyOwed(w) && Writable(w, task, inserted, ok)
    ensures OnlyOwed(Delivered(w, task, inserted, ok))
  {
    var rows := w.flushes[task].rows;
    forall e | e in InsertAll(w.ledger, inserted) ensures e.id in w.owed {
      InsertAllMembers(w.ledger, inserted, e);
      if e in inserted {
        var i :| 0 <= i < |rows| && rows[i].entry == e;
        assert rows[i] in rows;
      }
    }
  }

  lemma DeleteOwes(w: World, task: nat)
    requires OnlyOwed(w) && task in w.flushes
    ensures OnlyOwed(Deleted(w, task))
  {
    var ids := RowIds(w.flushes[task].rows);
    forall r | r in Without(w.outbox.rows, ids) ensures r in w.outbox.rows {
      WithoutMembers(w.outbox.rows, ids, r);
    }
  }

  lemma StepOwes(w: World, s: Step)
    requires OnlyOwed(w) && Enabled(w, s)
    ensures OnlyOwed(Apply(w, s))
  {
    match s
    case Commit(id) => CommitOwes(w, [w.issued[id]]);
    case FlushRetry(committed, ok) => CommitOwes(w, w.retry);
    case WriteLedger(task, inserted, ok) => WriteOwes(w, task, inserted, ok);
    case DeleteRows(task) => DeleteOwes(w, task);
    case _ =>
  }

  // ----- runs

  predicate Run(w: World, ss: seq<Step>)
    decreases |ss|
  {
    ss == [] || (Enabled(w, ss[0]) && Run(Apply(w, ss[0]), ss[1..]))
  }

  function Final(w: World, ss: seq<Step>): World
    requires Run(w, ss)
    decreases |ss|
  {
    if ss == [] then w else Final(Apply(w, ss[0]), ss[1..])
  }

  lemma {:induction false} RunKeeps(w: World, ss: seq<Step>)
    requires Inv(w) && OnlyOwed(w) && Run(w, ss)
    ensures Inv(Final(w, ss)) && OnlyOwed(Final(w, ss))
    decreases |ss|
  {
    if ss != [] {
      StepKeeps(w, ss[0]);
      StepOwes(w, ss[0]);
      RunKeeps(Apply(w, ss[0]), ss[1..]);
    }
  }

  /** Exactly-once accounting in every run: no event is logged or delivered twice,
      a model's totals are the sums of its events, and an event committed with the
      sidecar on is logged and is in the outbox, in the ledger or was pruned, while no
      other is in either.  An issued event is logged, being written, kept for retry or lost to a crash. */
  lemma ExactlyOnce(sidecar: bool, ss: seq<Step>, id: EventId, alias: Alias)
    requires Run(Begin(sidecar), ss)
    ensures var w := Final(Begin(sidecar), ss);
      && DistinctIds(w.usage) && DistinctIds(w.ledger)
      && (Has(w.usage, id) || Has(w.ledger, id) ==> id in w.issued)
      && (Has(w.ledger, id) || Has(Entries(w.outbox.rows), id) ==> id in w.owed)
      && (alias in w.models ==>
            && alias in w.since && w.since[alias] <= |w.usage|
            && Earned(w.models[alias], w.usage, w.since[alias], alias))
      && (id in w.owed ==> Has(w.usage, id) && Settled(w, id))
      && (id in w.issued ==> Has(w.usage, id) || id in w.inflight || Has(w.retry, id) || id in w.crashed)
  {
    BeginHolds(sidecar);
    RunKeeps(Begin(sidecar), ss);
    var w := Final(Begin(sidecar), ss);
    if Has(Entries(w.outbox.rows), id) {
      var i :| 0 <= i < |w.outbox.rows| && w.outbox.rows[i].entry.id == id;
      assert w.outbox.rows[i] in w.outbox.rows;
    }
  }
}
