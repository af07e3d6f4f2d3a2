/**
 Durable usage accounting: the analytics table, the per-model totals, the outbox
 of the token sidecar and the Postgres ledger it drains into.  Writes may be
 retried after an unknown outcome and the sidecar may fail half-way; event ids
 make every effect happen once.
 */
module UsageOutbox {

  type EventId = nat

  /** The alias of the model that served a request, if it had one. */
  datatype Alias = Unnamed | Named(name: string)

  datatype Entry = Entry(id: EventId, alias: Alias, prompt: nat, completion: nat)

  datatype Totals = Totals(prompt: nat, completion: nat)

  datatype Row = Row(row: nat, entry: Entry)

  ghost predicate Has(es: seq<Entry>, id: EventId) {
    exists e :: e in es && e.id == id
  }

  predicate Known(es: seq<Entry>, id: EventId)
    ensures Known(es, id) <==> Has(es, id)
  {
    if es == [] then false
    else
      assert es == [es[0]] + es[1..];
      es[0].id == id || Known(es[1..], id)
  }

  ghost predicate DistinctIds(es: seq<Entry>) {
    forall i, j :: 0 <= i < j < |es| ==> es[i].id != es[j].id
  }

  /** Inserting with "on conflict do nothing". */
  function Insert(table: seq<Entry>, e: Entry): seq<Entry> {
    if Known(table, e.id) then table else table + [e]
  }

  function InsertAll(table: seq<Entry>, es: seq<Entry>): seq<Entry>
    decreases |es|
  {
    if es == [] then table else InsertAll(Insert(table, es[0]), es[1..])
  }

  datatype Kind = Prompt | Completion

  function Share(e: Entry, alias: Alias, kind: Kind): nat {
    if e.alias != alias then 0 else if kind == Prompt then e.prompt else e.completion
  }

  /** The tokens of an alias over the rows `lo` up to `hi` of the log. */
  function Sum(log: seq<Entry>, lo: nat, hi: nat, alias: Alias, kind: Kind): nat
    requires hi <= |log|
    decreases hi
  {
    if hi <= lo then 0 else Sum(log, lo, hi - 1, alias, kind) + Share(log[hi - 1], alias, kind)
  }

  /** The totals are what the alias used over the log from row `since` on. */
  ghost predicate Earned(t: Totals, log: seq<Entry>, since: nat, alias: Alias) {
    t.prompt == Sum(log, since, |log|, alias, Prompt) && t.completion == Sum(log, since, |log|, alias, Completion)
  }

  function Add(a: Totals, b: Totals): Totals { Totals(a.prompt + b.prompt, a.completion + b.completion) }

  /** Credits each named model with what the log gained since it had `since` rows. */
  function Credit(models: map<Alias, Totals>, log: seq<Entry>, since: nat): map<Alias, Totals> {
    map a | a in models ::
      if a == Unnamed then models[a]
      else Totals(models[a].prompt + Sum(log, since, |log|, a, Prompt),
                  models[a].completion + Sum(log, since, |log|, a, Completion))
  }

  function Entries(rows: seq<Row>): (es: seq<Entry>)
    ensures |es| == |rows| && forall i :: 0 <= i < |rows| ==> es[i] == rows[i].entry
  {
    seq(|rows|, i requires 0 <= i < |rows| => rows[i].entry)
  }

  datatype Outbox = Outbox(rows: seq<Row>, next: nat)

  function Enqueue(o: Outbox, e: Entry): Outbox {
    if Known(Entries(o.rows), e.id) then o else Outbox(o.rows + [Row(o.next, e)], o.next + 1)
  }

  function EnqueueAll(o: Outbox, es: seq<Entry>): Outbox
    decreases |es|
  {
    if es == [] then o else EnqueueAll(Enqueue(o, es[0]), es[1..])
  }

  function Peek(o: Outbox, limit: int): seq<Row> {
    if limit <= 0 then [] else if limit < |o.rows| then o.rows[..limit] else o.rows
  }

  function Without(rows: seq<Row>, ids: set<nat>): seq<Row> {
    if rows == [] then []
    else (if rows[0].row in ids then [] else [rows[0]]) + Without(rows[1..], ids)
  }

  function Prune(o: Outbox, keep: int): Outbox {
    var k := if keep < 0 then 0 else keep;
    if |o.rows| > k then o.(rows := o.rows[|o.rows| - k..]) else o
  }

  // ----- the catalogue's methods

  class Catalog {
    var usage: seq<Entry>
    var models: map<Alias, Totals>
    var outbox: Outbox

    constructor (models: map<Alias, Totals>)
      ensures usage == [] && this.models == models && outbox == Outbox([], 0)
    {
      usage, this.models, outbox := [], models, Outbox([], 0);
    }

    /** One transaction: new rows are logged once, each alias is credited with the
        aggregate of its new rows, and the sidecar's rows are enqueued. */
    method RecordUsageBatch(entries: seq<Entry>, sidecar: bool)
      modifies this
      ensures usage == InsertAll(old(usage), entries)
      ensures old(usage) <= usage
      ensures models == Credit(old(models), usage, |old(usage)|)
      ensures outbox == if sidecar then EnqueueAll(old(outbox), entries) else old(outbox)
    {
      ghost var before := usage;
      var agg: map<Alias, Totals> := map[];
      for i := 0 to |entries|
        invariant models == old(models) && outbox == old(outbox)
        invariant before <= usage && InsertAll(before, entries) == InsertAll(usage, entries[i..])
        invariant Aggregates(agg, usage, |before|)
      {
        var entry := entries[i];
        assert entries[i..][1..] == entries[i + 1..];
        if !Known(usage, entry.id) {
          AggregatesStep(agg, usage, |before|, entry);
          usage := usage + [entry];
          if entry.alias != Unnamed {
            var sums := Lookup(agg, entry.alias);
            agg := agg[entry.alias := Totals(sums.prompt + entry.prompt, sums.completion + entry.completion)];
          }
        }
      }
      CreditAggregate(agg, |before|);
      if sidecar { EnqueueOutbox(entries); }
    }

    method CreditAggregate(agg: map<Alias, Totals>, ghost since: nat)
      requires Aggregates(agg, usage, since)
      modifies `models
      ensures models == Credit(old(models), usage, since)
    {
      var todo := agg.Keys;
      while todo != {}
        invariant todo <= agg.Keys && models.Keys == old(models).Keys
        invariant forall a :: a in models ==>
          models[a] == if a in agg && a !in todo then Add(old(models)[a], agg[a]) else old(models)[a]
        decreases todo
      {
        var alias :| alias in todo;
        if alias in models {
          models := models[alias := Add(models[alias], agg[alias])];
        }
        todo := todo - {alias};
      }
      assert forall a :: a in models && a != Unnamed ==> Earned(Lookup(agg, a), usage, since, a);
    }

    method EnqueueOutbox(entries: seq<Entry>)
      modifies `outbox
      ensures outbox == EnqueueAll(old(outbox), entries)
    {
      for i := 0 to |entries|
        invariant EnqueueAll(outbox, entries[i..]) == EnqueueAll(old(outbox), entries)
      {
        assert entries[i..][1..] == entries[i + 1..];
        if !Known(Entries(outbox.rows), entries[i].id) {
          outbox := Outbox(outbox.rows + [Row(outbox.next, entries[i])], outbox.next + 1);
        }
      }
    }

    method DeleteOutbox(ids: set<nat>)
      modifies `outbox
      ensures outbox == old(outbox).(rows := Without(old(outbox).rows, ids))
    {
      var kept: seq<Row> := [];
      for i := 0 to |outbox.rows|
        invariant outbox == old(outbox)
        invariant kept + Without(outbox.rows[i..], ids) == Without(outbox.rows, ids)
      {
        assert outbox.rows[i..][1..] == outbox.rows[i + 1..];
        if outbox.rows[i].row !in ids { kept := kept + [outbox.rows[i]]; }
      }
      outbox := outbox.(rows := kept);
    }
  }

  function Lookup(agg: map<Alias, Totals>, alias: Alias): Totals {
    if alias in agg then agg[alias] else Totals(0, 0)
  }

  /** The aggregate holds, for each named alias, the sums over the new rows. */
  ghost predicate Aggregates(agg: map<Alias, Totals>, log: seq<Entry>, since: nat) {
    Unnamed !in agg && forall a :: a != Unnamed ==> Earned(Lookup(agg, a), log, since, a)
  }

  lemma {:induction false} SumOfPrefix(log: seq<Entry>, longer: seq<Entry>, lo: nat, hi: nat, a: Alias, kind: Kind)
    requires hi <= |log| <= |longer| && forall i :: 0 <= i < |log| ==> log[i] == longer[i]
    ensures Sum(longer, lo, hi, a, kind) == Sum(log, lo, hi, a, kind)
    decreases hi
  {
    if hi > lo { SumOfPrefix(log, longer, lo, hi - 1, a, kind); }
  }

  lemma EarnedByAppended(log: seq<Entry>, since: nat, e: Entry, a: Alias, t: Totals)
    requires since <= |log| && Earned(t, log, since, a)
    ensures Earned(if e.alias == a then Add(t, Totals(e.prompt, e.completion)) else t, log + [e], since, a)
  {
    SumOfPrefix(log, log + [e], since, |log|, a, Prompt);
    SumOfPrefix(log, log + [e], since, |log|, a, Completion);
  }

  lemma AggregatesStep(agg: map<Alias, Totals>, log: seq<Entry>, since: nat, e: Entry)
    requires Aggregates(agg, log, since) && since <= |log|
    ensures e.alias == Unnamed ==> Aggregates(agg, log + [e], since)
    ensures e.alias != Unnamed ==>
      Aggregates(agg[e.alias := Add(Lookup(agg, e.alias), Totals(e.prompt, e.completion))], log + [e], since)
  {
    var next := if e.alias == Unnamed then agg
      else agg[e.alias := Add(Lookup(agg, e.alias), Totals(e.prompt, e.completion))];
    forall a | a != Unnamed ensures Earned(Lookup(next, a), log + [e], since, a) {
      EarnedByAppended(log, since, e, a, Lookup(agg, a));
    }
  }
}
