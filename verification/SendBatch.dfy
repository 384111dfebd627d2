/**
 processSendBatch: a batch of messages with any keys is handled one by one, flushed to the log and then
 acknowledged. Redis is seen key by key; each key has its store, and the log is part of each.
 */
module SendBatch {
  import opened Wrappers
  import opened SendProtocol
  import opened SendWorker

  /** What an acknowledged result owes its message: a row that is, or is about to be, in the log. */
  predicate Owed(s: World, job: Job, row: Option<Row>) {
    match row
    case None => exists r | r in s.log :: r.messageId == job.messageId
    case Some(r) =>
      && RowFor(s, job, r)
      && (r.status.FailedRow? && r.status.tag.Exhausted? ==> exists d | d in s.dlq :: d.kind == r.status.tag.kind)
  }

  lemma {:induction false} ReturnedIsOwed(h: seq<Event>, w: nat, row: Option<Row>)
    requires var s := Run(Initial(), h); w in s.workers && s.workers[w].pc == Finished(Ack(row))
    ensures Owed(Run(Initial(), h), Run(Initial(), h).workers[w].job, row)
  {
    EveryRunKeepsInv(h);
    var s := Run(Initial(), h);
    assert Good(s, s.workers[w]);
  }

  lemma {:induction false} OwedStays(h: seq<Event>, later: seq<Event>, job: Job, row: Option<Row>)
    requires h <= later && Owed(Run(Initial(), h), job, row)
    ensures Owed(Run(Initial(), later), job, row)
    decreases |later|
  {
    if |h| < |later| {
      var n := |later| - 1;
      OwedStays(h, later[..n], job, row);
      EveryRunKeepsInv(later[..n]);
      ApplyGrows(Run(Initial(), later[..n]), later[n]);
    } else {
      assert h == later;
    }
  }

  /** A message whose payload parses has an idempotency key and a job. */
  datatype Parsed = Parsed(key: string, job: Job)
  datatype Message = Message(streamId: string, parsed: Option<Parsed>)

  /** What happened to each key so far. */
  type Histories = map<string, seq<Event>>

  predicate Grown(hs: Histories, later: Histories) {
    hs.Keys == later.Keys && forall k | k in hs :: hs[k] <= later[k]
  }

  predicate OwedAt(hs: Histories, m: Message, row: Option<Row>) {
    m.parsed.Some? ==>
      m.parsed.value.key in hs && Owed(Run(Initial(), hs[m.parsed.value.key]), m.parsed.value.job, row)
  }

  lemma {:induction false} StillOwed(hs: Histories, later: Histories, m: Message, row: Option<Row>)
    requires Grown(hs, later) && OwedAt(hs, m, row)
    ensures OwedAt(later, m, row)
  {
    hide Owed, Run;
    if m.parsed.Some? {
      var key := m.parsed.value.key;
      OwedStays(hs[key], later[key], m.parsed.value.job, row);
    }
  }

  class SendLoop {
    const stores: map<string, KeyStore>
    var pending: set<string>

    constructor (stores: map<string, KeyStore>, pending: set<string>)
      ensures this.stores == stores && this.pending == pending
    {
      this.stores, this.pending := stores, pending;
    }

    /** Worker w is between two messages, on every key. */
    ghost predicate Ready(w: nat)
      reads stores.Values
    {
      && (forall j, k | j in stores && k in stores && j != k :: stores[j] != stores[k])
      && (forall k | k in stores :: Idle(stores[k], w))
    }

    static ghost predicate Idle(store: KeyStore, w: nat)
      reads store
    {
      store.Valid() && (w in store.handlers ==> store.handlers[w].pc.Finished?)
    }

    ghost function Now(): Histories
      reads stores.Values
    {
      map k | k in stores :: stores[k].history
    }

    /** A durable row accounts for the message, and for an exhausted one its dead letter is stored. */
    ghost predicate Accounted(m: Message, row: Option<Row>)
      reads stores.Values
    {
      && OwedAt(Now(), m, row)
      && (m.parsed.Some? && row.Some? ==> row.value in stores[m.parsed.value.key].log)
    }

    predicate Handleable(m: Message) {
      m.parsed.Some? ==> m.parsed.value.key in stores && m.parsed.value.job.messageId != ""
    }

    /** One message, on the store of its key. */
    method Handle(w: nat, m: Message, now: int, a: Answer, env: seq<seq<Event>>) returns (row: Option<Row>, retry: bool)
      requires Ready(w) && Handleable(m)
      modifies stores.Values
      ensures Ready(w) && Grown(old(Now()), Now())
      ensures !retry ==> OwedAt(Now(), m, row)
    {
      hide Owed, Run, Idle;
      if m.parsed.None? { return None, false; }
      row, retry := HandleIn(stores[m.parsed.value.key], w, m.parsed.value.job, now, a, env);
    }

    static method HandleIn(store: KeyStore, w: nat, job: Job, now: int, a: Answer, env: seq<seq<Event>>)
      returns (row: Option<Row>, retry: bool)
      requires Idle(store, w) && job.messageId != ""
      modifies store
      ensures Idle(store, w) && old(store.history) <= store.history
      ensures !retry ==> Owed(Run(Initial(), store.history), job, row)
    {
      hide Owed, Run, CallsOf;
      row, retry := store.HandleOne(w, Some(job), now, a, env);
      if !retry { ReturnedIsOwed(store.history, w, row); }
    }

    /** The insert into the log, seen from one key, after whatever the other workers did meanwhile. */
    static method FlushIn(store: KeyStore, w: nat, rows: set<Row>, others: seq<Event>)
      requires Idle(store, w)
      modifies store
      ensures Idle(store, w) && old(store.history) <= store.history && rows <= store.log
    {
      hide Run, CallsOf;
      store.Interleave(w, others);
      store.Flush(rows);
    }

    method FlushLog(w: nat, rows: set<Row>, others: Histories)
      requires Ready(w)
      modifies stores.Values
      ensures Ready(w) && Grown(old(Now()), Now())
      ensures forall k | k in stores :: rows <= stores[k].log
    {
      hide Run, CallsOf, Idle;
      ghost var before := Now();
      var left := stores.Keys;
      while left != {}
        invariant left <= stores.Keys && Ready(w) && Grown(before, Now())
        invariant forall k | k in stores && k !in left :: rows <= stores[k].log
        decreases |left|
      {
        var k :| k in left;
        FlushIn(stores[k], w, rows, if k in others then others[k] else []);
        left := left - {k};
      }
    }

    /**
     processSendBatch. A failed flush acknowledges nothing; whatever leaves the pending set was handled without
     asking for a retry, and if it parsed it is accounted for in the log.
     */
    method ProcessSendBatch(w: nat, messages: seq<Message>, now: seq<int>, answers: seq<Answer>,
                            env: seq<seq<seq<Event>>>, others: Histories, flushOk: bool, ackOk: bool)
      returns (ok: bool, ghost results: seq<(Option<Row>, bool)>)
      requires Ready(w) && |now| == |answers| == |env| == |messages| && forall m | m in messages :: Handleable(m)
      modifies this, stores.Values
      ensures Ready(w) && |results| == |messages|
      ensures ok == (flushOk && ackOk)
      ensures !ok ==> pending == old(pending)
      ensures ok ==>
        pending == old(pending) - (set i | 0 <= i < |messages| && !results[i].1 :: messages[i].streamId)
      ensures flushOk ==> forall i | 0 <= i < |messages| && !results[i].1 :: Accounted(messages[i], results[i].0)
    {
      hide Ready, Grown, OwedAt, Owed, Run;
      var rows: set<Row> := {};
      var ids: set<string> := {};
      results := [];
      for i := 0 to |messages|
        invariant Ready(w) && |results| == i && pending == old(pending)
        invariant ids == set j | 0 <= j < i && !results[j].1 :: messages[j].streamId
        invariant forall j | 0 <= j < i && results[j].0.Some? :: results[j].0.value in rows
        invariant forall j | 0 <= j < i && !results[j].1 :: OwedAt(Now(), messages[j], results[j].0)
      {
        ghost var before := Now();
        var row, retry := Handle(w, messages[i], now[i], answers[i], env[i]);
        if row.Some? { rows := rows + {row.value}; }
        if !retry { ids := ids + {messages[i].streamId}; }
        forall j | 0 <= j < i && !results[j].1 ensures OwedAt(Now(), messages[j], results[j].0) {
          StillOwed(before, Now(), messages[j], results[j].0);
        }
        results := results + [(row, retry)];
      }
      if !flushOk { return false, results; }
      ghost var before := Now();
      FlushLog(w, rows, others);
      forall j | 0 <= j < |messages| && !results[j].1 ensures Accounted(messages[j], results[j].0) {
        StillOwed(before, Now(), messages[j], results[j].0);
        assert messages[j] in messages;
      }
      if !ackOk { return false, results; }
      pending := pending - ids;
      return true, results;
    }
  }
}
