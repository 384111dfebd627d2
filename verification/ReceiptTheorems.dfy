/** What accepted events can rely on. */
module ReceiptTheorems {
  import opened Wrappers
  import opened EventReceipts
  import opened ReceiptSafety

  // ---------------------------------------------------------------- receipts are for ever, gapless and sent on

  lemma {:induction false} PutAllGrows(store: Store, written: seq<Receipt>, request: nat)
    requires Writable(store, written, request)
    ensures forall id | id in store.receipts ::
      id in PutAll(store, written, request).receipts
      && PutAll(store, written, request).receipts[id] == store.receipts[id]
    ensures forall id | id in store.jobs ::
      id in PutAll(store, written, request).jobs
      && PutAll(store, written, request).jobs[id] == store.jobs[id]
    decreases |written|
  {
    if written != [] {
      var n := |written| - 1;
      WritablePrefix(store, written, request);
      PutAllGrows(store, written[..n], request);
      assert Fits(PutAll(store, written[..n], request), written[n]);
    }
  }

  ghost predicate Extends(a: Store, b: Store) {
    && (forall id | id in a.receipts :: id in b.receipts && b.receipts[id] == a.receipts[id])
    && (forall id | id in a.jobs :: id in b.jobs && b.jobs[id] == a.jobs[id])
  }

  lemma {:induction false} StepExtends(s: State, a: Action)
    requires Inv(s)
    ensures Extends(s.store, Step(s, a).store)
  {
    hide StoreOk, TxOk, PutAll, Writable, Unique, Fresh;
    if a.Commit? && Enabled(s, a) {
      assert TxOk(s, a.t);
      WrittenOfTx(s, a.t);
      PutAllGrows(s.store, s.txs[a.t].written, s.txs[a.t].request);
    } else {
      OthersLeaveTheStore(s, a);
    }
  }

  lemma OthersLeaveTheStore(s: State, a: Action)
    requires !a.Commit? || !Enabled(s, a)
    ensures Step(s, a).store == s.store
  {
    hide Unique, Fresh, PutAll, Enabled;
  }

  /** A receipt, its customer, number, event and time never change once committed, nor does its job. */
  lemma {:induction false} ReceiptsNeverChange(collation: Collation, actions: seq<Action>, more: seq<Action>)
    ensures Extends(Run(Initial(collation), actions).store, Run(Initial(collation), actions + more).store)
  {
    hide Inv, Step;
    if more == [] {
      assert actions + more == actions;
    } else {
      var n := |more| - 1;
      assert (actions + more)[..|actions + more| - 1] == actions + more[..n];
      ReceiptsNeverChange(collation, actions, more[..n]);
      EveryRunKeepsInv(collation, actions + more[..n]);
      StepExtends(Run(Initial(collation), actions + more[..n]), more[n]);
    }
  }

  /**
   In every run each customer's receipts carry exactly the numbers 1..cursor, once each and in the order they
   were received, and every receipt has its one job.
   */
  lemma NumbersHaveNoGaps(collation: Collation, actions: seq<Action>, u: User, n: nat)
    ensures var store := Run(Initial(collation), actions).store;
      && (Carried(store, u, n) <==> 1 <= n <= Cursor(store, u))
      && (forall i, j | i in store.receipts && j in store.receipts && store.receipts[i].user == u
        && store.receipts[j].user == u ::
            (store.receipts[i].number == n && store.receipts[j].number == n ==> i == j)
            && (store.receipts[i].number < store.receipts[j].number
              ==> store.receipts[i].receivedAt <= store.receipts[j].receivedAt))
      && JobsMatch(store)
  {
    EveryRunKeepsInv(collation, actions);
    hide Run, TxOk;
  }

  // ---------------------------------------------------------------- one commit

  /** r is committed and its customer's numbering has reached it. */
  predicate Has(store: Store, r: Receipt) {
    r.event.id in store.receipts && store.receipts[r.event.id] == r && Cursor(store, r.user) >= r.number
  }

  lemma PutKeepsHas(store: Store, r: Receipt, request: nat, earlier: Receipt)
    requires Fits(store, r)
    ensures Has(Put(store, r, request), r)
    ensures Has(store, earlier) ==> Has(Put(store, r, request), earlier)
  {
  }

  lemma {:induction false} PutAllHas(store: Store, written: seq<Receipt>, request: nat, k: nat)
    requires Writable(store, written, request) && k < |written|
    ensures Has(PutAll(store, written, request), written[k])
    decreases |written|
  {
    hide Has, Fits, Put;
    var n := |written| - 1;
    assert Fits(PutAll(store, written[..n], request), written[n]);
    PutKeepsHas(PutAll(store, written[..n], request), written[n], request, written[k]);
    if k < n {
      WritablePrefix(store, written, request);
      PutAllHas(store, written[..n], request, k);
    }
  }

  /** Within one transaction a customer's numbers follow the batch order. */
  lemma NumbersFollowTheBatch(store: Store, written: seq<Receipt>, request: nat, i: nat, j: nat)
    requires Writable(store, written, request) && i < j < |written| && written[i].user == written[j].user
    ensures written[i].number < written[j].number
  {
    hide Put, PutAll;
    assert Fits(PutAll(store, written[..j], request), written[j]);
    forall k | 0 <= k < j ensures Fits(PutAll(store, written[..j][..k], request), written[..j][k]) {
      assert written[..j][..k] == written[..k];
      assert Fits(PutAll(store, written[..k], request), written[k]);
    }
    PutAllHas(store, written[..j], request, i);
  }

  /** r is the receipt of the first event with its id in the batch. */
  predicate ReceiptOfFirst(batch: seq<Event>, r: Receipt) {
    IsFirst(batch, r.event)
  }

  /**
   After a commit every event of the batch has a receipt. A new one holds the first event with its id, folded,
   for a customer who is active; new receipts of one customer are numbered in batch order.
   */
  lemma CommitRegistersTheBatch(s: State, t: Txn)
    requires Inv(s) && Enabled(s, Commit(t))
    ensures var after := Step(s, Commit(t)).store.receipts;
      && (forall e | e in s.txs[t].batch :: e.id in after)
      && (forall id | id in after && id !in s.store.receipts ::
        ReceiptOfFirst(s.txs[t].batch, after[id])
        && after[id].user in s.active)
  {
    hide StoreOk, Writable, Unique, PutAll, IsFirst, TxOk, Fresh;
    assert TxOk(s, t);
    KnownAfterCommit(s, t);
    forall id | id in Step(s, Commit(t)).store.receipts && id !in s.store.receipts
      ensures ReceiptOfFirst(s.txs[t].batch, Step(s, Commit(t)).store.receipts[id])
        && Step(s, Commit(t)).store.receipts[id].user in s.active
    {
      NewAfterCommit(s, t, id);
    }
  }

  lemma KnownAfterCommit(s: State, t: Txn)
    requires TxOk(s, t) && Enabled(s, Commit(t))
    ensures forall e | e in s.txs[t].batch :: e.id in PutAll(s.store, s.txs[t].written, s.txs[t].request).receipts
  {
    hide StoreOk, Writable, Unique, PutAll, Put;
    var tx := s.txs[t];
    UniqueIds(tx.batch);
    FreshIs(Unique(tx.batch), s.store.receipts);
    PutAllRows(s.store, tx.written, tx.request);
    forall e | e in tx.batch ensures e.id in PutAll(s.store, tx.written, tx.request).receipts {
      assert e.id in Ids(Unique(tx.batch));
      var u :| u in Unique(tx.batch) && u.id == e.id;
      if u.id !in s.store.receipts {
        var k :| 0 <= k < |tx.pending| && tx.pending[k] == u;
        assert tx.written[k] in tx.written;
      }
    }
  }

  lemma NewAfterCommit(s: State, t: Txn, id: Id)
    requires TxOk(s, t) && Enabled(s, Commit(t))
    requires id in PutAll(s.store, s.txs[t].written, s.txs[t].request).receipts && id !in s.store.receipts
    ensures var r := PutAll(s.store, s.txs[t].written, s.txs[t].request).receipts[id];
      ReceiptOfFirst(s.txs[t].batch, r) && r.user in s.active
  {
    hide StoreOk, Writable, Unique, PutAll, Put, IsFirst;
    var tx := s.txs[t];
    UniqueIsFirst(tx.batch);
    FreshIs(Unique(tx.batch), s.store.receipts);
    PutAllRows(s.store, tx.written, tx.request);
    var r :| r in tx.written && r.event.id == id;
    var k :| 0 <= k < |tx.written| && tx.written[k] == r;
    PutAllHas(s.store, tx.written, tx.request, k);
    assert tx.pending[k] in tx.pending;
    assert r.user in Users(tx);
  }

  /** The new receipts of one customer are numbered in batch order. */
  lemma {:induction false} CommitKeepsBatchOrder(s: State, t: Txn, i: nat, j: nat)
    requires Inv(s) && Enabled(s, Commit(t)) && i < j < |s.txs[t].pending|
    ensures var after, pending := Step(s, Commit(t)).store.receipts, s.txs[t].pending;
      && pending[i].id in after && pending[j].id in after
      && after[pending[i].id].event == pending[i] && after[pending[j].id].event == pending[j]
      && (after[pending[i].id].user == after[pending[j].id].user
        ==> after[pending[i].id].number < after[pending[j].id].number)
  {
    hide StoreOk, PutAll, Unique, Fresh, Writable;
    var tx := s.txs[t];
    assert TxOk(s, t);
    PutAllHas(s.store, tx.written, tx.request, i);
    PutAllHas(s.store, tx.written, tx.request, j);
    if tx.written[i].user == tx.written[j].user { NumbersFollowTheBatch(s.store, tx.written, tx.request, i, j); }
  }

  /** A transaction that finds nothing new ends at once, with a receipt for every event of the batch. */
  lemma NothingNewMeansAllKnown(s: State, t: Txn)
    requires Enabled(s, ReadExisting(t)) && t !in Step(s, ReadExisting(t)).txs
    ensures forall e | e in s.txs[t].batch :: e.id in s.store.receipts
  {
    hide Unique;
    var tx := s.txs[t];
    UniqueIds(tx.batch);
    FreshIs(Unique(tx.batch), s.store.receipts);
    forall e | e in tx.batch ensures e.id in s.store.receipts {
      assert e.id in Ids(Unique(tx.batch));
      var u :| u in Unique(tx.batch) && u.id == e.id;
      assert u !in Fresh(Unique(tx.batch), s.store.receipts);
    }
  }
}
