/** What every run of concurrent receipt transactions keeps. */
module ReceiptSafety {
  import opened Wrappers
  import opened EventReceipts

  // ---------------------------------------------------------------- batches

  predicate DistinctIds(events: seq<Event>) {
    forall i, j | 0 <= i < j < |events| :: events[i].id != events[j].id
  }

  /** The first event of an id in a batch. */
  predicate FirstIn(batch: seq<Event>, i: nat) {
    i < |batch| && forall j | 0 <= j < i :: batch[j].id != batch[i].id
  }

  lemma UniqueStep(batch: seq<Event>)
    requires batch != []
    ensures var init, last := batch[..|batch| - 1], batch[|batch| - 1];
      && batch == init + [last] && Ids(batch) == Ids(init) + {last.id}
      && Unique(batch) == if last.id in Ids(Unique(init)) then Unique(init) else Unique(init) + [Folded(last)]
  {
    assert batch == batch[..|batch| - 1] + [batch[|batch| - 1]];
  }

  lemma DistinctSnoc(events: seq<Event>, e: Event)
    requires DistinctIds(events) && e.id !in Ids(events)
    ensures DistinctIds(events + [e]) && Ids(events + [e]) == Ids(events) + {e.id}
  {
    forall i | 0 <= i < |events| ensures events[i].id != e.id { assert events[i] in events; }
  }

  lemma {:induction false} UniqueIds(batch: seq<Event>)
    ensures DistinctIds(Unique(batch)) && Ids(Unique(batch)) == Ids(batch)
  {
    if batch != [] {
      UniqueStep(batch);
      var init, last := batch[..|batch| - 1], batch[|batch| - 1];
      UniqueIds(init);
      hide Unique, DistinctIds, Ids;
      if last.id !in Ids(Unique(init)) { DistinctSnoc(Unique(init), Folded(last)); }
    }
  }

  predicate IsFirst(batch: seq<Event>, e: Event) {
    exists i | 0 <= i < |batch| :: FirstIn(batch, i) && e == Folded(batch[i])
  }

  lemma FirstExtends(init: seq<Event>, last: Event, e: Event)
    ensures IsFirst(init, e) ==> IsFirst(init + [last], e)
    ensures last.id !in Ids(init) ==> IsFirst(init + [last], Folded(last))
  {
    var batch := init + [last];
    if i :| 0 <= i < |init| && FirstIn(init, i) && e == Folded(init[i]) {
      assert FirstIn(batch, i) && batch[i] == init[i];
    }
    if last.id !in Ids(init) {
      forall j | 0 <= j < |init| ensures batch[j].id != last.id { assert init[j] in init; }
      assert FirstIn(batch, |init|);
    }
  }

  lemma {:induction false} UniqueIsFirst(batch: seq<Event>)
    ensures forall e | e in Unique(batch) :: IsFirst(batch, e)
  {
    if batch != [] {
      UniqueStep(batch);
      var init, last := batch[..|batch| - 1], batch[|batch| - 1];
      UniqueIsFirst(init);
      UniqueIds(init);
      hide Unique, IsFirst, Ids;
      forall e | e in Unique(batch) ensures IsFirst(batch, e) {
        FirstExtends(init, last, e);
      }
    }
  }

  lemma {:induction false} FreshIs(events: seq<Event>, receipts: map<Id, Receipt>)
    ensures forall e :: e in Fresh(events, receipts) <==> e in events && e.id !in receipts
    ensures DistinctIds(events) ==> DistinctIds(Fresh(events, receipts))
  {
    if events != [] {
      var n := |events| - 1;
      FreshIs(events[..n], receipts);
      assert events == events[..n] + [events[n]];
      if DistinctIds(events) {
        forall e | e in Fresh(events[..n], receipts) ensures e.id != events[n].id {
          var i :| 0 <= i < n && events[i] == e;
        }
      }
    }
  }

  lemma {:induction false} FreshSame(events: seq<Event>, a: map<Id, Receipt>, b: map<Id, Receipt>)
    requires forall e | e in events :: e.id in a <==> e.id in b
    ensures Fresh(events, a) == Fresh(events, b)
  {
    if events != [] { FreshSame(events[..|events| - 1], a, b); }
  }

  // ---------------------------------------------------------------- the invariant

  predicate EventsOk(tx: Tx, t: Txn, receipts: map<Id, Receipt>, eventLocks: map<Id, Txn>) {
    if tx.phase == LockingEvents then tx.pending == [] && tx.identities == map[]
    else AllHeld(eventLocks, Ids(tx.batch), t) && tx.pending == Fresh(Unique(tx.batch), receipts)
  }

  predicate CursorsOk(tx: Tx, t: Txn, cursorLocks: map<User, Txn>, profileLocks: map<User, Txn>, active: set<User>) {
    && (tx.phase == LockingCursors || tx.phase == Writing ==> AllResolved(tx))
    && (tx.phase == Writing ==>
      AllHeld(cursorLocks, Users(tx), t) && AllHeld(profileLocks, Users(tx), t)
      && Users(tx) <= active)
  }

  predicate WrittenFor(tx: Tx) {
    && (tx.phase != Writing ==> tx.written == [])
    && |tx.written| <= |tx.pending|
    && forall k | 0 <= k < |tx.written| ::
         && tx.written[k].event == tx.pending[k]
         && IdentityKey(tx.pending[k]) in tx.identities
           && tx.written[k].user == tx.identities[IdentityKey(tx.pending[k])]
  }

  predicate WrittenOk(tx: Tx, store: Store, now: nat) {
    && WrittenFor(tx)
    && Writable(store, tx.written, tx.request)
    && forall r | r in tx.written :: r.receivedAt <= now
  }

  predicate TxOk(s: State, t: Txn) {
    t in s.txs ==>
      && EventsOk(s.txs[t], t, s.store.receipts, s.eventLocks)
      && CursorsOk(s.txs[t], t, s.cursorLocks, s.profileLocks, s.active)
      && WrittenOk(s.txs[t], s.store, s.now)
  }

  predicate PastOnly(store: Store, now: nat) {
    forall id | id in store.receipts :: store.receipts[id].receivedAt <= now
  }

  ghost predicate Inv(s: State) {
    StoreOk(s.store) && PastOnly(s.store, s.now) && forall t | t in s.txs :: TxOk(s, t)
  }

  // ---------------------------------------------------------------- written rows

  lemma {:induction false} PutAllRows(store: Store, written: seq<Receipt>, request: nat)
    ensures forall id :: id in PutAll(store, written, request).receipts <==>
      id in store.receipts
      || exists r | r in written :: r.event.id == id
    decreases |written|
  {
    if written != [] {
      var n := |written| - 1;
      PutAllRows(store, written[..n], request);
      assert written == written[..n] + [written[n]];
    }
  }

  lemma {:induction false} PutAllPast(store: Store, written: seq<Receipt>, request: nat, now: nat)
    requires PastOnly(store, now) && forall r | r in written :: r.receivedAt <= now
    ensures PastOnly(PutAll(store, written, request), now)
    decreases |written|
  {
    if written != [] {
      PutAllPast(store, written[..|written| - 1], request, now);
      assert written[|written| - 1] in written;
    }
  }

  /** The two stores agree on one customer. */
  predicate SameFor(a: Store, b: Store, u: User) {
    && Cursor(a, u) == Cursor(b, u)
    && (forall id | id in a.receipts && a.receipts[id].user == u ::
      id in b.receipts
      && b.receipts[id] == a.receipts[id])
    && (forall id | id in b.receipts && b.receipts[id].user == u ::
      id in a.receipts
      && b.receipts[id] == a.receipts[id])
  }

  lemma PutSame(a: Store, b: Store, r: Receipt, request: nat, u: User)
    requires SameFor(a, b, u) && r.event.id !in a.receipts && r.event.id !in b.receipts
    ensures SameFor(Put(a, r, request), Put(b, r, request), u)
  {}

  lemma {:induction false} PutAllSame(a: Store, b: Store, written: seq<Receipt>, request: nat, u: User)
    requires SameFor(a, b, u) && Writable(a, written, request)
    requires forall r | r in written :: r.event.id !in b.receipts
    ensures SameFor(PutAll(a, written, request), PutAll(b, written, request), u)
    decreases |written|
  {
    hide SameFor, Put;
    if written != [] {
      var n := |written| - 1;
      WritablePrefix(a, written, request);
      PutAllSame(a, b, written[..n], request, u);
      assert written[..n] + [written[n]] == written;
      assert Fits(PutAll(a, written[..n], request), written[n]);
      PutAllRows(a, written[..n], request);
      PutAllRows(b, written[..n], request);
      PutSame(PutAll(a, written[..n], request), PutAll(b, written[..n], request), written[n], request, u);
    }
  }

  lemma {:induction false} WritablePrefix(store: Store, written: seq<Receipt>, request: nat)
    requires written != [] && Writable(store, written, request)
    ensures Writable(store, written[..|written| - 1], request)
  {
    hide Fits, PutAll;
    var n := |written| - 1;
    forall k | 0 <= k < n ensures Fits(PutAll(store, written[..n][..k], request), written[..n][k]) {
      assert written[..n][..k] == written[..k];
    }
  }

  lemma {:induction false} WritableSnoc(store: Store, written: seq<Receipt>, r: Receipt, request: nat)
    requires Writable(store, written, request) && Fits(PutAll(store, written, request), r)
    ensures Writable(store, written + [r], request)
  {
    hide Fits, PutAll;
    var longer := written + [r];
    forall k | 0 <= k < |longer| ensures Fits(PutAll(store, longer[..k], request), longer[k]) {
      assert longer[..k] == written[..k];
      assert written[..|written|] == written;
    }
  }

  /** Writing rows leaves other customers alone. */
  lemma {:induction false} PutAllElsewhere(store: Store, written: seq<Receipt>, request: nat, u: User)
    requires Writable(store, written, request) && forall r | r in written :: r.user != u
    ensures SameFor(store, PutAll(store, written, request), u)
    decreases |written|
  {
    if written != [] {
      var n := |written| - 1;
      WritablePrefix(store, written, request);
      PutAllElsewhere(store, written[..n], request, u);
      assert written[n] in written;
      assert Fits(PutAll(store, written[..n], request), written[n]);
    }
  }

  /** Rows of other ids and customers do not disturb what is waiting to be committed. */
  lemma {:induction false} WritableElsewhere(store: Store, after: Store, written: seq<Receipt>, request: nat)
    requires Writable(store, written, request)
    requires forall r | r in written :: SameFor(store, after, r.user) && r.event.id !in after.receipts
    ensures Writable(after, written, request)
  {
    hide SameFor;
    forall k | 0 <= k < |written| ensures Fits(PutAll(after, written[..k], request), written[k]) {
      FitsElsewhere(store, after, written, request, k);
    }
  }

  lemma {:induction false} FitsElsewhere(store: Store, after: Store, written: seq<Receipt>, request: nat, k: nat)
    requires Writable(store, written, request) && k < |written|
    requires forall r | r in written :: SameFor(store, after, r.user) && r.event.id !in after.receipts
    ensures Fits(PutAll(after, written[..k], request), written[k])
  {
    hide SameFor, Put, PutAll, Fits;
    var before := written[..k];
    assert forall r | r in before :: r in written;
    assert written[k] in written;
    assert Writable(store, before, request) by {
      forall j | 0 <= j < k ensures Fits(PutAll(store, before[..j], request), before[j]) {
        assert before[..j] == written[..j];
      }
    }
    assert Fits(PutAll(store, before, request), written[k]);
    hide Writable;
    PutAllSame(store, after, before, request, written[k].user);
    PutAllRows(store, before, request);
    PutAllRows(after, before, request);
    FitsSame(PutAll(store, before, request), PutAll(after, before, request), written[k]);
  }

  lemma FitsSame(a: Store, b: Store, r: Receipt)
    requires Fits(a, r) && SameFor(a, b, r.user) && (r.event.id in b.receipts ==> r.event.id in a.receipts)
    ensures Fits(b, r)
  {}

  // ---------------------------------------------------------------- single transactions under the others' steps

  predicate SameTx(s: State, r: State, t: Txn) {
    (t in s.txs <==> t in r.txs) && (t in s.txs ==> s.txs[t] == r.txs[t])
  }

  /** What t holds in s it holds in r. */
  ghost predicate KeepsLocks(s: State, r: State, t: Txn) {
    && (forall k | Holds(s.eventLocks, k, t) :: Holds(r.eventLocks, k, t))
    && (forall k | Holds(s.cursorLocks, k, t) :: Holds(r.cursorLocks, k, t))
    && (forall k | Holds(s.profileLocks, k, t) :: Holds(r.profileLocks, k, t))
  }

  /** A step that leaves rows, clock or locks no worse for t leaves t in order. */
  lemma UntouchedTx(s: State, r: State, t: Txn)
    requires TxOk(s, t) && SameTx(s, r, t) && KeepsLocks(s, r, t) && r.store == s.store && s.now <= r.now
    requires t in s.txs ==> s.txs[t].phase == Writing ==> Users(s.txs[t]) <= r.active
    ensures TxOk(r, t)
  {
    hide Writable, StoreOk;
  }

  lemma ReleaseKeepsLocks(s: State, t: Txn, other: Txn)
    requires other != t
    ensures KeepsLocks(s, Release(s, t), other) && SameTx(s, Release(s, t), other)
  {}

  lemma OthersAfterRelease(s: State, t: Txn)
    requires Inv(s)
    ensures Inv(Release(s, t))
  {
    hide StoreOk, TxOk;
    var r := Release(s, t);
    forall other | other in r.txs ensures TxOk(r, other) {
      assert TxOk(s, other);
      ReleaseKeepsLocks(s, t, other);
      ActiveStays(s, other);
      UntouchedTx(s, r, other);
    }
  }

  lemma ActiveStays(s: State, t: Txn)
    requires TxOk(s, t) && t in s.txs
    ensures s.txs[t].phase == Writing ==> Users(s.txs[t]) <= s.active && AllHeld(s.profileLocks, Users(s.txs[t]), t)
  {}

  /** A step of t that changes only t itself and takes locks no one has. */
  lemma OwnStepKeeps(s: State, r: State, t: Txn)
    requires Inv(s) && r.store == s.store && s.now == r.now && r.active == s.active && TxOk(r, t)
    requires forall other | other != t :: SameTx(s, r, other) && KeepsLocks(s, r, other)
    ensures Inv(r)
  {
    hide StoreOk, TxOk, KeepsLocks, SameTx;
    forall other | other in r.txs ensures TxOk(r, other) {
      if other != t {
        assert other in s.txs by { assert SameTx(s, r, other); OtherIsThere(s, r, other); }
        assert TxOk(s, other);
        ActiveStays(s, other);
        UntouchedTx(s, r, other);
      }
    }
  }

  lemma OtherIsThere(s: State, r: State, t: Txn)
    requires SameTx(s, r, t) && t in r.txs
    ensures t in s.txs
  {}

  lemma BeginKeeps(s: State, t: Txn, batch: seq<Event>, request: nat)
    requires Inv(s) && Enabled(s, Begin(t, batch, request))
    ensures Inv(Step(s, Begin(t, batch, request)))
  {
    hide StoreOk;
    OwnStepKeeps(s, Step(s, Begin(t, batch, request)), t);
  }

  lemma LockEventKeeps(s: State, t: Txn, id: Id)
    requires Inv(s) && Enabled(s, LockEvent(t, id))
    ensures Inv(Step(s, LockEvent(t, id)))
  {
    hide StoreOk, Writable;
    assert TxOk(s, t);
    OwnStepKeeps(s, Step(s, LockEvent(t, id)), t);
  }

  lemma {:induction false} ReadExistingKeeps(s: State, t: Txn)
    requires Inv(s) && Enabled(s, ReadExisting(t))
    ensures Inv(Step(s, ReadExisting(t)))
  {
    hide StoreOk, Unique, Fresh;
    assert TxOk(s, t);
    if Fresh(Unique(s.txs[t].batch), s.store.receipts) == [] {
      OthersAfterRelease(s, t);
    } else {
      OwnStepKeeps(s, Step(s, ReadExisting(t)), t);
    }
  }

  lemma ResolveKeeps(s: State, t: Txn, key: Identity, user: User, inserted: bool)
    requires Inv(s) && Enabled(s, Resolve(t, key, user, inserted))
    ensures Inv(Step(s, Resolve(t, key, user, inserted)))
  {
    hide StoreOk, Unique, Fresh, Writable, NextIdentity;
    assert TxOk(s, t);
    OwnStepKeeps(s, Step(s, Resolve(t, key, user, inserted)), t);
  }

  lemma ResolvedKeeps(s: State, t: Txn)
    requires Inv(s) && Enabled(s, Resolved(t))
    ensures Inv(Step(s, Resolved(t)))
  {
    hide StoreOk, Unique, Fresh, Writable;
    assert TxOk(s, t);
    OwnStepKeeps(s, Step(s, Resolved(t)), t);
  }

  lemma LockCursorKeeps(s: State, t: Txn, u: User)
    requires Inv(s) && Enabled(s, LockCursor(t, u))
    ensures Inv(Step(s, LockCursor(t, u)))
  {
    hide StoreOk, Unique, Fresh, Writable;
    assert TxOk(s, t);
    OwnStepKeeps(s, Step(s, LockCursor(t, u)), t);
  }

  lemma {:induction false} CheckProfilesKeeps(s: State, t: Txn)
    requires Inv(s) && Enabled(s, CheckProfiles(t))
    ensures Inv(Step(s, CheckProfiles(t)))
  {
    hide StoreOk, Unique, Fresh, Writable;
    assert TxOk(s, t);
    if Users(s.txs[t]) <= s.active {
      OwnStepKeeps(s, Step(s, CheckProfiles(t)), t);
    } else {
      OthersAfterRelease(s, t);
    }
  }

  /** The receipt written next fits the rows as the transaction sees them. */
  lemma NextFits(s: State, t: Txn)
    requires Inv(s) && Enabled(s, Write(t))
    ensures Fits(PutAll(s.store, s.txs[t].written, s.txs[t].request), NextReceipt(s, s.txs[t]))
  {
    hide StoreOk, Writable, Unique, Fresh, PutAll, Put, EventsOk, CursorsOk;
    assert TxOk(s, t);
    var tx := s.txs[t];
    PutAllPast(s.store, tx.written, tx.request, s.now);
    PutAllRows(s.store, tx.written, tx.request);
    NextIsFresh(s, t);
  }

  lemma NextIsFresh(s: State, t: Txn)
    requires TxOk(s, t) && Enabled(s, Write(t))
    ensures var tx := s.txs[t];
      var e := tx.pending[|tx.written|];
      e.spelling == 0 && e.id !in s.store.receipts && forall r | r in tx.written :: r.event.id != e.id
  {
    hide StoreOk, Writable, Unique, PutAll, Put, CursorsOk;
    var tx := s.txs[t];
    var e := tx.pending[|tx.written|];
    FreshIs(Unique(tx.batch), s.store.receipts);
    UniqueIds(tx.batch);
    UniqueIsFirst(tx.batch);
    assert e in tx.pending && e in Unique(tx.batch) && IsFirst(tx.batch, e);
    forall r | r in tx.written ensures r.event.id != e.id {
      var k :| 0 <= k < |tx.written| && tx.written[k] == r;
      assert tx.pending[k].id != tx.pending[|tx.written|].id;
    }
  }

  lemma {:induction false} WriteKeeps(s: State, t: Txn)
    requires Inv(s) && Enabled(s, Write(t))
    ensures Inv(Step(s, Write(t)))
  {
    hide StoreOk, Unique, Fresh, Writable, Fits, PutAll;
    assert TxOk(s, t);
    NextFits(s, t);
    var tx := s.txs[t];
    WritableSnoc(s.store, tx.written, NextReceipt(s, tx), tx.request);
    OwnStepKeeps(s, Step(s, Write(t)), t);
  }

  // ---------------------------------------------------------------- commits

  /** The rows a transaction commits belong to customers and ids that no other transaction is working on. */
  lemma CommitElsewhere(s: State, t: Txn, other: Txn)
    requires Inv(s) && Enabled(s, Commit(t)) && other in s.txs && other != t
    requires s.txs[other].phase != LockingEvents
    ensures var after := PutAll(s.store, s.txs[t].written, s.txs[t].request);
      forall e | e in Unique(s.txs[other].batch) :: e.id in after.receipts <==> e.id in s.store.receipts
  {
    hide StoreOk, Writable, Unique, PutAll, Fresh;
    assert TxOk(s, t) && TxOk(s, other);
    var tx := s.txs[t];
    PutAllRows(s.store, tx.written, tx.request);
    UniqueIds(s.txs[other].batch);
    UniqueIds(tx.batch);
    FreshIs(Unique(tx.batch), s.store.receipts);
    forall e, r | e in Unique(s.txs[other].batch) && r in tx.written ensures e.id != r.event.id {
      var k :| 0 <= k < |tx.written| && tx.written[k] == r;
      assert tx.pending[k] in tx.pending;
      assert r.event.id in Ids(Unique(tx.batch)) && e.id in Ids(Unique(s.txs[other].batch));
      assert Holds(s.eventLocks, r.event.id, t);
      assert e.id in Ids(s.txs[other].batch);
      assert Holds(s.eventLocks, e.id, other);
    }
  }

  lemma {:induction false} CommitLeavesWritten(s: State, t: Txn, other: Txn)
    requires Inv(s) && Enabled(s, Commit(t)) && other in s.txs && other != t
    ensures Writable(PutAll(s.store, s.txs[t].written, s.txs[t].request), s.txs[other].written, s.txs[other].request)
  {
    hide StoreOk, Writable, Unique, PutAll, SameFor;
    assert TxOk(s, t) && TxOk(s, other);
    var tx, tx' := s.txs[t], s.txs[other];
    var after := PutAll(s.store, tx.written, tx.request);
    forall r | r in tx'.written ensures SameFor(s.store, after, r.user) && r.event.id !in after.receipts {
      var k :| 0 <= k < |tx'.written| && tx'.written[k] == r;
      assert r.user in Users(tx');
      assert Holds(s.cursorLocks, r.user, other);
      forall w | w in tx.written ensures w.user != r.user {
        var j :| 0 <= j < |tx.written| && tx.written[j] == w;
        assert w.user in Users(tx);
        assert Holds(s.cursorLocks, w.user, t);
      }
      PutAllElsewhere(s.store, tx.written, tx.request, r.user);
      CommitElsewhere(s, t, other);
      FreshIs(Unique(tx'.batch), s.store.receipts);
      assert tx'.pending[k] in tx'.pending;
    }
    WritableElsewhere(s.store, after, tx'.written, tx'.request);
  }

  lemma {:induction false} CommitLeavesTx(s: State, t: Txn, other: Txn)
    requires Inv(s) && Enabled(s, Commit(t)) && other in s.txs && other != t
    ensures TxOk(Step(s, Commit(t)), other)
  {
    hide StoreOk, Writable, Unique, PutAll, Put, Fits, Fresh, Without;
    assert TxOk(s, other);
    var after := PutAll(s.store, s.txs[t].written, s.txs[t].request);
    CommitLeavesWritten(s, t, other);
    if s.txs[other].phase != LockingEvents {
      CommitElsewhere(s, t, other);
      FreshSame(Unique(s.txs[other].batch), s.store.receipts, after.receipts);
    }
    ReleaseKeepsLocks(s.(store := after), t, other);
  }

  lemma {:induction false} CommitKeeps(s: State, t: Txn)
    requires Inv(s) && Enabled(s, Commit(t))
    ensures Inv(Step(s, Commit(t)))
  {
    hide StoreOk, Writable, PutAll, TxOk;
    var tx := s.txs[t];
    assert WrittenOk(tx, s.store, s.now) by { assert TxOk(s, t); WrittenOfTx(s, t); }
    PutAllKeeps(s.store, tx.written, tx.request);
    PutAllPast(s.store, tx.written, tx.request, s.now);
    forall other | other in s.txs && other != t ensures TxOk(Step(s, Commit(t)), other) {
      CommitLeavesTx(s, t, other);
    }
  }

  lemma WrittenOfTx(s: State, t: Txn)
    requires TxOk(s, t) && t in s.txs
    ensures WrittenOk(s.txs[t], s.store, s.now)
  {}

  lemma UserChangeKeeps(s: State, u: User, on: bool)
    requires Inv(s) && Enabled(s, ChangeUser(u, on))
    ensures Inv(Step(s, ChangeUser(u, on)))
  {
    hide StoreOk, TxOk;
    var r := Step(s, ChangeUser(u, on));
    forall t | t in r.txs ensures TxOk(r, t) {
      assert TxOk(s, t);
      ActiveStays(s, t);
      UntouchedTx(s, r, t);
    }
  }

  lemma TickKeeps(s: State, amount: nat)
    requires Inv(s)
    ensures Inv(Step(s, Tick(amount)))
  {
    hide StoreOk, TxOk;
    var r := Step(s, Tick(amount));
    forall t | t in r.txs ensures TxOk(r, t) {
      assert TxOk(s, t);
      ActiveStays(s, t);
      UntouchedTx(s, r, t);
    }
  }

  lemma {:induction false} StepKeepsInv(s: State, a: Action)
    requires Inv(s)
    ensures Inv(Step(s, a))
  {
    if Enabled(s, a) {
      hide Inv, Step, Enabled;
      match a {
        case Begin(t, batch, request) => BeginKeeps(s, t, batch, request);
        case LockEvent(t, id) => LockEventKeeps(s, t, id);
        case ReadExisting(t) => ReadExistingKeeps(s, t);
        case Resolve(t, key, user, inserted) => ResolveKeeps(s, t, key, user, inserted);
        case Resolved(t) => ResolvedKeeps(s, t);
        case LockCursor(t, u) => LockCursorKeeps(s, t, u);
        case CheckProfiles(t) => CheckProfilesKeeps(s, t);
        case Write(t) => WriteKeeps(s, t);
        case Commit(t) => CommitKeeps(s, t);
        case Abort(t) => AbortKeeps(s, t);
        case ChangeUser(u, on) => UserChangeKeeps(s, u, on);
        case Tick(amount) => TickKeeps(s, amount);
      }
    }
  }

  lemma {:induction false} AbortKeeps(s: State, t: Txn)
    requires Inv(s) && Enabled(s, Abort(t))
    ensures Inv(Step(s, Abort(t)))
  {
    OthersAfterRelease(s, t);
  }

  lemma InitialInv(collation: Collation)
    ensures Inv(Initial(collation))
  {}

  lemma {:induction false} EveryRunKeepsInv(collation: Collation, actions: seq<Action>)
    ensures Inv(Run(Initial(collation), actions))
  {
    hide Inv, Step;
    if actions == [] {
      InitialInv(collation);
    } else {
      EveryRunKeepsInv(collation, actions[..|actions| - 1]);
      StepKeepsInv(Run(Initial(collation), actions[..|actions| - 1]), actions[|actions| - 1]);
    }
  }
}
