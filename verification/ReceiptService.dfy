/** The code of one receipt transaction, run alone, and the retries around it. */
module ReceiptService {
  import opened Wrappers
  import opened EventReceipts
  import opened ReceiptSafety

  datatype Status = Active | Merged | Deleted
  datatype UserRow = UserRow(status: Status, mergedInto: Option<User>)

  // ---------------------------------------------------------------- merged customers

  /** Where the merge chain from u ends; None when that is no active customer or the chain runs in a circle. */
  function Canonical(users: map<User, UserRow>, u: User, visited: set<User>): Option<User>
    requires visited <= users.Keys
    decreases |users.Keys - visited|
  {
    if u !in users then None
    else if users[u].status == Merged && users[u].mergedInto.Some? && u !in visited then
      Shrinks(users.Keys, visited, u);
      Canonical(users, users[u].mergedInto.value, visited + {u})
    else if users[u].status == Active then Some(u)
    else None
  }

  lemma Shrinks(all: set<User>, visited: set<User>, u: User)
    requires u in all && u !in visited
    ensures |all - (visited + {u})| < |all - visited|
  {
    assert all - visited == (all - (visited + {u})) + {u};
  }

  /** A chain of customers, each merged into the next. */
  predicate MergeChain(users: map<User, UserRow>, chain: seq<User>) {
    && chain != []
    && (forall k | 0 <= k < |chain| :: chain[k] in users)
    && (forall k | 0 <= k < |chain| - 1 ::
      users[chain[k]].status == Merged
      && users[chain[k]].mergedInto == Some(chain[k + 1]))
  }

  lemma {:induction false} CanonicalIsReached(users: map<User, UserRow>, u: User, visited: set<User>)
      returns (chain: seq<User>)
    requires visited <= users.Keys && Canonical(users, u, visited).Some?
    ensures MergeChain(users, chain) && chain[0] == u && chain[|chain| - 1] == Canonical(users, u, visited).value
    ensures users[chain[|chain| - 1]].status == Active
    decreases |users.Keys - visited|
  {
    if users[u].status == Merged && users[u].mergedInto.Some? && u !in visited {
      Shrinks(users.Keys, visited, u);
      var rest := CanonicalIsReached(users, users[u].mergedInto.value, visited + {u});
      chain := [u] + rest;
      forall k | 0 <= k < |chain| - 1 ensures users[chain[k]].status == Merged
        && users[chain[k]].mergedInto == Some(chain[k + 1]) {
        if k > 0 { assert chain[k] == rest[k - 1] && chain[k + 1] == rest[k]; }
      }
    } else {
      chain := [u];
    }
  }

  /** A chain that ends at an active customer does not repeat itself, so the search gets there. */
  lemma {:induction false} ReachedIsCanonical(users: map<User, UserRow>, chain: seq<User>, visited: set<User>)
    requires MergeChain(users, chain) && users[chain[|chain| - 1]].status == Active
    requires visited <= users.Keys && forall k | 0 <= k < |chain| :: chain[k] !in visited
    requires forall i, j | 0 <= i < j < |chain| :: chain[i] != chain[j]
    ensures Canonical(users, chain[0], visited) == Some(chain[|chain| - 1])
    decreases |chain|
  {
    if |chain| > 1 {
      var rest := chain[1..];
      forall k | 0 <= k < |rest| ensures rest[k] in users && rest[k] !in visited + {chain[0]} {
        assert rest[k] == chain[k + 1];
      }
      forall k | 0 <= k < |rest| - 1 ensures users[rest[k]].status == Merged
        && users[rest[k]].mergedInto == Some(rest[k + 1]) {
        assert rest[k] == chain[k + 1] && rest[k + 1] == chain[k + 2];
      }
      ReachedIsCanonical(users, rest, visited + {chain[0]});
    }
  }

  lemma {:induction false} ChainsDoNotRepeat(users: map<User, UserRow>, chain: seq<User>, i: nat, j: nat)
    requires MergeChain(users, chain) && users[chain[|chain| - 1]].status == Active && i < j < |chain|
    ensures chain[i] != chain[j]
    decreases |chain| - j
  {
    if chain[i] == chain[j] {
      if j == |chain| - 1 {
        assert false;
      } else {
        assert chain[i + 1] == chain[j + 1];
        ChainsDoNotRepeat(users, chain, i + 1, j + 1);
      }
    }
  }

  ghost predicate LeadsTo(users: map<User, UserRow>, u: User, v: User) {
    exists chain :: MergeChain(users, chain) && chain[0] == u && chain[|chain| - 1] == v
  }

  /** Resolving yields v exactly when the merges lead from u to v and v is active; on circles it fails. */
  lemma ResolvingFollowsMerges(users: map<User, UserRow>, u: User, v: User)
    ensures Canonical(users, u, {}) == Some(v) <==> LeadsTo(users, u, v) && v in users && users[v].status == Active
  {
    if Canonical(users, u, {}) == Some(v) {
      var chain := CanonicalIsReached(users, u, {});
    }
    if LeadsTo(users, u, v) && v in users && users[v].status == Active {
      var chain :| MergeChain(users, chain) && chain[0] == u && chain[|chain| - 1] == v;
      forall i, j | 0 <= i < j < |chain| ensures chain[i] != chain[j] { ChainsDoNotRepeat(users, chain, i, j); }
      ReachedIsCanonical(users, chain, {});
    }
  }

  // ---------------------------------------------------------------- the receipts of one transaction

  /** The receipts of the first k pending events, written one after the other at the given times. */
  function WrittenOf(store: Store, pending: seq<Event>, identities: map<Identity, User>, times: seq<nat>, request: nat,
      k: nat): seq<Receipt>
    requires k <= |pending| <= |times| && forall e | e in pending :: IdentityKey(e) in identities
  {
    if k == 0 then []
    else
      var earlier := WrittenOf(store, pending, identities, times, request, k - 1);
      var u := identities[IdentityKey(pending[k - 1])];
      earlier + [Receipt(u, Cursor(PutAll(store, earlier, request), u) + 1, pending[k - 1], times[k - 1])]
  }

  /** When each receipt was written. */
  function TimesOf(written: seq<Receipt>): seq<nat> {
    seq(|written|, i requires 0 <= i < |written| => written[i].receivedAt)
  }

  /** The k-th receipt carries the number after the cursor its transaction sees. */
  predicate NumberedAt(store: Store, pending: seq<Event>, identities: map<Identity, User>, request: nat,
                       written: seq<Receipt>, k: nat)
    requires k < |written| <= |pending|
  {
    && IdentityKey(pending[k]) in identities
    && var u := identities[IdentityKey(pending[k])];
       written[k] == Receipt(u, Cursor(PutAll(store, written[..k], request), u) + 1, pending[k], written[k].receivedAt)
  }

  lemma {:induction false} LoopWrites(store: Store, pending: seq<Event>, identities: map<Identity, User>, request: nat,
                                      written: seq<Receipt>, k: nat)
    requires k <= |written| == |pending| && (forall e | e in pending :: IdentityKey(e) in identities)
    requires forall j | 0 <= j < k :: NumberedAt(store, pending, identities, request, written, j)
    ensures WrittenOf(store, pending, identities, TimesOf(written), request, k) == written[..k]
  {
    hide PutAll, Cursor, IdentityKey;
    if k > 0 {
      LoopWrites(store, pending, identities, request, written, k - 1);
      assert NumberedAt(store, pending, identities, request, written, k - 1);
      assert written[..k] == written[..k - 1] + [written[k - 1]];
    }
  }

  lemma WrittenIsNumbered(s: State, t: Txn, k: nat)
    requires TxOk(s, t) && t in s.txs && k < |s.txs[t].written|
    ensures var tx := s.txs[t];
      |tx.written| <= |tx.pending| && NumberedAt(s.store, tx.pending, tx.identities, tx.request, tx.written, k)
  {
    hide StoreOk, PutAll, Cursor, EventsOk, CursorsOk;
    var tx := s.txs[t];
    assert Fits(PutAll(s.store, tx.written[..k], tx.request), tx.written[k]);
  }

  lemma ResolvedWhenWriting(s: State, t: Txn)
    requires TxOk(s, t) && t in s.txs && s.txs[t].phase == Writing
    ensures forall e | e in s.txs[t].pending :: IdentityKey(e) in s.txs[t].identities
  {
    hide Writable, EventsOk;
  }

  /**
   In every interleaving, what a transaction commits is what the loop writes when it runs alone on the rows of that
   moment: the new part of the batch, for active customers, each receipt at the time it was written. Commits of
   others between its writes make no difference.
   */
  lemma {:induction false} CommitIsTheLoop(collation: Collation, actions: seq<Action>, t: Txn)
    requires Enabled(Run(Initial(collation), actions), Commit(t))
    ensures var s := Run(Initial(collation), actions); var tx := s.txs[t]; var times := TimesOf(tx.written);
      && tx.pending == Fresh(Unique(tx.batch), s.store.receipts) && |times| == |tx.pending|
      && (forall e | e in tx.pending :: IdentityKey(e) in tx.identities && tx.identities[IdentityKey(e)] in s.active)
      && Step(s, Commit(t)).store
         == PutAll(s.store, WrittenOf(s.store, tx.pending, tx.identities, times, tx.request, |tx.pending|), tx.request)
  {
    EveryRunKeepsInv(collation, actions);
    hide Run, StoreOk, PutAll, Writable, WrittenOf, Unique, Fresh, NumberedAt;
    var s := Run(Initial(collation), actions);
    var tx := s.txs[t];
    assert TxOk(s, t);
    ResolvedWhenWriting(s, t);
    forall k | 0 <= k < |tx.written| ensures NumberedAt(s.store, tx.pending, tx.identities, tx.request, tx.written, k) {
      WrittenIsNumbered(s, t, k);
    }
    LoopWrites(s.store, tx.pending, tx.identities, tx.request, tx.written, |tx.written|);
    assert tx.written[..|tx.pending|] == tx.written;
    forall e | e in tx.pending ensures IdentityKey(e) in tx.identities && tx.identities[IdentityKey(e)] in s.active {
      assert tx.identities[IdentityKey(e)] in Users(tx);
    }
  }

  datatype Tables = Tables(store: Store, users: map<User, UserRow>, externals: map<string, User>,
    anonymous: map<string, User>)
  datatype Outcome = Committed(count: nat) | IdentityChanged | Transient | Failed

  /** The customer the identity stands for, inserted under a new id when there is none. */
  function Looked(t: Tables, e: Event, newId: User): (Tables, User) {
    if e.external != "" then
      if e.external in t.externals then (t, t.externals[e.external])
      else (t.(users := t.users[newId := UserRow(Active, None)], externals := t.externals[e.external := newId]), newId)
    else
      if e.anonymous in t.anonymous then (t, t.anonymous[e.anonymous])
      else (t.(users := t.users[newId := UserRow(Active, None)], anonymous := t.anonymous[e.anonymous := newId]), newId)
  }

  class ReceiptDb {
    var receipts: map<Id, Receipt>
    var cursors: map<User, nat>
    var jobs: map<Id, Job>
    var users: map<User, UserRow>
    var externals: map<string, User>
    var anonymous: map<string, User>

    function Rows(): Store
      reads this
    {
      Store(receipts, cursors, jobs)
    }

    function View(): Tables
      reads this
    {
      Tables(Rows(), users, externals, anonymous)
    }

    /** The batch without repeated ids, in order of first appearance. */
    method FirstOfEach(batch: seq<Event>) returns (unique: seq<Event>)
      ensures unique == Unique(batch)
    {
      unique := [];
      var seen: set<Id> := {};
      for i := 0 to |batch|
        invariant unique == Unique(batch[..i]) && seen == Ids(unique)
      {
        assert batch[..i + 1][..i] == batch[..i];
        if batch[i].id !in seen {
          ghost var before := unique;
          unique := unique + [Folded(batch[i])];
          seen := seen + {batch[i].id};
          assert Ids(unique) == Ids(before) + {batch[i].id};
        }
      }
      assert batch[..|batch|] == batch;
    }

    method WithoutExisting(unique: seq<Event>) returns (pending: seq<Event>)
      ensures pending == Fresh(unique, receipts)
    {
      pending := [];
      for i := 0 to |unique|
        invariant pending == Fresh(unique[..i], receipts)
      {
        assert unique[..i + 1][..i] == unique[..i];
        if unique[i].id !in receipts { pending := pending + [unique[i]]; }
      }
      assert unique[..|unique|] == unique;
    }

    /** External id before anonymous id; an unknown identity gets a new customer. */
    method LookUp(e: Event, newId: User) returns (user: User)
      requires e.external != "" || e.anonymous != ""
      modifies this`users, this`externals, this`anonymous
      ensures (View(), user) == Looked(old(View()), e, newId)
    {
      if e.external != "" {
        if e.external !in externals {
          users, externals := users[newId := UserRow(Active, None)], externals[e.external := newId];
        }
        return externals[e.external];
      }
      if e.anonymous !in anonymous {
        users, anonymous := users[newId := UserRow(Active, None)], anonymous[e.anonymous := newId];
      }
      return anonymous[e.anonymous];
    }

    /** Along the merges, remembering whom it met. */
    method FollowMerges(start: User) returns (user: Option<User>)
      ensures user == Canonical(users, start, {})
    {
      var current := start;
      var visited: set<User> := {};
      while current in users && users[current].status == Merged && users[current].mergedInto.Some?
        && current !in visited
        invariant visited <= users.Keys
        invariant Canonical(users, start, {}) == Canonical(users, current, visited)
        decreases |users.Keys - visited|
      {
        Shrinks(users.Keys, visited, current);
        visited := visited + {current};
        current := users[current].mergedInto.value;
      }
      user := if current in users && users[current].status == Active then Some(current) else None;
    }

    method ResolveUser(e: Event, newId: User) returns (user: Option<User>)
      modifies this`users, this`externals, this`anonymous
      ensures e.external == "" && e.anonymous == "" ==> user == None && View() == old(View())
      ensures e.external != "" || e.anonymous != "" ==>
        View() == Looked(old(View()), e, newId).0 && user == Canonical(users, Looked(old(View()), e, newId).1, {})
    {
      if e.external == "" && e.anonymous == "" { return None; }
      hide Looked, Canonical;
      var start := LookUp(e, newId);
      user := FollowMerges(start);
    }

    /** The cursor step, the receipt and the job of one event. */
    method WriteOne(e: Event, user: User, time: nat, request: nat)
      requires user in cursors
      modifies this`receipts, this`cursors, this`jobs
      ensures Rows() == Put(old(Rows()), Receipt(user, Cursor(old(Rows()), user) + 1, e, time), request)
    {
      var number := cursors[user] + 1;
      var receipt := Receipt(user, number, e, time);
      cursors := cursors[user := number];
      receipts := receipts[e.id := receipt];
      if e.id !in jobs { jobs := jobs[e.id := Job(receipt, request)]; }
    }

    /** One numbered receipt, one job and one cursor step per pending event, in order. */
    method WriteReceipts(pending: seq<Event>, identities: map<Identity, User>, times: seq<nat>, request: nat)
      requires |pending| <= |times| && forall e | e in pending :: IdentityKey(e) in identities
      requires forall e | e in pending :: identities[IdentityKey(e)] in cursors
      modifies this`receipts, this`cursors, this`jobs
      ensures Rows() == PutAll(old(Rows()), WrittenOf(old(Rows()), pending, identities, times, request, |pending|),
        request)
    {
      hide PutAll, WrittenOf;
      ghost var before := Rows();
      NothingWritten(before, pending, identities, times, request);
      for i := 0 to |pending|
        invariant Rows() == PutAll(before, WrittenOf(before, pending, identities, times, request, i), request)
        invariant forall e | e in pending :: identities[IdentityKey(e)] in cursors
      {
        assert pending[i] in pending;
        OneMoreWritten(before, pending, identities, times, request, i);
        WriteOne(pending[i], identities[IdentityKey(pending[i])], times[i], request);
      }
    }

    /** Back to the rows the transaction started from. */
    method Rollback(to: Tables)
      modifies this
      ensures View() == to
    {
      receipts, cursors, jobs := to.store.receipts, to.store.cursors, to.store.jobs;
      users, externals, anonymous := to.users, to.externals, to.anonymous;
    }

    method ResolveAll(pending: seq<Event>, newIds: Identity -> User)
        returns (identities: map<Identity, User>, complete: bool)
      modifies this`users, this`externals, this`anonymous
      ensures complete ==> forall e | e in pending :: IdentityKey(e) in identities
    {
      identities := map[];
      for i := 0 to |pending|
        invariant forall k | 0 <= k < i :: IdentityKey(pending[k]) in identities
      {
        var key := IdentityKey(pending[i]);
        if key !in identities {
          var user := ResolveUser(pending[i], newIds(key));
          if user.None? { return identities, false; }
          identities := identities[key := user.value];
        }
      }
      complete := true;
    }

    /** A cursor row for every customer; a new one starts at 0. */
    method EnsureCursors(pending: seq<Event>, identities: map<Identity, User>)
      requires forall e | e in pending :: IdentityKey(e) in identities
      modifies this`cursors
      ensures forall e | e in pending :: identities[IdentityKey(e)] in cursors
      ensures SameRows(old(Rows()), Rows())
    {
      for i := 0 to |pending|
        invariant forall k | 0 <= k < i :: identities[IdentityKey(pending[k])] in cursors
        invariant SameRows(old(Rows()), Rows())
      {
        var user := identities[IdentityKey(pending[i])];
        if user !in cursors { cursors := cursors[user := 0]; }
      }
    }

    /** One transaction. It commits the new part of the batch as a whole, or leaves everything as it was. */
    method PersistOnce(batch: seq<Event>, request: nat, newIds: Identity -> User, times: seq<nat>, fault: Fault)
      returns (outcome: Outcome, ghost identities: map<Identity, User>)
      requires |batch| <= |times|
      modifies this
      ensures !outcome.Committed? ==> View() == old(View())
      ensures outcome.Committed? ==>
        var pending := Fresh(Unique(batch), old(receipts));
        && |pending| <= |times| && (forall e | e in pending :: IdentityKey(e) in identities)
        && outcome.count == |pending| && (forall e | e in pending :: ActiveIn(users, identities[IdentityKey(e)]))
        && SameRows(Rows(), PutAll(old(Rows()), WrittenOf(old(Rows()), pending, identities, times, request, |pending|),
          request))
    {
      hide Unique, Fresh, PutAll, WrittenOf, Cursor;
      ghost var start := Rows();
      identities := map[];
      var unique := FirstOfEach(batch);
      var pending := WithoutExisting(unique);
      FreshIsShorter(batch, receipts);
      SameRowsReflexive(start);
      var before := Tables(Store(receipts, cursors, jobs), users, externals, anonymous);
      if pending == [] {
        NothingWritten(start, pending, identities, times, request);
        return Committed(0), identities;
      }
      var found, complete := ResolveAll(pending, newIds);
      identities := found;
      if complete { EnsureCursors(pending, found); }
      if !complete || exists e | e in pending :: !ActiveIn(users, found[IdentityKey(e)]) {
        Rollback(before);
        return Outcome.IdentityChanged, identities;
      }
      SameWritten(start, Rows(), pending, found, times, request, |pending|);
      WriteReceipts(pending, found, times, request);
      if fault != NoFault {
        Rollback(before);
        return if fault == Deadlock then Transient else Failed, identities;
      }
      outcome := Committed(|pending|);
    }

    /** At most three transactions. Only a changed identity or a deadlock is tried again; any other failure ends it. */
    method PersistTrackReceipts(batch: seq<Event>, request: nat, newIds: Identity -> User, times: seq<nat>,
        faults: seq<Fault>)
      returns (outcome: Outcome, ghost outcomes: seq<Outcome>, ghost identities: map<Identity, User>)
      requires |batch| <= |times| && |faults| == 3
      modifies this
      ensures 1 <= |outcomes| <= 3 && outcome == outcomes[|outcomes| - 1]
      ensures forall k | 0 <= k < |outcomes| - 1 :: RetriedAfter(outcomes[k])
      ensures RetriedAfter(outcome) ==> |outcomes| == 3
      ensures !outcome.Committed? ==> View() == old(View())
      ensures outcome.Committed? ==>
        var pending := Fresh(Unique(batch), old(receipts));
        && |pending| <= |times| && (forall e | e in pending :: IdentityKey(e) in identities)
        && outcome.count == |pending| && (forall e | e in pending :: ActiveIn(users, identities[IdentityKey(e)]))
        && SameRows(Rows(), PutAll(old(Rows()), WrittenOf(old(Rows()), pending, identities, times, request, |pending|),
          request))
    {
      hide Unique, Fresh, PutAll, WrittenOf, SameRows;
      var attempt := 0;
      outcomes := [];
      while true
        invariant attempt == |outcomes| <= 2 && View() == old(View())
        invariant forall k | 0 <= k < attempt :: RetriedAfter(outcomes[k])
        decreases 2 - attempt
      {
        outcome, identities := PersistOnce(batch, request, newIds, times, faults[attempt]);
        outcomes := outcomes + [outcome];
        if outcome.Committed? { return; }
        if attempt >= 2 || !(outcome.IdentityChanged? || outcome.Transient?) { return; }
        attempt := attempt + 1;
      }
    }
  }

  predicate RetriedAfter(outcome: Outcome) { outcome.IdentityChanged? || outcome.Transient? }

  datatype Fault = NoFault | Deadlock | OtherFault

  predicate ActiveIn(users: map<User, UserRow>, u: User) { u in users && users[u].status == Active }

  /** The same rows, counting a missing cursor as 0. */
  ghost predicate SameRows(a: Store, b: Store) {
    a.receipts == b.receipts && a.jobs == b.jobs && forall u :: Cursor(a, u) == Cursor(b, u)
  }

  lemma SameRowsReflexive(a: Store)
    ensures SameRows(a, a)
  {}

  lemma FreshIsShorter(batch: seq<Event>, receipts: map<Id, Receipt>)
    ensures |Fresh(Unique(batch), receipts)| <= |batch|
  {
    UniqueShorter(batch);
    FreshShorter(Unique(batch), receipts);
  }

  lemma {:induction false} UniqueShorter(batch: seq<Event>)
    ensures |Unique(batch)| <= |batch|
  {
    if batch != [] { UniqueShorter(batch[..|batch| - 1]); }
  }

  lemma {:induction false} FreshShorter(events: seq<Event>, receipts: map<Id, Receipt>)
    ensures |Fresh(events, receipts)| <= |events|
  {
    if events != [] { FreshShorter(events[..|events| - 1], receipts); }
  }

  /** Zero cursors make no difference to what is written. */
  ghost predicate Parallel(a: Store, b: Store, pending: seq<Event>, identities: map<Identity, User>, times: seq<nat>,
      request: nat, k: nat)
    requires k <= |pending| <= |times| && forall e | e in pending :: IdentityKey(e) in identities
  {
    var v, w := WrittenOf(a, pending, identities, times, request, k),
      WrittenOf(b, pending, identities, times, request, k);
    v == w && SameRows(PutAll(a, v, request), PutAll(b, w, request))
  }

  lemma {:induction false} SameWritten(a: Store, b: Store, pending: seq<Event>, identities: map<Identity, User>,
      times: seq<nat>, request: nat, k: nat)
    requires k <= |pending| <= |times| && forall e | e in pending :: IdentityKey(e) in identities
    requires SameRows(a, b)
    ensures Parallel(a, b, pending, identities, times, request, k)
  {
    if k == 0 {
      NothingWritten(a, pending, identities, times, request);
      NothingWritten(b, pending, identities, times, request);
    } else {
      hide Parallel;
      SameWritten(a, b, pending, identities, times, request, k - 1);
      ParallelStep(a, b, pending, identities, times, request, k - 1);
    }
  }

  lemma ParallelStep(a: Store, b: Store, pending: seq<Event>, identities: map<Identity, User>, times: seq<nat>,
      request: nat, k: nat)
    requires k < |pending| <= |times| && forall e | e in pending :: IdentityKey(e) in identities
    requires Parallel(a, b, pending, identities, times, request, k)
    ensures Parallel(a, b, pending, identities, times, request, k + 1)
  {
    hide PutAll, Put, Cursor;
    var written, u := WrittenOf(a, pending, identities, times, request, k), identities[IdentityKey(pending[k])];
    var x, y := PutAll(a, written, request), PutAll(b, written, request);
    assert Cursor(x, u) == Cursor(y, u);
    OneMoreWritten(a, pending, identities, times, request, k);
    OneMoreWritten(b, pending, identities, times, request, k);
    PutSameRows(x, y, Receipt(u, Cursor(x, u) + 1, pending[k], times[k]), request);
  }

  lemma PutSameRows(a: Store, b: Store, r: Receipt, request: nat)
    requires SameRows(a, b)
    ensures SameRows(Put(a, r, request), Put(b, r, request))
  {
    forall u ensures Cursor(Put(a, r, request), u) == Cursor(Put(b, r, request), u) {
      assert Cursor(a, u) == Cursor(b, u);
    }
  }

  lemma NothingWritten(store: Store, pending: seq<Event>, identities: map<Identity, User>, times: seq<nat>,
      request: nat)
    requires |pending| <= |times| && forall e | e in pending :: IdentityKey(e) in identities
    ensures PutAll(store, WrittenOf(store, pending, identities, times, request, 0), request) == store
  {}

  lemma OneMoreWritten(store: Store, pending: seq<Event>, identities: map<Identity, User>, times: seq<nat>,
      request: nat, k: nat)
    requires k < |pending| <= |times| && forall e | e in pending :: IdentityKey(e) in identities
    ensures var soFar := PutAll(store, WrittenOf(store, pending, identities, times, request, k), request);
      var u := identities[IdentityKey(pending[k])];
      PutAll(store, WrittenOf(store, pending, identities, times, request, k + 1), request)
        == Put(soFar, Receipt(u, Cursor(soFar, u) + 1, pending[k], times[k]), request)
  {
    var longer := WrittenOf(store, pending, identities, times, request, k + 1);
    assert longer[..|longer| - 1] == WrittenOf(store, pending, identities, times, request, k);
  }
}
