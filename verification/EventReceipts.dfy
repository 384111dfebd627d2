/**
 Event receipts as concurrent transactions: event locks, the identities in their sort order, where an insert waits
 for the same insert of another transaction, cursor locks, a check of the profiles, one numbered receipt at a time,
 and one commit. How texts are collated is left open.
 */
module EventReceipts {
  import opened Wrappers

  type Id = nat
  type User = nat
  type Txn = nat

  datatype Identity = External(externalId: string) | Anonymous(anonId: string)

  /** An insert id is a number with a spelling; folding the case keeps the number. */
  datatype Event = Event(id: Id, spelling: nat, external: string, anonymous: string, name: string, properties: string)
  datatype Receipt = Receipt(user: User, number: nat, event: Event, receivedAt: nat)
  datatype Job = Job(receipt: Receipt, request: nat)

  /** What survives a commit. A customer without a cursor row counts as having cursor 0. */
  datatype Store = Store(receipts: map<Id, Receipt>, cursors: map<User, nat>, jobs: map<Id, Job>)

  function IdentityKey(e: Event): Identity {
    if e.external != "" then External(e.external) else Anonymous(e.anonymous)
  }

  /** Where an identity stands in the sort. Texts that compare as equal stand at the same place. */
  type Collation = Identity -> real

  /** Every event of a request names an external or an anonymous customer. */
  predicate Named(key: Identity) { if key.External? then key.externalId != "" else key.anonId != "" }

  function Folded(e: Event): Event { e.(spelling := 0) }

  function Ids(events: seq<Event>): set<Id> { set e | e in events :: e.id }

  /** The first event of each id, in batch order, with the id folded. */
  function Unique(batch: seq<Event>): seq<Event> {
    if batch == [] then []
    else
      var earlier := Unique(batch[..|batch| - 1]);
      var last := batch[|batch| - 1];
      if last.id in Ids(earlier) then earlier else earlier + [Folded(last)]
  }

  /** The events whose receipt does not exist yet. */
  function Fresh(events: seq<Event>, receipts: map<Id, Receipt>): seq<Event> {
    if events == [] then []
    else
      var earlier := Fresh(events[..|events| - 1], receipts);
      var last := events[|events| - 1];
      if last.id in receipts then earlier else earlier + [last]
  }

  function Cursor(store: Store, u: User): nat { if u in store.cursors then store.cursors[u] else 0 }

  /** One receipt: the cursor moves on, the row is inserted, its job too unless there is one. */
  function Put(store: Store, r: Receipt, request: nat): Store {
    Store(store.receipts[r.event.id := r], store.cursors[r.user := r.number],
          if r.event.id in store.jobs then store.jobs else store.jobs[r.event.id := Job(r, request)])
  }

  function PutAll(store: Store, written: seq<Receipt>, request: nat): Store {
    if written == [] then store
    else Put(PutAll(store, written[..|written| - 1], request), written[|written| - 1], request)
  }

  // ---------------------------------------------------------------- transactions

  datatype Phase = LockingEvents | Resolving | LockingCursors | Writing

  datatype Tx = Tx(batch: seq<Event>, request: nat, phase: Phase, pending: seq<Event>,
                   identities: map<Identity, User>, written: seq<Receipt>)

  datatype State = State(store: Store, active: set<User>, now: nat, txs: map<Txn, Tx>,
                         eventLocks: map<Id, Txn>, identityLocks: map<Identity, Txn>, cursorLocks: map<User, Txn>,
                         profileLocks: map<User, Txn>, collation: Collation)

  datatype Action =
    | Begin(t: Txn, batch: seq<Event>, request: nat)
    | LockEvent(t: Txn, id: Id)
    | ReadExisting(t: Txn)
    | Resolve(t: Txn, key: Identity, user: User, inserted: bool)
    | Resolved(t: Txn)
    | LockCursor(t: Txn, user: User)
    | CheckProfiles(t: Txn)
    | Write(t: Txn)
    | Commit(t: Txn)
    | Abort(t: Txn)
    | ChangeUser(user: User, nowActive: bool)
    | Tick(amount: nat)

  function Initial(collation: Collation): State {
    State(Store(map[], map[], map[]), {}, 0, map[], map[], map[], map[], map[], collation)
  }

  function Users(tx: Tx): set<User> { tx.identities.Values }

  predicate Holds<K>(locks: map<K, Txn>, k: K, t: Txn) { k in locks && locks[k] == t }

  function Without<K>(locks: map<K, Txn>, t: Txn): map<K, Txn> {
    map k | k in locks && locks[k] != t :: locks[k]
  }

  /** The end of a transaction: it is gone and so are all its locks. */
  function Release(s: State, t: Txn): State {
    s.(txs := s.txs - {t}, eventLocks := Without(s.eventLocks, t), identityLocks := Without(s.identityLocks, t),
       cursorLocks := Without(s.cursorLocks, t), profileLocks := Without(s.profileLocks, t))
  }

  /** Locks are taken in ascending order: this is the next one. */
  predicate NextLock(locks: map<nat, Txn>, wanted: set<nat>, k: nat, t: Txn) {
    k in wanted && !Holds(locks, k, t) && forall j | j in wanted && j < k :: Holds(locks, j, t)
  }

  predicate AllHeld(locks: map<nat, Txn>, wanted: set<nat>, t: Txn) {
    forall k | k in wanted :: Holds(locks, k, t)
  }

  predicate AllResolved(tx: Tx) {
    forall e | e in tx.pending :: IdentityKey(e) in tx.identities
  }

  /** The stable sort puts event j before event i. */
  predicate SortsBefore(collation: Collation, events: seq<Event>, j: nat, i: nat)
    requires j < |events| && i < |events|
  {
    var p, q := collation(IdentityKey(events[j])), collation(IdentityKey(events[i]));
    p < q || (p == q && j < i)
  }

  /** Event i is the first of the sort whose identity is not resolved. */
  predicate NextAt(collation: Collation, tx: Tx, i: nat)
    requires i < |tx.pending|
  {
    && IdentityKey(tx.pending[i]) !in tx.identities
    && forall j | 0 <= j < |tx.pending| && SortsBefore(collation, tx.pending, j, i) ::
         IdentityKey(tx.pending[j]) in tx.identities
  }

  /** The identities are resolved in their order: this is the next one. */
  predicate NextIdentity(collation: Collation, tx: Tx, key: Identity) {
    exists i | 0 <= i < |tx.pending| :: IdentityKey(tx.pending[i]) == key && NextAt(collation, tx, i)
  }

  predicate Enabled(s: State, a: Action) {
    match a
    case Begin(t, batch, request) => t !in s.txs && forall e | e in batch :: Named(IdentityKey(e))
    case Tick(_) => true
    case ChangeUser(u, _) => u !in s.profileLocks
    case Abort(t) => t in s.txs
    case LockEvent(t, id) =>
      t in s.txs && s.txs[t].phase == LockingEvents && NextLock(s.eventLocks, Ids(s.txs[t].batch), id, t)
        && id !in s.eventLocks
    case ReadExisting(t) => t in s.txs && s.txs[t].phase == LockingEvents
      && AllHeld(s.eventLocks, Ids(s.txs[t].batch), t)
    case Resolve(t, key, _, _) =>
      t in s.txs && s.txs[t].phase == Resolving && NextIdentity(s.collation, s.txs[t], key)
        && key !in s.identityLocks
    case Resolved(t) => t in s.txs && s.txs[t].phase == Resolving && AllResolved(s.txs[t])
    case LockCursor(t, u) =>
      t in s.txs && s.txs[t].phase == LockingCursors && NextLock(s.cursorLocks, Users(s.txs[t]), u, t)
        && u !in s.cursorLocks
    case CheckProfiles(t) =>
      && t in s.txs && s.txs[t].phase == LockingCursors && AllHeld(s.cursorLocks, Users(s.txs[t]), t)
      && forall u | u in Users(s.txs[t]) :: u !in s.profileLocks
    case Write(t) => t in s.txs && s.txs[t].phase == Writing && AllResolved(s.txs[t])
      && |s.txs[t].written| < |s.txs[t].pending|
    case Commit(t) => t in s.txs && s.txs[t].phase == Writing && |s.txs[t].written| == |s.txs[t].pending|
  }

  /** The receipt written next: numbered by the customer's cursor as this transaction sees it. */
  function NextReceipt(s: State, tx: Tx): Receipt
    requires |tx.written| < |tx.pending| && AllResolved(tx)
  {
    var e := tx.pending[|tx.written|];
    var u := tx.identities[IdentityKey(e)];
    Receipt(u, Cursor(PutAll(s.store, tx.written, tx.request), u) + 1, e, s.now)
  }

  function Step(s: State, a: Action): State {
    if !Enabled(s, a) then s
    else match a
      case Begin(t, batch, request) => s.(txs := s.txs[t := Tx(batch, request, LockingEvents, [], map[], [])])
      case Tick(amount) => s.(now := s.now + amount)
      case ChangeUser(u, on) => s.(active := if on then s.active + {u} else s.active - {u})
      case Abort(t) => Release(s, t)
      case LockEvent(t, id) => s.(eventLocks := s.eventLocks[id := t])
      case ReadExisting(t) =>
        var pending := Fresh(Unique(s.txs[t].batch), s.store.receipts);
        if pending == [] then Release(s, t)
        else s.(txs := s.txs[t := s.txs[t].(phase := Resolving, pending := pending)])
      case Resolve(t, key, user, inserted) =>
        s.(txs := s.txs[t := s.txs[t].(identities := s.txs[t].identities[key := user])],
           identityLocks := if inserted then s.identityLocks[key := t] else s.identityLocks)
      case Resolved(t) => s.(txs := s.txs[t := s.txs[t].(phase := LockingCursors)])
      case LockCursor(t, u) => s.(cursorLocks := s.cursorLocks[u := t])
      case CheckProfiles(t) =>
        if Users(s.txs[t]) <= s.active then
          s.(txs := s.txs[t := s.txs[t].(phase := Writing)],
             profileLocks := s.profileLocks + map u | u in Users(s.txs[t]) :: t)
        else Release(s, t)
      case Write(t) =>
        s.(txs := s.txs[t := s.txs[t].(written := s.txs[t].written + [NextReceipt(s, s.txs[t])])])
      case Commit(t) => Release(s.(store := PutAll(s.store, s.txs[t].written, s.txs[t].request)), t)
  }

  function Run(s: State, actions: seq<Action>): State {
    if actions == [] then s else Step(Run(s, actions[..|actions| - 1]), actions[|actions| - 1])
  }

  // ---------------------------------------------------------------- the committed rows

  /** Each customer's receipts carry the numbers 1..cursor, each once. */
  predicate Gapless(store: Store) {
    && (forall id | id in store.receipts :: 1 <= store.receipts[id].number <= Cursor(store, store.receipts[id].user))
    && (forall i, j | i in store.receipts && j in store.receipts && i != j
      && store.receipts[i].user == store.receipts[j].user ::
          store.receipts[i].number != store.receipts[j].number)
  }

  /** Every number up to the cursor is carried by some receipt. */
  ghost predicate Complete(store: Store) {
    forall u: User, n: nat | 1 <= n <= Cursor(store, u) :: Carried(store, u, n)
  }

  predicate Carried(store: Store, u: User, n: nat) {
    exists id | id in store.receipts :: store.receipts[id].user == u && store.receipts[id].number == n
  }

  /** Receipts are filed under their own folded id; later numbers were received no earlier. */
  predicate Ordered(store: Store) {
    && (forall id | id in store.receipts :: store.receipts[id].event.id == id && store.receipts[id].event.spelling == 0)
    && (forall i, j | i in store.receipts && j in store.receipts && store.receipts[i].user == store.receipts[j].user
                      && store.receipts[i].number < store.receipts[j].number ::
                        store.receipts[i].receivedAt <= store.receipts[j].receivedAt)
  }

  predicate JobsMatch(store: Store) {
    store.jobs.Keys == store.receipts.Keys && forall id | id in store.receipts ::
      store.jobs[id].receipt == store.receipts[id]
  }

  ghost predicate StoreOk(store: Store) {
    Gapless(store) && Complete(store) && Ordered(store) && JobsMatch(store)
  }

  /** r is the next receipt of its customer, of an event without one. */
  predicate Fits(store: Store, r: Receipt) {
    && r.event.id !in store.receipts && r.event.spelling == 0
    && r.number == Cursor(store, r.user) + 1
    && forall id | id in store.receipts && store.receipts[id].user == r.user ::
      store.receipts[id].receivedAt <= r.receivedAt
  }

  lemma {:induction false} PutKeepsGapless(store: Store, r: Receipt, request: nat)
    requires Gapless(store) && Fits(store, r)
    ensures Gapless(Put(store, r, request))
  {}

  lemma {:induction false} PutKeepsComplete(store: Store, r: Receipt, request: nat)
    requires Complete(store) && Fits(store, r)
    ensures Complete(Put(store, r, request))
  {
    var after := Put(store, r, request);
    forall u: User, n: nat | 1 <= n <= Cursor(after, u) ensures Carried(after, u, n) {
      if u == r.user && n == r.number {
        assert after.receipts[r.event.id] == r;
      } else {
        assert Carried(store, u, n);
        var id :| id in store.receipts && store.receipts[id].user == u && store.receipts[id].number == n;
        assert after.receipts[id] == store.receipts[id];
      }
    }
  }

  lemma {:induction false} PutKeepsOrdered(store: Store, r: Receipt, request: nat)
    requires Ordered(store) && Gapless(store) && Fits(store, r)
    ensures Ordered(Put(store, r, request))
  {
    assert forall j | j in store.receipts && store.receipts[j].user == r.user ::
      store.receipts[j].number <= Cursor(store, r.user);
  }

  lemma {:induction false} PutKeepsJobs(store: Store, r: Receipt, request: nat)
    requires JobsMatch(store) && Fits(store, r)
    ensures JobsMatch(Put(store, r, request))
  {}

  lemma {:induction false} PutKeeps(store: Store, r: Receipt, request: nat)
    requires StoreOk(store) && Fits(store, r)
    ensures StoreOk(Put(store, r, request))
  {
    hide Gapless, Complete, Ordered, JobsMatch, Fits, Put;
    PutKeepsGapless(store, r, request);
    PutKeepsComplete(store, r, request);
    PutKeepsOrdered(store, r, request);
    PutKeepsJobs(store, r, request);
  }

  /** Each written receipt fits the rows as its own transaction sees them. */
  predicate Writable(store: Store, written: seq<Receipt>, request: nat) {
    forall k | 0 <= k < |written| :: Fits(PutAll(store, written[..k], request), written[k])
  }

  lemma {:induction false} PutAllKeeps(store: Store, written: seq<Receipt>, request: nat)
    requires StoreOk(store) && Writable(store, written, request)
    ensures StoreOk(PutAll(store, written, request))
    decreases |written|
  {
    hide StoreOk, Fits, Put;
    if written != [] {
      var n := |written| - 1;
      forall k | 0 <= k < n ensures Fits(PutAll(store, written[..n][..k], request), written[..n][k]) {
        assert written[..n][..k] == written[..k];
      }
      PutAllKeeps(store, written[..n], request);
      PutKeeps(PutAll(store, written[..n], request), written[n], request);
    }
  }
}
