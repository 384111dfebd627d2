/**
 Whether concurrent receipt transactions can block each other for good. Event locks, identities and cursors are
 each taken in one order; only identities that sort alike can be taken in different orders.
 */
module ReceiptDeadlock {
  import opened Collections
  import opened EventReceipts
  import opened ReceiptSafety

  // ---------------------------------------------------------------- locks are taken in order, so someone can go on

  /** Of the locks it wants, t has the lowest ones. */
  predicate Ascending(locks: map<nat, Txn>, wanted: set<nat>, t: Txn) {
    forall i, j | i in wanted && j in wanted && i < j && Holds(locks, j, t) :: Holds(locks, i, t)
  }

  predicate EventOwners(s: State) {
    forall k | k in s.eventLocks :: s.eventLocks[k] in s.txs && k in Ids(s.txs[s.eventLocks[k]].batch)
  }

  predicate CursorOwners(s: State) {
    forall k | k in s.cursorLocks ::
      && s.cursorLocks[k] in s.txs && k in Users(s.txs[s.cursorLocks[k]])
      && (s.txs[s.cursorLocks[k]].phase == LockingCursors || s.txs[s.cursorLocks[k]].phase == Writing)
  }

  predicate ProfileOwners(s: State) {
    forall k | k in s.profileLocks :: Holds(s.cursorLocks, k, s.profileLocks[k]) && s.profileLocks[k] in s.txs
                                      && s.txs[s.profileLocks[k]].phase == Writing
  }

  predicate AllAscending(s: State) {
    forall t | t in s.txs :: Ascending(s.eventLocks, Ids(s.txs[t].batch), t)
      && Ascending(s.cursorLocks, Users(s.txs[t]), t)
  }

  predicate ResolvedHere(pending: seq<Event>, identities: map<Identity, User>, key: Identity) {
    key in identities && exists e | e in pending :: IdentityKey(e) == key
  }

  /** What is resolved does not stand behind what is not. */
  predicate ResolvedInOrder(collation: Collation, pending: seq<Event>, identities: map<Identity, User>) {
    forall e, f | e in pending && f in pending && IdentityKey(e) in identities
      && collation(IdentityKey(f)) < collation(IdentityKey(e)) :: IdentityKey(f) in identities
  }

  /** An identity whose row is inserted but not committed was resolved by the inserting transaction. */
  predicate IdentityOwners(s: State) {
    forall k | k in s.identityLocks ::
      && s.identityLocks[k] in s.txs && s.txs[s.identityLocks[k]].phase != LockingEvents
      && ResolvedHere(s.txs[s.identityLocks[k]].pending, s.txs[s.identityLocks[k]].identities, k)
  }

  predicate IdentitiesOrdered(s: State) {
    IdentityOwners(s) && forall t | t in s.txs ::
      ResolvedInOrder(s.collation, s.txs[t].pending, s.txs[t].identities)
  }

  predicate Orderly(s: State) {
    EventOwners(s) && CursorOwners(s) && ProfileOwners(s) && AllAscending(s)
  }

  lemma ReleaseKeepsIdentities(s: State, t: Txn)
    requires IdentitiesOrdered(s)
    ensures IdentitiesOrdered(Release(s, t))
  {
    hide ResolvedHere, ResolvedInOrder;
  }

  /** What stands before the next identity is resolved, ties aside. */
  lemma BeforeNext(collation: Collation, tx: Tx, key: Identity)
    requires NextIdentity(collation, tx, key)
    ensures key !in tx.identities && exists e | e in tx.pending :: IdentityKey(e) == key
    ensures forall e | e in tx.pending && collation(IdentityKey(e)) < collation(key) :: IdentityKey(e) in tx.identities
  {
    var i :| 0 <= i < |tx.pending| && IdentityKey(tx.pending[i]) == key && NextAt(collation, tx, i);
    forall e | e in tx.pending && collation(IdentityKey(e)) < collation(key) ensures IdentityKey(e) in tx.identities {
      var j :| 0 <= j < |tx.pending| && tx.pending[j] == e;
      assert SortsBefore(collation, tx.pending, j, i);
    }
    assert tx.pending[i] in tx.pending;
  }

  lemma NextResolved(collation: Collation, tx: Tx, key: Identity, user: User, k: Identity)
    requires NextIdentity(collation, tx, key) && ResolvedInOrder(collation, tx.pending, tx.identities)
    ensures ResolvedInOrder(collation, tx.pending, tx.identities[key := user])
    ensures ResolvedHere(tx.pending, tx.identities[key := user], key)
    ensures ResolvedHere(tx.pending, tx.identities, k) ==> ResolvedHere(tx.pending, tx.identities[key := user], k)
  {
    BeforeNext(collation, tx, key);
    hide NextIdentity;
  }

  lemma ResolveKeepsIdentities(s: State, t: Txn, key: Identity, user: User, inserted: bool)
    requires IdentitiesOrdered(s) && Enabled(s, Resolve(t, key, user, inserted))
    ensures IdentitiesOrdered(Step(s, Resolve(t, key, user, inserted)))
  {
    hide ResolvedHere, ResolvedInOrder, NextIdentity;
    NextResolved(s.collation, s.txs[t], key, user, key);
    forall k | k in s.identityLocks && s.identityLocks[k] == t
      ensures ResolvedHere(s.txs[t].pending, s.txs[t].identities[key := user], k)
    {
      NextResolved(s.collation, s.txs[t], key, user, k);
    }
  }

  /** A step of t that leaves what it resolved, or starts with nothing resolved. */
  lemma OwnStepKeepsIdentities(s: State, r: State, t: Txn)
    requires IdentitiesOrdered(s) && t in r.txs && r.txs == s.txs[t := r.txs[t]] && r.identityLocks == s.identityLocks
      && r.collation == s.collation
    requires if t in s.txs && s.txs[t].phase != LockingEvents then
               r.txs[t].pending == s.txs[t].pending && r.txs[t].identities == s.txs[t].identities
               && r.txs[t].phase != LockingEvents
             else r.txs[t].identities == map[]
    ensures IdentitiesOrdered(r)
  {
    if r.txs[t].identities == map[] { assert ResolvedInOrder(r.collation, r.txs[t].pending, map[]); }
    hide ResolvedHere, ResolvedInOrder;
  }

  lemma {:induction false} TxStepKeepsIdentities(s: State, a: Action)
    requires Inv(s) && IdentitiesOrdered(s) && Enabled(s, a)
    requires a.Begin? || a.ReadExisting? || a.Resolved? || a.CheckProfiles? || a.Write?
    ensures IdentitiesOrdered(Step(s, a))
  {
    hide StoreOk, Writable, Unique, Fresh, PutAll, AllHeld, IdentitiesOrdered;
    var r := Step(s, a);
    if a.t !in r.txs {
      ReleaseKeepsIdentities(s, a.t);
    } else {
      if a.t in s.txs { assert TxOk(s, a.t); }
      OwnStepKeepsIdentities(s, r, a.t);
    }
  }

  lemma {:induction false} EndKeepsIdentities(s: State, a: Action)
    requires IdentitiesOrdered(s) && Enabled(s, a) && (a.Commit? || a.Abort?)
    ensures IdentitiesOrdered(Step(s, a))
  {
    hide PutAll, IdentitiesOrdered;
    var r := if a.Commit? then s.(store := PutAll(s.store, s.txs[a.t].written, s.txs[a.t].request)) else s;
    SameIdentities(s, r);
    ReleaseKeepsIdentities(r, a.t);
  }

  lemma RestKeepIdentities(s: State, a: Action)
    requires IdentitiesOrdered(s) && Enabled(s, a) && (a.LockEvent? || a.LockCursor? || a.ChangeUser? || a.Tick?)
    ensures IdentitiesOrdered(Step(s, a))
  {
    hide IdentitiesOrdered;
    SameIdentities(s, Step(s, a));
  }

  lemma {:induction false} StepKeepsIdentities(s: State, a: Action)
    requires Inv(s) && IdentitiesOrdered(s)
    ensures IdentitiesOrdered(Step(s, a))
  {
    hide Inv, IdentitiesOrdered, Enabled;
    if Enabled(s, a) {
      hide Step;
      if a.Resolve? { ResolveKeepsIdentities(s, a.t, a.key, a.user, a.inserted); }
      else if a.Commit? || a.Abort? { EndKeepsIdentities(s, a); }
      else if a.LockEvent? || a.LockCursor? || a.ChangeUser? || a.Tick? { RestKeepIdentities(s, a); }
      else { TxStepKeepsIdentities(s, a); }
    }
  }

  lemma SameIdentities(s: State, r: State)
    requires IdentitiesOrdered(s) && r.txs == s.txs && r.identityLocks == s.identityLocks && r.collation == s.collation
    ensures IdentitiesOrdered(r)
  {
    hide ResolvedHere, ResolvedInOrder;
  }

  lemma WithoutKeepsAscending(locks: map<nat, Txn>, wanted: set<nat>, t: Txn, other: Txn)
    requires Ascending(locks, wanted, other) && other != t
    ensures Ascending(Without(locks, t), wanted, other)
  {}

  lemma ReleaseKeepsOrder(s: State, t: Txn)
    requires Orderly(s)
    ensures Orderly(Release(s, t))
  {
    hide Ascending;
    var r := Release(s, t);
    forall o | o in r.txs ensures Ascending(r.eventLocks, Ids(r.txs[o].batch), o)
      && Ascending(r.cursorLocks, Users(r.txs[o]), o) {
      assert Ascending(s.eventLocks, Ids(s.txs[o].batch), o) && Ascending(s.cursorLocks, Users(s.txs[o]), o);
      WithoutKeepsAscending(s.eventLocks, Ids(s.txs[o].batch), t, o);
      WithoutKeepsAscending(s.cursorLocks, Users(s.txs[o]), t, o);
    }
    hide AllAscending;
  }

  lemma TakeKeepsAscending(locks: map<nat, Txn>, wanted: set<nat>, k: nat, t: Txn, other: Txn, theirs: set<nat>)
    requires NextLock(locks, wanted, k, t) && k !in locks
    requires Ascending(locks, wanted, t) && Ascending(locks, theirs, other)
    ensures Ascending(locks[k := t], wanted, t)
    ensures other != t ==> Ascending(locks[k := t], theirs, other)
  {}

  lemma LockKeepsOrder(s: State, a: Action)
    requires Orderly(s) && Enabled(s, a) && (a.LockEvent? || a.LockCursor?)
    ensures Orderly(Step(s, a))
  {
    hide Ascending, NextLock;
    var r := Step(s, a);
    forall o | o in r.txs ensures Ascending(r.eventLocks, Ids(r.txs[o].batch), o)
      && Ascending(r.cursorLocks, Users(r.txs[o]), o) {
      assert Ascending(s.eventLocks, Ids(s.txs[o].batch), o) && Ascending(s.cursorLocks, Users(s.txs[o]), o);
      if a.LockEvent? {
        TakeKeepsAscending(s.eventLocks, Ids(s.txs[a.t].batch), a.id, a.t, o, Ids(s.txs[o].batch));
      } else {
        TakeKeepsAscending(s.cursorLocks, Users(s.txs[a.t]), a.user, a.t, o, Users(s.txs[o]));
      }
    }
    TakenIsWanted(s, a);
  }

  lemma TakenIsWanted(s: State, a: Action)
    requires Enabled(s, a)
    ensures a.LockEvent? ==> a.id in Ids(s.txs[a.t].batch)
    ensures a.LockCursor? ==> a.user in Users(s.txs[a.t])
  {}

  /** A step of t that moves no lock and changes t's wishes only while it holds none of them. */
  lemma OwnStepKeepsOrder(s: State, r: State, t: Txn)
    requires Orderly(s) && t in r.txs && r.txs == s.txs[t := r.txs[t]]
    requires r.eventLocks == s.eventLocks && r.cursorLocks == s.cursorLocks && r.profileLocks == s.profileLocks
    requires t in s.txs ==> r.txs[t].batch == s.txs[t].batch
    requires (t in s.txs && Users(r.txs[t]) == Users(s.txs[t])
      && (r.txs[t].phase == s.txs[t].phase || (r.txs[t].phase == LockingCursors && s.txs[t].phase == Resolving)))
             || (t !in s.cursorLocks.Values && t !in s.profileLocks.Values)
    requires t !in s.txs ==> t !in s.eventLocks.Values
    ensures Orderly(r)
  {
    forall o | o in r.txs ensures Ascending(r.eventLocks, Ids(r.txs[o].batch), o)
      && Ascending(r.cursorLocks, Users(r.txs[o]), o) {
      if o in s.txs {
        assert Ascending(s.eventLocks, Ids(s.txs[o].batch), o) && Ascending(s.cursorLocks, Users(s.txs[o]), o);
      }
    }
    hide Ascending, Users, Ids;
    forall k | k in r.cursorLocks ensures r.cursorLocks[k] in r.txs && k in Users(r.txs[r.cursorLocks[k]])
      && (r.txs[r.cursorLocks[k]].phase == LockingCursors || r.txs[r.cursorLocks[k]].phase == Writing) {
      assert r.cursorLocks[k] in s.cursorLocks.Values;
    }
    forall k | k in r.profileLocks ensures r.profileLocks[k] in r.txs && r.txs[r.profileLocks[k]].phase == Writing {
      assert r.profileLocks[k] in s.profileLocks.Values;
    }
  }

  lemma {:induction false} TxStepKeepsOrder(s: State, a: Action)
    requires Orderly(s) && Enabled(s, a)
    requires a.Begin? || a.ReadExisting? || a.Resolve? || a.Resolved? || a.Write?
    ensures Orderly(Step(s, a))
  {
    hide Unique, Fresh, PutAll, Ascending, AllAscending;
    var r := Step(s, a);
    if a.t !in r.txs {
      ReleaseKeepsOrder(s, a.t);
    } else {
      NoCursorsYet(s, a.t);
      OwnStepKeepsOrder(s, r, a.t);
    }
  }

  lemma NoCursorsYet(s: State, t: Txn)
    requires CursorOwners(s) && ProfileOwners(s) && EventOwners(s)
    ensures t !in s.txs || (s.txs[t].phase != LockingCursors && s.txs[t].phase != Writing)
      ==> t !in s.cursorLocks.Values && t !in s.profileLocks.Values
    ensures t !in s.txs ==> t !in s.eventLocks.Values
  {}

  lemma {:induction false} CheckKeepsOrder(s: State, t: Txn)
    requires Orderly(s) && Enabled(s, CheckProfiles(t))
    ensures Orderly(Step(s, CheckProfiles(t)))
  {
    hide Ascending, Users;
    var r := Step(s, CheckProfiles(t));
    if t !in r.txs {
      ReleaseKeepsOrder(s, t);
    } else {
      assert r.eventLocks == s.eventLocks && r.cursorLocks == s.cursorLocks;
      forall o | o in r.txs ensures Users(r.txs[o]) == Users(s.txs[o]) && r.txs[o].batch == s.txs[o].batch {
        SameUsers(s.txs[o], r.txs[o]);
      }
      assert AllAscending(r);
      NewProfiles(s, r, t);
    }
  }

  lemma SameUsers(a: Tx, b: Tx)
    requires a.identities == b.identities
    ensures Users(a) == Users(b)
  {}

  lemma NewProfiles(s: State, r: State, t: Txn)
    requires Orderly(s) && Enabled(s, CheckProfiles(t)) && r == Step(s, CheckProfiles(t)) && t in r.txs
    ensures EventOwners(r) && CursorOwners(r) && ProfileOwners(r)
  {
    hide AllAscending;
    OwnersStay(s, r, t);
    forall k | k in r.profileLocks ensures Holds(r.cursorLocks, k, r.profileLocks[k]) && r.profileLocks[k] in r.txs
                                           && r.txs[r.profileLocks[k]].phase == Writing {
      if k in Users(s.txs[t]) {
        assert Holds(s.cursorLocks, k, t);
      } else {
        assert s.profileLocks[k] == r.profileLocks[k];
      }
    }
  }

  lemma OwnersStay(s: State, r: State, t: Txn)
    requires EventOwners(s) && CursorOwners(s) && Enabled(s, CheckProfiles(t)) && r == Step(s, CheckProfiles(t))
      && t in r.txs
    ensures EventOwners(r) && CursorOwners(r)
  {
    hide AllHeld, Users;
    assert r.txs == s.txs[t := s.txs[t].(phase := Writing)];
    SameUsers(s.txs[t], r.txs[t]);
  }

  lemma QuietKeepsOrder(s: State, a: Action)
    requires Orderly(s) && (a.ChangeUser? || a.Tick?)
    ensures Orderly(Step(s, a))
  {
    hide Ascending;
  }

  lemma {:induction false} EndKeepsOrder(s: State, a: Action)
    requires Orderly(s) && Enabled(s, a) && (a.Commit? || a.Abort?)
    ensures Orderly(Step(s, a))
  {
    hide Ascending, PutAll;
    var r := if a.Commit? then s.(store := PutAll(s.store, s.txs[a.t].written, s.txs[a.t].request)) else s;
    ReleaseKeepsOrder(r, a.t);
  }

  lemma {:induction false} StepKeepsOrder(s: State, a: Action)
    requires Inv(s) && Orderly(s)
    ensures Orderly(Step(s, a))
  {
    hide Inv, Orderly, Enabled, PutAll;
    if Enabled(s, a) {
      hide Step;
      match a {
        case CheckProfiles(t) => CheckKeepsOrder(s, t);
        case LockEvent(t, id) => LockKeepsOrder(s, a);
        case LockCursor(t, u) => LockKeepsOrder(s, a);
        case ChangeUser(u, on) => QuietKeepsOrder(s, a);
        case Tick(amount) => QuietKeepsOrder(s, a);
        case Commit(t) => EndKeepsOrder(s, a);
        case Abort(t) => EndKeepsOrder(s, a);
        case _ => TxStepKeepsOrder(s, a);
      }
    }
  }

  lemma {:induction false} EveryRunIsOrderly(collation: Collation, actions: seq<Action>)
    ensures Orderly(Run(Initial(collation), actions)) && IdentitiesOrdered(Run(Initial(collation), actions))
  {
    if actions != [] {
      hide Inv, Step, Orderly, IdentitiesOrdered;
      EveryRunIsOrderly(collation, actions[..|actions| - 1]);
      EveryRunKeepsInv(collation, actions[..|actions| - 1]);
      StepKeepsOrder(Run(Initial(collation), actions[..|actions| - 1]), actions[|actions| - 1]);
      StepKeepsIdentities(Run(Initial(collation), actions[..|actions| - 1]), actions[|actions| - 1]);
    }
  }

  lemma {:induction false} LowestMissing(locks: map<nat, Txn>, wanted: set<nat>, t: Txn) returns (k: nat)
    requires !AllHeld(locks, wanted, t)
    ensures NextLock(locks, wanted, k, t)
    decreases |wanted|
  {
    var j :| j in wanted && !Holds(locks, j, t);
    if i :| i in wanted && i < j && !Holds(locks, i, t) {
      var lower := set x | x in wanted && x < j;
      assert i in lower && j !in lower;
      SubsetSize(lower, wanted);
      k := LowestMissing(locks, lower, t);
    } else {
      k := j;
    }
  }

  function Above(locks: map<nat, Txn>, k: nat): set<nat> { set j | j in locks && j >= k }

  lemma AboveShrinks(locks: map<nat, Txn>, k: nat, next: nat)
    requires k in locks && next > k
    ensures |Above(locks, next)| < |Above(locks, k)|
  {
    assert k in Above(locks, k) && k !in Above(locks, next);
    SubsetSize(Above(locks, next), Above(locks, k));
  }

  predicate Mine(a: Action, t: Txn) {
    match a
    case LockEvent(x, _) => x == t
    case ReadExisting(x) => x == t
    case Resolve(x, _, _, _) => x == t
    case Resolved(x) => x == t
    case LockCursor(x, _) => x == t
    case CheckProfiles(x) => x == t
    case Write(x) => x == t
    case Commit(x) => x == t
    case _ => false
  }

  ghost predicate CanGoOn(s: State, t: Txn) {
    exists a :: Mine(a, t) && Enabled(s, a)
  }

  /** t waits for the lock k, which another transaction holds. */
  predicate WaitsFor(locks: map<nat, Txn>, wanted: set<nat>, t: Txn, k: nat) {
    NextLock(locks, wanted, k, t) && k in locks
  }

  lemma LockingEventsGoesOn(s: State, t: Txn) returns (k: nat)
    requires t in s.txs && s.txs[t].phase == LockingEvents
    ensures CanGoOn(s, t) || WaitsFor(s.eventLocks, Ids(s.txs[t].batch), t, k)
  {
    k := 0;
    if AllHeld(s.eventLocks, Ids(s.txs[t].batch), t) {
      assert Mine(ReadExisting(t), t) && Enabled(s, ReadExisting(t));
    } else {
      k := LowestMissing(s.eventLocks, Ids(s.txs[t].batch), t);
      if k !in s.eventLocks { assert Mine(LockEvent(t, k), t) && Enabled(s, LockEvent(t, k)); }
    }
  }

  lemma LockingCursorsGoesOn(s: State, t: Txn) returns (k: nat)
    requires Orderly(s) && t in s.txs && s.txs[t].phase == LockingCursors
    ensures CanGoOn(s, t) || WaitsFor(s.cursorLocks, Users(s.txs[t]), t, k)
  {
    k := 0;
    if AllHeld(s.cursorLocks, Users(s.txs[t]), t) {
      forall u | u in Users(s.txs[t]) ensures u !in s.profileLocks { assert Holds(s.cursorLocks, u, t); }
      assert Mine(CheckProfiles(t), t) && Enabled(s, CheckProfiles(t));
    } else {
      k := LowestMissing(s.cursorLocks, Users(s.txs[t]), t);
      if k !in s.cursorLocks { assert Mine(LockCursor(t, k), t) && Enabled(s, LockCursor(t, k)); }
    }
  }

  lemma WritingGoesOn(s: State, t: Txn)
    requires Inv(s) && t in s.txs && s.txs[t].phase == Writing
    ensures CanGoOn(s, t)
  {
    hide StoreOk, Fresh, Unique, Writable;
    assert TxOk(s, t);
    if |s.txs[t].written| < |s.txs[t].pending| {
      assert Mine(Write(t), t) && Enabled(s, Write(t));
    } else {
      assert Mine(Commit(t), t) && Enabled(s, Commit(t));
    }
  }

  function Before(collation: Collation, events: seq<Event>, i: nat): set<nat>
    requires i < |events|
  {
    set j: nat | j < |events| && SortsBefore(collation, events, j, i)
  }

  lemma {:induction false} FirstUnresolved(collation: Collation, tx: Tx, i: nat) returns (first: nat)
    requires i < |tx.pending| && IdentityKey(tx.pending[i]) !in tx.identities
    ensures first < |tx.pending| && NextAt(collation, tx, first)
    decreases |Before(collation, tx.pending, i)|
  {
    hide IdentityKey;
    first := i;
    if !NextAt(collation, tx, i) {
      var j :| 0 <= j < |tx.pending| && SortsBefore(collation, tx.pending, j, i)
               && IdentityKey(tx.pending[j]) !in tx.identities;
      assert j in Before(collation, tx.pending, i) && j !in Before(collation, tx.pending, j);
      SubsetSize(Before(collation, tx.pending, j), Before(collation, tx.pending, i));
      first := FirstUnresolved(collation, tx, j);
    }
  }

  /** A resolving transaction goes on, or waits for another one's insert of the identity it is at. */
  lemma ResolvingGoesOn(s: State, t: Txn) returns (key: Identity)
    requires t in s.txs && s.txs[t].phase == Resolving
    ensures CanGoOn(s, t) || (NextIdentity(s.collation, s.txs[t], key) && key in s.identityLocks)
  {
    hide NextAt, IdentityKey;
    key := Anonymous("");
    if AllResolved(s.txs[t]) {
      assert Mine(Resolved(t), t) && Enabled(s, Resolved(t));
    } else {
      var e :| e in s.txs[t].pending && IdentityKey(e) !in s.txs[t].identities;
      var i :| 0 <= i < |s.txs[t].pending| && s.txs[t].pending[i] == e;
      var first := FirstUnresolved(s.collation, s.txs[t], i);
      key := IdentityKey(s.txs[t].pending[first]);
      if key !in s.identityLocks {
        assert Mine(Resolve(t, key, 0, false), t) && Enabled(s, Resolve(t, key, 0, false));
      }
    }
  }

  /** Different identities of events that wait to be registered stand at different places. */
  predicate PendingApart(s: State) {
    forall t, e, f | t in s.txs && e in s.txs[t].pending && f in s.txs[t].pending
      && s.collation(IdentityKey(e)) == s.collation(IdentityKey(f)) :: IdentityKey(e) == IdentityKey(f)
  }

  lemma NextIsHigher(s: State, t: Txn, key: Identity, next: Identity)
    requires PendingApart(s) && IdentitiesOrdered(s) && Holds(s.identityLocks, key, t)
    requires NextIdentity(s.collation, s.txs[t], next)
    ensures s.collation(next) > s.collation(key)
  {
    hide NextIdentity;
    BeforeNext(s.collation, s.txs[t], next);
    var e :| e in s.txs[t].pending && IdentityKey(e) == key;
    var f :| f in s.txs[t].pending && IdentityKey(f) == next;
  }

  function NotBelow(locks: map<Identity, Txn>, collation: Collation, key: Identity): set<Identity> {
    set k | k in locks && collation(k) >= collation(key)
  }

  /** The holder of a lock that someone waits for waits, if at all, for a higher one. */
  lemma HolderIsHigher(locks: map<nat, Txn>, wanted: set<nat>, t: Txn, k: nat, next: nat)
    requires Holds(locks, k, t) && k in wanted && Ascending(locks, wanted, t) && WaitsFor(locks, wanted, t, next)
    ensures next > k
  {}

  /** Following the cursor locks upwards from t ends at a transaction that can go on. */
  lemma {:induction false} CursorChainEnds(s: State, t: Txn, k: nat) returns (free: Txn)
    requires Inv(s) && Orderly(s) && t in s.txs && s.txs[t].phase == LockingCursors
      && WaitsFor(s.cursorLocks, Users(s.txs[t]), t, k)
    ensures free in s.txs && CanGoOn(s, free)
    decreases |Above(s.cursorLocks, k)|
  {
    hide Inv, Ascending, CanGoOn;
    free := s.cursorLocks[k];
    assert Ascending(s.cursorLocks, Users(s.txs[free]), free);
    if s.txs[free].phase == Writing {
      WritingGoesOn(s, free);
    } else {
      var next := LockingCursorsGoesOn(s, free);
      if !CanGoOn(s, free) {
        HolderIsHigher(s.cursorLocks, Users(s.txs[free]), free, k, next);
        AboveShrinks(s.cursorLocks, k, next);
        free := CursorChainEnds(s, free, next);
      }
    }
  }

  lemma PastIdentitiesGoesOn(s: State, t: Txn) returns (free: Txn)
    requires Inv(s) && Orderly(s) && t in s.txs && (s.txs[t].phase == LockingCursors || s.txs[t].phase == Writing)
    ensures free in s.txs && CanGoOn(s, free)
  {
    hide Inv, CanGoOn;
    free := t;
    if s.txs[t].phase == LockingCursors {
      var k := LockingCursorsGoesOn(s, t);
      if !CanGoOn(s, t) { free := CursorChainEnds(s, t, k); }
    } else {
      WritingGoesOn(s, t);
    }
  }

  /** Following the inserted identities upwards from t ends at a transaction that can go on. */
  lemma {:induction false} IdentityChainEnds(s: State, t: Txn, key: Identity) returns (free: Txn)
    requires Inv(s) && Orderly(s) && IdentitiesOrdered(s) && PendingApart(s) && Holds(s.identityLocks, key, t)
    ensures free in s.txs && CanGoOn(s, free)
    decreases |NotBelow(s.identityLocks, s.collation, key)|
  {
    hide Inv, CanGoOn, NextIdentity, ResolvedHere, ResolvedInOrder, Ascending, PendingApart;
    free := t;
    if s.txs[t].phase == Resolving {
      var next := ResolvingGoesOn(s, t);
      if !CanGoOn(s, t) {
        NextIsHigher(s, t, key, next);
        var below, above := NotBelow(s.identityLocks, s.collation, next), NotBelow(s.identityLocks, s.collation, key);
        assert key in above && key !in below;
        SubsetSize(below, above);
        free := IdentityChainEnds(s, s.identityLocks[next], next);
      }
    } else {
      free := PastIdentitiesGoesOn(s, t);
    }
  }

  lemma PastEventsGoesOn(s: State, t: Txn) returns (free: Txn)
    requires Inv(s) && Orderly(s) && IdentitiesOrdered(s) && PendingApart(s)
    requires t in s.txs && s.txs[t].phase != LockingEvents
    ensures free in s.txs && CanGoOn(s, free)
  {
    hide Inv, CanGoOn, Orderly, IdentitiesOrdered, NextIdentity;
    if s.txs[t].phase == Resolving {
      free := t;
      var key := ResolvingGoesOn(s, t);
      if !CanGoOn(s, t) { free := IdentityChainEnds(s, s.identityLocks[key], key); }
    } else {
      free := PastIdentitiesGoesOn(s, t);
    }
  }

  lemma {:induction false} EventChainEnds(s: State, t: Txn, k: nat) returns (free: Txn)
    requires Inv(s) && Orderly(s) && IdentitiesOrdered(s) && PendingApart(s)
    requires t in s.txs && s.txs[t].phase == LockingEvents
    requires WaitsFor(s.eventLocks, Ids(s.txs[t].batch), t, k)
    ensures free in s.txs && CanGoOn(s, free)
    decreases |Above(s.eventLocks, k)|
  {
    hide Inv, Ascending, CanGoOn;
    free := s.eventLocks[k];
    assert Ascending(s.eventLocks, Ids(s.txs[free].batch), free);
    if s.txs[free].phase == LockingEvents {
      var next := LockingEventsGoesOn(s, free);
      if !CanGoOn(s, free) {
        HolderIsHigher(s.eventLocks, Ids(s.txs[free].batch), free, k, next);
        AboveShrinks(s.eventLocks, k, next);
        free := EventChainEnds(s, free, next);
      }
    } else {
      free := PastEventsGoesOn(s, free);
    }
  }

  /**
   Whenever transactions are under way and the identities they wait to register stand apart, one of them can take
   its next step.
   */
  lemma SomeoneCanGoOn(collation: Collation, actions: seq<Action>, t: Txn) returns (free: Txn)
    requires t in Run(Initial(collation), actions).txs && PendingApart(Run(Initial(collation), actions))
    ensures free in Run(Initial(collation), actions).txs && CanGoOn(Run(Initial(collation), actions), free)
  {
    hide Inv, Orderly, IdentitiesOrdered, CanGoOn, PendingApart;
    var s := Run(Initial(collation), actions);
    EveryRunKeepsInv(collation, actions);
    EveryRunIsOrderly(collation, actions);
    free := t;
    if s.txs[t].phase == LockingEvents {
      var k := LockingEventsGoesOn(s, t);
      if !CanGoOn(s, t) { free := EventChainEnds(s, t, k); }
    } else {
      free := PastEventsGoesOn(s, t);
    }
  }

  // ---------------------------------------------------------------- runs over some identities

  /** Every event of every request names one of these identities. */
  predicate Within(actions: seq<Action>, ids: iset<Identity>) {
    forall a, e | a in actions && a.Begin? && e in a.batch :: IdentityKey(e) in ids
  }

  /** Different names among these stand at different places. */
  ghost predicate Apart(collation: Collation, ids: iset<Identity>) {
    forall a, b | a in ids && b in ids && Named(a) && Named(b) && collation(a) == collation(b) :: a == b
  }

  /** Transactions are under way, and none can take its next step: all of them wait for each other. */
  ghost predicate Deadlocked(s: State) {
    s.txs != map[] && forall t | t in s.txs :: !CanGoOn(s, t)
  }

  ghost predicate BatchesWithin(s: State, collation: Collation, ids: iset<Identity>) {
    s.collation == collation
    && forall t, e | t in s.txs && e in s.txs[t].batch :: IdentityKey(e) in ids && Named(IdentityKey(e))
  }

  lemma {:induction false} StepStaysWithin(s: State, a: Action, collation: Collation, ids: iset<Identity>)
    requires BatchesWithin(s, collation, ids) && Within([a], ids)
    ensures BatchesWithin(Step(s, a), collation, ids)
  {
    hide IdentityKey, Named, Unique, Fresh, PutAll, NextIdentity, NextLock, AllHeld, AllResolved, Users;
    assert a in [a];
  }

  lemma {:induction false} RunStaysWithin(collation: Collation, actions: seq<Action>, ids: iset<Identity>)
    requires Within(actions, ids)
    ensures BatchesWithin(Run(Initial(collation), actions), collation, ids)
  {
    hide Step, IdentityKey;
    if actions != [] {
      var n := |actions| - 1;
      assert forall a | a in actions[..n] :: a in actions;
      RunStaysWithin(collation, actions[..n], ids);
      assert actions[n] in actions;
      StepStaysWithin(Run(Initial(collation), actions[..n]), actions[n], collation, ids);
    }
  }

  lemma PendingOfBatch(tx: Tx, receipts: map<Id, Receipt>, e: Event)
    requires e in Fresh(Unique(tx.batch), receipts)
    ensures exists b | b in tx.batch :: IdentityKey(b) == IdentityKey(e)
  {
    FreshIs(Unique(tx.batch), receipts);
    UniqueIsFirst(tx.batch);
    hide Unique, Fresh;
    var i :| 0 <= i < |tx.batch| && FirstIn(tx.batch, i) && e == Folded(tx.batch[i]);
    assert tx.batch[i] in tx.batch;
  }

  lemma ApartWithin(s: State, collation: Collation, ids: iset<Identity>)
    requires Inv(s) && BatchesWithin(s, collation, ids) && Apart(collation, ids)
    ensures PendingApart(s)
  {
    hide StoreOk, Unique, Fresh, IdentityKey, Named, Writable;
    forall t, e | t in s.txs && e in s.txs[t].pending ensures IdentityKey(e) in ids && Named(IdentityKey(e)) {
      assert TxOk(s, t);
      PendingOfBatch(s.txs[t], s.store.receipts, e);
    }
  }

  // ---------------------------------------------------------------- two requests that deadlock

  function EventOf(id: Id, key: Identity): Event {
    match key
    case External(externalId) => Event(id, 0, externalId, "", "", "")
    case Anonymous(anonId) => Event(id, 0, "", anonId, "", "")
  }

  function Both(first: Identity, second: Identity, id: Id): seq<Event> {
    [EventOf(id, first), EventOf(id + 1, second)]
  }

  function Begins(a: Identity, b: Identity): seq<Action> { [Begin(0, Both(a, b, 0), 0), Begin(1, Both(b, a, 2), 1)] }

  function TakesTwo(t: Txn, id: Id): seq<Action> { [LockEvent(t, id), LockEvent(t, id + 1)] }

  function Takes(): seq<Action> { TakesTwo(0, 0) + TakesTwo(1, 2) }

  /** The event locks of both requests. */
  const TAKEN: map<Id, Txn> := map[0 := 0, 1 := 0, 2 := 1, 3 := 1]

  function Reads(): seq<Action> { [ReadExisting(0), ReadExisting(1)] }

  function Inserts(a: Identity, b: Identity): seq<Action> { [Resolve(0, a, 0, true), Resolve(1, b, 1, true)] }

  /** Two requests for new customers a and b, in opposite orders; each has inserted its first one. */
  function Crossing(a: Identity, b: Identity): seq<Action> {
    Begins(a, b) + (Takes() + (Reads() + Inserts(a, b)))
  }

  lemma {:induction false} TwoAreNew(d: Event, e: Event)
    requires d.id != e.id && d.spelling == 0 && e.spelling == 0
    ensures Unique([d, e]) == [d, e] && Fresh([d, e], map[]) == [d, e]
  {
    hide Ids;
    assert [d, e][..1] == [d] && [d][..0] == [];
    assert Unique([d]) == [d] && Fresh([d], map[]) == [d] by { assert Ids([]) == {} by { NoIds(); } }
    assert e.id !in Ids([d]) by { IdsOfTwo(d, e); }
  }

  lemma NoIds()
    ensures Ids([]) == {}
  {}

  lemma IdsOfTwo(d: Event, e: Event)
    ensures Ids([d]) == {d.id} && Ids([d, e]) == {d.id, e.id}
  {
    assert [d, e][0] in [d, e] && [d, e][1] in [d, e];
  }

  lemma {:induction false} BothAreNew(a: Identity, b: Identity, id: Id)
    requires Named(a) && Named(b)
    ensures Fresh(Unique(Both(a, b, id)), map[]) == Both(a, b, id) && Ids(Both(a, b, id)) == {id, id + 1}
    ensures IdentityKey(EventOf(id, a)) == a && IdentityKey(EventOf(id + 1, b)) == b
  {
    hide Ids, Unique, Fresh;
    TwoAreNew(EventOf(id, a), EventOf(id + 1, b));
    IdsOfTwo(EventOf(id, a), EventOf(id + 1, b));
  }

  lemma {:induction false} RunConcat(s: State, actions: seq<Action>, more: seq<Action>)
    ensures Run(s, actions + more) == Run(Run(s, actions), more)
  {
    hide Step;
    if more == [] {
      assert actions + more == actions;
    } else {
      var n := |more| - 1;
      RunConcat(s, actions, more[..n]);
      assert (actions + more)[..|actions + more| - 1] == actions + more[..n];
    }
  }

  lemma {:induction false} RunTwo(s: State, x: Action, y: Action)
    ensures Run(s, [x, y]) == Step(Step(s, x), y)
  {
    hide Step;
    assert [x, y][..1] == [x] && [x][..0] == [];
    assert Run(s, [x]) == Step(s, x);
  }

  /** Both requests are under way, in this phase, with these events and identities and these locks. */
  function Crossed(collation: Collation, first: Tx, second: Tx, eventLocks: map<Id, Txn>,
                   identityLocks: map<Identity, Txn>): State {
    Initial(collation).(txs := map[0 := first, 1 := second], eventLocks := eventLocks, identityLocks := identityLocks)
  }

  /** Such a request before and after it found its events new, with what it has resolved. */
  function Starting(batch: seq<Event>, request: nat): Tx { Tx(batch, request, LockingEvents, [], map[], []) }

  function Waiting(batch: seq<Event>, request: nat, identities: map<Identity, User>): Tx {
    Tx(batch, request, Resolving, batch, identities, [])
  }

  lemma {:induction false} BothBegin(collation: Collation, a: Identity, b: Identity)
    requires Named(a) && Named(b)
    ensures Run(Initial(collation), Begins(a, b))
      == Crossed(collation, Starting(Both(a, b, 0), 0), Starting(Both(b, a, 2), 1), map[], map[])
  {
    BothAreNamed(a, b, 0);
    BothAreNamed(b, a, 2);
    hide Both, Named, IdentityKey, Unique, Fresh, Ids;
    RunTwo(Initial(collation), Begin(0, Both(a, b, 0), 0), Begin(1, Both(b, a, 2), 1));
  }

  lemma BothAreNamed(a: Identity, b: Identity, id: Id)
    requires Named(a) && Named(b)
    ensures forall e | e in Both(a, b, id) :: Named(IdentityKey(e)) && IdentityKey(e) in {a, b}
  {}

  lemma {:induction false} TakesEvents(s: State, t: Txn, id: Id)
    requires t in s.txs && s.txs[t].phase == LockingEvents && Ids(s.txs[t].batch) == {id, id + 1}
      && id !in s.eventLocks && id + 1 !in s.eventLocks
    ensures Run(s, TakesTwo(t, id)) == s.(eventLocks := s.eventLocks[id := t][id + 1 := t])
  {
    RunTwo(s, LockEvent(t, id), LockEvent(t, id + 1));
  }

  lemma {:induction false} FindsAllNew(s: State, t: Txn, batch: seq<Event>, request: nat)
    requires t in s.txs && s.txs[t] == Starting(batch, request) && AllHeld(s.eventLocks, Ids(batch), t)
    requires batch != [] && Fresh(Unique(batch), s.store.receipts) == batch
    ensures Step(s, ReadExisting(t)) == s.(txs := s.txs[t := Waiting(batch, request, map[])])
  {
    hide Unique, Fresh, Ids, AllHeld;
  }

  lemma {:induction false} BothTake(collation: Collation, p: seq<Event>, q: seq<Event>)
    requires Ids(p) == {0, 1} && Ids(q) == {2, 3}
    ensures Run(Crossed(collation, Starting(p, 0), Starting(q, 1), map[], map[]), Takes())
      == Crossed(collation, Starting(p, 0), Starting(q, 1), TAKEN, map[])
    ensures AllHeld(TAKEN, Ids(p), 0) && AllHeld(TAKEN, Ids(q), 1)
  {
    hide Run, Ids, TakesTwo;
    var s := Crossed(collation, Starting(p, 0), Starting(q, 1), map[], map[]);
    TakesEvents(s, 0, 0);
    TakesEvents(s.(eventLocks := map[0 := 0, 1 := 0]), 1, 2);
    RunConcat(s, TakesTwo(0, 0), TakesTwo(1, 2));
  }

  lemma {:induction false} BothRead(collation: Collation, p: seq<Event>, q: seq<Event>, locks: map<Id, Txn>)
    requires p != [] && q != [] && Fresh(Unique(p), map[]) == p && Fresh(Unique(q), map[]) == q
    requires AllHeld(locks, Ids(p), 0) && AllHeld(locks, Ids(q), 1)
    ensures Run(Crossed(collation, Starting(p, 0), Starting(q, 1), locks, map[]), Reads())
      == Crossed(collation, Waiting(p, 0, map[]), Waiting(q, 1, map[]), locks, map[])
  {
    hide Unique, Fresh, Ids, AllHeld, Step;
    var s := Crossed(collation, Starting(p, 0), Starting(q, 1), locks, map[]);
    RunTwo(s, ReadExisting(0), ReadExisting(1));
    FindsAllNew(s, 0, p, 0);
    FindsAllNew(Step(s, ReadExisting(0)), 1, q, 1);
  }

  /** Of two identities at one place, the first in the batch comes first. */
  lemma {:induction false} NextOfBoth(collation: Collation, tx: Tx, a: Identity, b: Identity, id: Id)
    requires Named(a) && Named(b) && a != b && collation(a) == collation(b) && tx.pending == Both(a, b, id)
    ensures tx.identities == map[] ==> NextIdentity(collation, tx, a)
    ensures tx.identities.Keys == {a} ==> forall key :: NextIdentity(collation, tx, key) <==> key == b
    ensures tx.identities.Keys == {a} ==> !AllResolved(tx)
  {
    BothAreNew(a, b, id);
    assert IdentityKey(tx.pending[0]) == a && IdentityKey(tx.pending[1]) == b && tx.pending[1] in tx.pending;
    if tx.identities == map[] { assert NextAt(collation, tx, 0); }
    if tx.identities.Keys == {a} { assert NextAt(collation, tx, 1); }
  }

  lemma {:induction false} BothInsert(collation: Collation, p: seq<Event>, q: seq<Event>, a: Identity, b: Identity)
    requires a != b && NextIdentity(collation, Waiting(p, 0, map[]), a)
      && NextIdentity(collation, Waiting(q, 1, map[]), b)
    ensures Run(Crossed(collation, Waiting(p, 0, map[]), Waiting(q, 1, map[]), TAKEN, map[]), Inserts(a, b))
      == Crossed(collation, Waiting(p, 0, map[a := 0]), Waiting(q, 1, map[b := 1]), TAKEN, map[a := 0, b := 1])
  {
    hide NextIdentity;
    var s := Crossed(collation, Waiting(p, 0, map[]), Waiting(q, 1, map[]), TAKEN, map[]);
    RunTwo(s, Resolve(0, a, 0, true), Resolve(1, b, 1, true));
    assert Step(s, Resolve(0, a, 0, true))
      == Crossed(collation, Waiting(p, 0, map[a := 0]), Waiting(q, 1, map[]), TAKEN, map[a := 0]);
  }

  /** The state in which the two requests wait for each other. */
  function Stuck(collation: Collation, a: Identity, b: Identity): State {
    Crossed(collation, Waiting(Both(a, b, 0), 0, map[a := 0]), Waiting(Both(b, a, 2), 1, map[b := 1]), TAKEN,
            map[a := 0, b := 1])
  }

  lemma {:induction false} CrossingRuns(collation: Collation, a: Identity, b: Identity)
    requires Named(a) && Named(b) && a != b && collation(a) == collation(b)
    ensures Run(Initial(collation), Crossing(a, b)) == Stuck(collation, a, b)
  {
    BothAreNew(a, b, 0);
    BothAreNew(b, a, 2);
    var p, q := Both(a, b, 0), Both(b, a, 2);
    BothBegin(collation, a, b);
    BothTake(collation, p, q);
    BothRead(collation, p, q, TAKEN);
    NextOfBoth(collation, Waiting(p, 0, map[]), a, b, 0);
    NextOfBoth(collation, Waiting(q, 1, map[]), b, a, 2);
    BothInsert(collation, p, q, a, b);
    hide Run, Both, Fresh, Unique, Ids, Named, IdentityKey, AllHeld, Begins, Takes, Reads, Inserts, Crossed,
      NextIdentity;
    RunConcat(Initial(collation), Begins(a, b), Takes() + (Reads() + Inserts(a, b)));
    RunConcat(Crossed(collation, Starting(p, 0), Starting(q, 1), map[], map[]), Takes(), Reads() + Inserts(a, b));
    RunConcat(Crossed(collation, Starting(p, 0), Starting(q, 1), TAKEN, map[]), Reads(), Inserts(a, b));
  }

  lemma {:induction false} StuckIsDeadlocked(collation: Collation, a: Identity, b: Identity)
    requires Named(a) && Named(b) && a != b && collation(a) == collation(b)
    ensures Deadlocked(Stuck(collation, a, b))
  {
    var s := Stuck(collation, a, b);
    NextOfBoth(collation, s.txs[0], a, b, 0);
    NextOfBoth(collation, s.txs[1], b, a, 2);
    hide Both, NextIdentity, AllResolved;
    assert 0 in s.txs;
    forall t, act | t in s.txs && Mine(act, t) ensures !Enabled(s, act) {}
  }

  lemma CrossingIsWithin(a: Identity, b: Identity, ids: iset<Identity>)
    requires Named(a) && Named(b) && a in ids && b in ids
    ensures Within(Crossing(a, b), ids)
  {
    BothAreNamed(a, b, 0);
    BothAreNamed(b, a, 2);
    hide Both, Named, IdentityKey;
    var rest := Takes() + (Reads() + Inserts(a, b));
    assert forall x | x in rest :: !x.Begin?;
    assert forall x | x in Crossing(a, b) :: x in Begins(a, b) || x in rest;
  }

  // ---------------------------------------------------------------- exactly when

  /**
   Two customers' identities that the sort does not tell apart let two requests deadlock, each waiting for the
   other's insert. The database then ends one of them, and the other goes on.
   */
  lemma {:induction false} TiesDeadlock(collation: Collation, a: Identity, b: Identity)
    requires Named(a) && Named(b) && a != b && collation(a) == collation(b)
    ensures Deadlocked(Run(Initial(collation), Crossing(a, b)))
    ensures CanGoOn(Step(Run(Initial(collation), Crossing(a, b)), Abort(1)), 0)
  {
    CrossingRuns(collation, a, b);
    StuckIsDeadlocked(collation, a, b);
    NextOfBoth(collation, Stuck(collation, a, b).txs[0], a, b, 0);
    hide Deadlocked, Crossing, Both;
    var s := Step(Stuck(collation, a, b), Abort(1));
    assert Mine(Resolve(0, b, 0, true), 0) && Enabled(s, Resolve(0, b, 0, true));
  }

  /** A letter with an accent, as one character and as two: canonically equal texts, different customers. */
  const COMPOSED := External("\U{00E9}")
  const DECOMPOSED := External("e\U{0301}")

  /** A collation that, as ECMA-262 demands of localeCompare, does not tell canonically equal texts apart. */
  lemma {:induction false} TwoSpellingsDeadlock(collation: Collation)
    requires collation(COMPOSED) == collation(DECOMPOSED)
    ensures Deadlocked(Run(Initial(collation), Crossing(COMPOSED, DECOMPOSED)))
  {
    TiesDeadlock(collation, COMPOSED, DECOMPOSED);
  }

  /**
   Exactly when there is no deadlock: over requests that name only these identities, some transaction under way can
   always take its next step if and only if the sort tells all of these identities apart.
   */
  lemma {:induction false} NoDeadlockIffApart(collation: Collation, ids: iset<Identity>)
    ensures (forall actions | Within(actions, ids) :: !Deadlocked(Run(Initial(collation), actions)))
      <==> Apart(collation, ids)
  {
    hide Deadlocked, Within, Run;
    if Apart(collation, ids) {
      forall actions | Within(actions, ids) ensures !Deadlocked(Run(Initial(collation), actions)) {
        ApartRunsOn(collation, actions, ids);
      }
    } else {
      var a, b :| a in ids && b in ids && Named(a) && Named(b) && collation(a) == collation(b) && a != b;
      CrossingIsWithin(a, b, ids);
      TiesDeadlock(collation, a, b);
    }
  }

  lemma ApartRunsOn(collation: Collation, actions: seq<Action>, ids: iset<Identity>)
    requires Apart(collation, ids) && Within(actions, ids)
    ensures !Deadlocked(Run(Initial(collation), actions))
  {
    var s := Run(Initial(collation), actions);
    EveryRunKeepsInv(collation, actions);
    RunStaysWithin(collation, actions, ids);
    hide Run, Inv, BatchesWithin, Within, CanGoOn, PendingApart;
    ApartWithin(s, collation, ids);
    if s.txs != map[] {
      var t :| t in s.txs;
      var free := SomeoneCanGoOn(collation, actions, t);
    }
  }
}
