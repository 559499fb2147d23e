/**
 The table of per-account mutexes of the xAI store.  It keeps weak references only: whoever waits for or
 holds a mutex keeps it alive, dead entries are pruned at the next lookup, and a later lookup makes a
 new mutex.  Mutexes are numbered in the order they are made.
 */
module LockTable {
  import opened Prelude

  /** A strong reference: the mutex its owner waits for or holds. */
  datatype Handle = Handle(id: Id, mutex: nat)

  datatype Locks = Locks(
    table: map<Id, nat>,
    handles: map<Tid, Handle>,
    owner: map<nat, Tid>,
    made: nat)

  const NONE := Locks(map[], map[], map[], 0)

  /** `strong_count() > 0`. */
  predicate Alive(handles: map<Tid, Handle>, mutex: nat) {
    exists t :: t in handles && handles[t].mutex == mutex
  }

  function Pruned(l: Locks): map<Id, nat> {
    map id | id in l.table && Alive(l.handles, l.table[id]) :: l.table[id]
  }

  /** `account_mutation_lock` on behalf of `t`. */
  function Obtain(l: Locks, t: Tid, id: Id): Locks {
    var live := Pruned(l);
    if id in live then l.(table := live, handles := l.handles[t := Handle(id, live[id])])
    else l.(table := live[id := l.made], handles := l.handles[t := Handle(id, l.made)], made := l.made + 1)
  }

  /** `lock().await` succeeds for `t`. */
  function Grant(l: Locks, t: Tid): Locks
    requires t in l.handles
  {
    if l.handles[t].mutex in l.owner then l else l.(owner := l.owner[l.handles[t].mutex := t])
  }

  /** The guard and then the reference are dropped, after the section or by cancellation. */
  function Release(l: Locks, t: Tid): Locks
    requires t in l.handles
  {
    var m := l.handles[t].mutex;
    l.(handles := l.handles - {t}, owner := if Get(l.owner, m) == Some(t) then l.owner - {m} else l.owner)
  }

  // ---------- runs ----------

  datatype Op = DoObtain(t: Tid, id: Id) | DoGrant(t: Tid) | DoRelease(t: Tid)

  /** A task has one account lock at a time: every operation locks a single account. */
  predicate Allowed(l: Locks, op: Op) {
    if op.DoObtain? then op.t !in l.handles else op.t in l.handles
  }

  function Apply(l: Locks, op: Op): Locks
    requires Allowed(l, op)
  {
    match op
    case DoObtain(t, id) => Obtain(l, t, id)
    case DoGrant(t) => Grant(l, t)
    case DoRelease(t) => Release(l, t)
  }

  predicate IsRun(run: seq<Locks>, ops: seq<Op>) {
    |run| == |ops| + 1 && run[0] == NONE
    && forall i :: 0 <= i < |ops| ==> Allowed(run[i], ops[i]) && run[i + 1] == Apply(run[i], ops[i])
  }

  /** Every live reference is the one in the table, so the table never forgets a mutex in use. */
  ghost predicate Valid(l: Locks) {
    && (forall t :: t in l.handles ==> Get(l.table, l.handles[t].id) == Some(l.handles[t].mutex))
    && (forall id :: id in l.table ==> l.table[id] < l.made)
    && (forall a, b :: a in l.table && b in l.table && l.table[a] == l.table[b] ==> a == b)
    && (forall m :: m in l.owner ==> l.owner[m] in l.handles && l.handles[l.owner[m]].mutex == m)
  }

  lemma HandlesKeepAlive(handles: map<Tid, Handle>, t: Tid)
    requires t in handles
    ensures Alive(handles, handles[t].mutex)
  {
  }

  /** Pruning drops no mutex that is referred to, and adds none. */
  lemma PruningKeepsHandles(l: Locks)
    requires Valid(l)
    ensures forall u :: u in l.handles ==> Get(Pruned(l), l.handles[u].id) == Some(l.handles[u].mutex)
    ensures forall id :: id in Pruned(l) ==> id in l.table && Pruned(l)[id] == l.table[id]
  {
    hide Alive;
    forall u | u in l.handles ensures Get(Pruned(l), l.handles[u].id) == Some(l.handles[u].mutex) {
      HandlesKeepAlive(l.handles, u);
    }
  }

  lemma ObtainKeepsValid(l: Locks, t: Tid, id: Id)
    requires Valid(l) && t !in l.handles
    ensures Valid(Obtain(l, t, id))
  {
    hide Alive, Pruned;
    var l', live := Obtain(l, t, id), Pruned(l);
    PruningKeepsHandles(l);
    forall u | u in l'.handles ensures Get(l'.table, l'.handles[u].id) == Some(l'.handles[u].mutex) {
      if u != t {
        assert Get(live, l.handles[u].id) == Some(l.handles[u].mutex);
      }
    }
    forall m | m in l'.owner ensures l'.owner[m] in l'.handles && l'.handles[l'.owner[m]].mutex == m {
      assert l.owner[m] in l.handles && l.owner[m] != t;
    }
  }

  lemma StepKeepsValid(l: Locks, op: Op)
    requires Valid(l) && Allowed(l, op)
    ensures Valid(Apply(l, op))
  {
    hide Obtain;
    if op.DoObtain? {
      ObtainKeepsValid(l, op.t, op.id);
    }
  }

  lemma {:induction false} RunKeepsValid(run: seq<Locks>, ops: seq<Op>, i: nat)
    requires IsRun(run, ops) && i < |run|
    ensures Valid(run[i])
  {
    hide Apply;
    if i > 0 {
      RunKeepsValid(run, ops, i - 1);
      var l, op := run[i - 1], ops[i - 1];
      assert run[i] == run[i - 1 + 1] == Apply(l, op);
      StepKeepsValid(l, op);
    }
  }

  /** At every moment all holders and waiters of one account share one mutex. */
  lemma OneMutexPerAccount(run: seq<Locks>, ops: seq<Op>, i: nat, t: Tid, u: Tid)
    requires IsRun(run, ops) && i < |run| && t in run[i].handles && u in run[i].handles
    ensures run[i].handles[t].id == run[i].handles[u].id <==> run[i].handles[t].mutex == run[i].handles[u].mutex
  {
    RunKeepsValid(run, ops, i);
    assert Get(run[i].table, run[i].handles[t].id) == Some(run[i].handles[t].mutex);
    assert Get(run[i].table, run[i].handles[u].id) == Some(run[i].handles[u].mutex);
  }

  predicate Inside(l: Locks, t: Tid, id: Id) {
    t in l.handles && l.handles[t].id == id && Get(l.owner, l.handles[t].mutex) == Some(t)
  }

  /** So the critical sections of an account exclude each other, although mutexes come and go. */
  lemma SectionsExclude(run: seq<Locks>, ops: seq<Op>, i: nat, t: Tid, u: Tid, id: Id)
    requires IsRun(run, ops) && i < |run| && Inside(run[i], t, id) && Inside(run[i], u, id)
    ensures t == u
  {
    OneMutexPerAccount(run, ops, i, t, u);
  }

  /** A section lasts until its own task ends it, whatever lookups, grants and cancellations happen around it. */
  lemma SectionLasts(run: seq<Locks>, ops: seq<Op>, i: nat, t: Tid, id: Id)
    requires IsRun(run, ops) && i < |ops| && Inside(run[i], t, id) && ops[i] != DoRelease(t)
    ensures Inside(run[i + 1], t, id)
  {
    RunKeepsValid(run, ops, i);
  }

  /** The lock is given to a task that waits for it exactly when nobody else is in the section. */
  lemma GrantedIffFree(run: seq<Locks>, ops: seq<Op>, i: nat, t: Tid, id: Id)
    requires IsRun(run, ops) && i < |ops| && ops[i] == DoGrant(t) && run[i].handles[t].id == id
    ensures Inside(run[i + 1], t, id) <==> forall u :: u != t ==> !Inside(run[i], u, id)
  {
    RunKeepsValid(run, ops, i);
    var l, m := run[i], run[i].handles[t].mutex;
    if m in l.owner {
      OneMutexPerAccount(run, ops, i, t, l.owner[m]);
      assert Inside(l, l.owner[m], id);
    }
    forall u | u != t && Inside(l, u, id) ensures Get(l.owner, m) == Some(u) {
      OneMutexPerAccount(run, ops, i, t, u);
    }
  }

  /** Whoever drops out, inside or still waiting, leaves the lock to the others. */
  lemma ReleasedIsFree(run: seq<Locks>, ops: seq<Op>, i: nat, t: Tid, id: Id)
    requires IsRun(run, ops) && i < |ops| && ops[i] == DoRelease(t)
    ensures forall u :: Inside(run[i + 1], u, id) <==> u != t && Inside(run[i], u, id)
  {
    RunKeepsValid(run, ops, i);
    var l, m := run[i], run[i].handles[t].mutex;
    assert run[i + 1] == Release(l, t);
    forall u ensures Inside(Release(l, t), u, id) <==> u != t && Inside(l, u, id) {
      if u in l.handles && l.handles[u].mutex != m {
        assert Get(Release(l, t).owner, l.handles[u].mutex) == Get(l.owner, l.handles[u].mutex);
      }
    }
  }

  /** Pruning keeps the table as small as the set of accounts in use, plus the one just looked up. */
  lemma ObtainPrunes(run: seq<Locks>, ops: seq<Op>, i: nat, t: Tid, id: Id)
    requires IsRun(run, ops) && i < |run| && t !in run[i].handles
    ensures forall a :: a in Obtain(run[i], t, id).table ==>
              exists u :: u in Obtain(run[i], t, id).handles && Obtain(run[i], t, id).handles[u].id == a
  {
    RunKeepsValid(run, ops, i);
    var l, l' := run[i], Obtain(run[i], t, id);
    forall a | a in l'.table ensures exists u :: u in l'.handles && l'.handles[u].id == a {
      if a == id {
        assert l'.handles[t].id == a;
      } else {
        assert Alive(l.handles, l.table[a]);
        var u :| u in l.handles && l.handles[u].mutex == l.table[a];
        assert Get(l.table, l.handles[u].id) == Some(l.handles[u].mutex);
        assert u in l'.handles && l'.handles[u].id == a;
      }
    }
  }

  // ---------- the table as the object it is ----------

  class AccountLocks {
    var mutationLocks: map<Id, nat>
    var handles: map<Tid, Handle>
    var owner: map<nat, Tid>
    var made: nat

    function Value(): Locks
      reads this
    {
      Locks(mutationLocks, handles, owner, made)
    }

    constructor ()
      ensures Value() == NONE
    {
      mutationLocks, handles, owner, made := map[], map[], map[], 0;
    }

    method AccountMutationLock(t: Tid, id: Id) returns (mutex: nat)
      requires Valid(Value()) && t !in handles
      modifies this
      ensures Value() == Obtain(old(Value()), t, id) && Valid(Value())
      ensures t in handles && handles[t] == Handle(id, mutex)
      ensures forall u :: u in old(handles) && old(handles)[u].id == id ==> mutex == old(handles)[u].mutex
    {
      ObtainKeepsValid(Value(), t, id);
      mutationLocks := map a | a in mutationLocks && Alive(handles, mutationLocks[a]) :: mutationLocks[a];
      if id in mutationLocks {
        mutex := mutationLocks[id];
      } else {
        mutex := made;
        made := made + 1;
        mutationLocks := mutationLocks[id := mutex];
      }
      handles := handles[t := Handle(id, mutex)];
      forall u | u in old(handles) && old(handles)[u].id == id ensures mutex == old(handles)[u].mutex {
        assert Get(old(mutationLocks), id) == Some(old(handles)[u].mutex);
        assert Alive(old(handles), old(handles)[u].mutex);
      }
    }
  }
}
