/**
 Refresh as compare-and-swap, once for all stores: the credentials of one account before and after each
 completed operation, and what follows when nothing ever installs credentials the account had before.
 */
module CompareAndSwap {
  import opened Prelude

  /** One completed operation as the credentials of an account see it; None while it has none. */
  datatype Change<G> = Change(before: Option<G>, after: Option<G>, refresh: bool)

  predicate Linked<G(==)>(trace: seq<Change<G>>) {
    forall k :: 0 <= k < |trace| - 1 ==> trace[k].after == trace[k + 1].before
  }

  /** The operation installs credentials: every refresh does, whatever else changes them does. */
  predicate Installs<G(==)>(c: Change<G>) {
    c.after.Some? && (c.refresh || c.after != c.before)
  }

  /** Fresh responses: what is installed was never in place before. */
  predicate Fresh<G(==)>(trace: seq<Change<G>>) {
    forall j, k :: 0 <= j <= k < |trace| && Installs(trace[k]) ==> trace[j].before != trace[k].after
  }

  /** The operation is a refresh that swapped credentials in place for new ones. */
  predicate Swaps<G>(c: Change<G>) {
    c.refresh && c.before.Some? && c.after.Some?
  }

  lemma FreshPrefix<G>(trace: seq<Change<G>>, n: nat)
    requires n <= |trace| && Fresh(trace)
    ensures Fresh(trace[..n])
  {
  }

  /** Credentials once replaced never come back. */
  lemma {:induction false} ReplacedForever<G>(trace: seq<Change<G>>, j: nat, k: nat)
    requires Linked(trace) && Fresh(trace) && j <= k < |trace|
    requires trace[j].before.Some? && trace[j].after != trace[j].before
    ensures trace[k].after != trace[j].before
  {
    if j < k {
      ReplacedForever(trace, j, k - 1);
      assert trace[k - 1].after == trace[k - 1 + 1].before;
    }
  }

  /** The credentials in place were not spent by any refresh before. */
  lemma CurrentIsUnspent<G>(trace: seq<Change<G>>, j: nat)
    requires Linked(trace) && Fresh(trace) && j < |trace| && Swaps(trace[j])
    ensures trace[|trace| - 1].after != trace[j].before
  {
    assert Installs(trace[j]);
    ReplacedForever(trace, j, |trace| - 1);
  }

  /** Credentials are spent on at most one refresh. */
  lemma SpentOnce<G>(trace: seq<Change<G>>, j: nat, k: nat)
    requires Linked(trace) && Fresh(trace) && j < k < |trace| && Swaps(trace[j]) && Swaps(trace[k])
    ensures trace[j].before != trace[k].before
  {
    assert Installs(trace[j]);
    ReplacedForever(trace, j, k - 1);
    assert trace[k - 1].after == trace[k - 1 + 1].before;
  }
}
