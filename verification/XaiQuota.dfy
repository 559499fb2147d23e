/** Quota snapshots of an xAI account: named windows, merged by name in the order they were first seen. */
module XaiQuota {
  import opened Prelude

  datatype QuotaItem = QuotaItem(
    name: string,
    percentage: real,
    used: Option<real>,
    limit: Option<real>,
    resetAt: Option<string>)

  datatype QuotaCache = QuotaCache(
    plan: Option<string>,
    items: seq<QuotaItem>,
    error: Option<string>,
    checkedAt: Option<Stamp>)

  const EMPTY := QuotaCache(None, [], None, None)

  predicate Unique(items: seq<QuotaItem>) {
    forall i, j :: 0 <= i < j < |items| ==> items[i].name != items[j].name
  }

  predicate HasName(items: seq<QuotaItem>, name: string) {
    exists i :: 0 <= i < |items| && items[i].name == name
  }

  /** The first window called `name`. */
  function Find(items: seq<QuotaItem>, name: string): Option<QuotaItem> {
    if items == [] then None
    else if items[0].name == name then Some(items[0])
    else Find(items[1..], name)
  }

  function Upsert(items: seq<QuotaItem>, next: QuotaItem): seq<QuotaItem> {
    if items == [] then [next]
    else if items[0].name == next.name then [next] + items[1..]
    else [items[0]] + Upsert(items[1..], next)
  }

  function MergeItems(current: seq<QuotaItem>, incoming: seq<QuotaItem>): seq<QuotaItem> {
    if incoming == [] then current
    else Upsert(MergeItems(current, incoming[..|incoming| - 1]), incoming[|incoming| - 1])
  }

  function MergeCache(current: QuotaCache, incoming: QuotaCache): QuotaCache {
    QuotaCache(
      incoming.plan.OrElse(current.plan),
      MergeItems(current.items, incoming.items),
      incoming.error,
      incoming.checkedAt.OrElse(current.checkedAt))
  }

  // ---------- the loops of the store ----------

  /** Replaces the first window of that name in place, or appends. */
  method UpsertQuotaItem(items: seq<QuotaItem>, next: QuotaItem) returns (r: seq<QuotaItem>)
    ensures r == Upsert(items, next)
  {
    r := items;
    var i := 0;
    while i < |items|
      invariant 0 <= i <= |items|
      invariant forall k :: 0 <= k < i ==> items[k].name != next.name
    {
      if items[i].name == next.name {
        UpsertAt(items, next, i);
        return items[i := next];
      }
      i := i + 1;
    }
    UpsertMissing(items, next);
    r := r + [next];
  }

  method MergeQuotaCache(current: QuotaCache, incoming: QuotaCache) returns (r: QuotaCache)
    ensures r == MergeCache(current, incoming)
    ensures r.plan == (if incoming.plan.Some? then incoming.plan else current.plan)
    ensures r.checkedAt == (if incoming.checkedAt.Some? then incoming.checkedAt else current.checkedAt)
    ensures r.error == incoming.error && r.items == MergeItems(current.items, incoming.items)
  {
    var quotas := current.items;
    for i := 0 to |incoming.items|
      invariant quotas == MergeItems(current.items, incoming.items[..i])
    {
      assert incoming.items[..i + 1][..i] == incoming.items[..i];
      quotas := UpsertQuotaItem(quotas, incoming.items[i]);
    }
    assert incoming.items[..|incoming.items|] == incoming.items;
    r := QuotaCache(incoming.plan.OrElse(current.plan), quotas, incoming.error,
                    incoming.checkedAt.OrElse(current.checkedAt));
  }

  // ---------- what one upsert does ----------

  lemma UpsertAt(items: seq<QuotaItem>, next: QuotaItem, i: nat)
    requires i < |items| && items[i].name == next.name
    requires forall k :: 0 <= k < i ==> items[k].name != next.name
    ensures Upsert(items, next) == items[i := next]
  {
    if i > 0 {
      UpsertAt(items[1..], next, i - 1);
    }
  }

  lemma HasNameInTail(items: seq<QuotaItem>, name: string)
    requires items != []
    ensures HasName(items, name) <==> items[0].name == name || HasName(items[1..], name)
  {
    assert forall i :: 0 < i < |items| ==> items[1..][i - 1] == items[i];
    assert forall i :: 0 <= i < |items[1..]| ==> items[i + 1] == items[1..][i];
  }

  lemma UpsertMissing(items: seq<QuotaItem>, next: QuotaItem)
    requires !HasName(items, next.name)
    ensures Upsert(items, next) == items + [next]
  {
    if items != [] {
      HasNameInTail(items, next.name);
      UpsertMissing(items[1..], next);
    }
  }

  lemma FindIffHasName(items: seq<QuotaItem>, name: string)
    ensures Find(items, name).Some? <==> HasName(items, name)
    ensures Find(items, name).Some? ==> Find(items, name).value.name == name
  {
    if items != [] {
      HasNameInTail(items, name);
      FindIffHasName(items[1..], name);
    }
  }

  lemma {:induction false} UpsertFinds(items: seq<QuotaItem>, next: QuotaItem, name: string)
    ensures Find(Upsert(items, next), name) == if name == next.name then Some(next) else Find(items, name)
  {
    if items != [] {
      UpsertFinds(items[1..], next, name);
    }
  }

  lemma {:induction false} UpsertKeepsUnique(items: seq<QuotaItem>, next: QuotaItem)
    requires Unique(items)
    ensures Unique(Upsert(items, next))
  {
    if HasName(items, next.name) {
      var i :| 0 <= i < |items| && items[i].name == next.name;
      UpsertAt(items, next, i);
    } else {
      UpsertMissing(items, next);
    }
  }

  lemma {:induction false} UpsertAbsorbs(items: seq<QuotaItem>, x: QuotaItem, y: QuotaItem)
    requires x.name == y.name
    ensures Upsert(Upsert(items, y), x) == Upsert(items, x)
  {
    if items != [] && items[0].name != x.name {
      UpsertAbsorbs(items[1..], x, y);
    }
  }

  /** Upserts of different names commute once one of them has its place. */
  lemma {:induction false} UpsertsCommute(items: seq<QuotaItem>, x: QuotaItem, z: QuotaItem)
    requires x.name != z.name && HasName(items, x.name)
    ensures Upsert(Upsert(items, x), z) == Upsert(Upsert(items, z), x)
  {
    HasNameInTail(items, x.name);
    if items[0].name != x.name {
      UpsertsCommute(items[1..], x, z);
    }
  }

  // ---------- merging lists ----------

  lemma {:induction false} MergeKeepsUnique(a: seq<QuotaItem>, b: seq<QuotaItem>)
    requires Unique(a)
    ensures Unique(MergeItems(a, b))
  {
    if b != [] {
      MergeKeepsUnique(a, b[..|b| - 1]);
      UpsertKeepsUnique(MergeItems(a, b[..|b| - 1]), b[|b| - 1]);
    }
  }

  lemma FindInPrefix(items: seq<QuotaItem>, name: string)
    requires items != [] && Unique(items)
    ensures var last := items[|items| - 1];
            Find(items, name) == if name == last.name then Some(last) else Find(items[..|items| - 1], name)
  {
    var p := items[..|items| - 1];
    if |items| > 1 {
      assert items[1..][..|items| - 2] == p[1..];
      FindInPrefix(items[1..], name);
    }
  }

  /** Merging is map override, the incoming side winning. */
  lemma {:induction false} MergeIsOverride(a: seq<QuotaItem>, b: seq<QuotaItem>, name: string)
    requires Unique(b)
    ensures Find(MergeItems(a, b), name) == Find(b, name).OrElse(Find(a, name))
  {
    if b != [] {
      var p := b[..|b| - 1];
      MergeIsOverride(a, p, name);
      UpsertFinds(MergeItems(a, p), b[|b| - 1], name);
      FindInPrefix(b, name);
    }
  }

  function Names(items: seq<QuotaItem>): seq<string> {
    seq(|items|, i requires 0 <= i < |items| => items[i].name)
  }

  /** The windows of `b` that are new, in their order. */
  function Added(a: seq<QuotaItem>, b: seq<QuotaItem>): seq<string> {
    if b == [] then []
    else Added(a, b[..|b| - 1]) + if HasName(a, b[|b| - 1].name) then [] else [b[|b| - 1].name]
  }

  lemma {:induction false} UpsertNames(items: seq<QuotaItem>, next: QuotaItem)
    ensures Names(Upsert(items, next)) == Names(items) + if HasName(items, next.name) then [] else [next.name]
  {
    if items != [] {
      HasNameInTail(items, next.name);
      UpsertNames(items[1..], next);
      assert Names(items) == [items[0].name] + Names(items[1..]);
      assert items[0].name != next.name
             ==> Names(Upsert(items, next)) == [items[0].name] + Names(Upsert(items[1..], next));
    }
  }

  /** First-seen order: the known windows keep their places, new ones follow in arrival order. */
  lemma {:induction false} MergeOrder(a: seq<QuotaItem>, b: seq<QuotaItem>)
    requires Unique(b)
    ensures Names(MergeItems(a, b)) == Names(a) + Added(a, b)
  {
    if b != [] {
      var p, last := b[..|b| - 1], b[|b| - 1];
      MergeOrder(a, p);
      UpsertNames(MergeItems(a, p), last);
      MergeIsOverride(a, p, last.name);
      FindIffHasName(MergeItems(a, p), last.name);
      FindIffHasName(a, last.name);
      FindIffHasName(p, last.name);
    }
  }

  // ---------- the algebra ----------

  /** Merging a list that was itself updated equals updating the merged list. */
  lemma {:induction false} MergeOfUpsert(a: seq<QuotaItem>, b: seq<QuotaItem>, x: QuotaItem)
    requires Unique(b)
    ensures MergeItems(a, Upsert(b, x)) == Upsert(MergeItems(a, b), x)
  {
    if !HasName(b, x.name) {
      UpsertMissing(b, x);
      assert (b + [x])[..|b|] == b;
    } else {
      var p, z := b[..|b| - 1], b[|b| - 1];
      if z.name == x.name {
        UpsertAt(b, x, |b| - 1);
        assert b[|b| - 1 := x][..|b| - 1] == p;
        UpsertAbsorbs(MergeItems(a, p), x, z);
      } else {
        UpsertInPrefix(b, x);
        var u := Upsert(p, x);
        assert (u + [z])[..|u|] == u;
        MergeOfUpsert(a, p, x);
        MergeIsOverride(a, p, x.name);
        FindIffHasName(MergeItems(a, p), x.name);
        FindIffHasName(p, x.name);
        UpsertsCommute(MergeItems(a, p), x, z);
      }
    }
  }

  lemma UpsertInPrefix(b: seq<QuotaItem>, x: QuotaItem)
    requires Unique(b) && HasName(b, x.name) && b[|b| - 1].name != x.name
    ensures HasName(b[..|b| - 1], x.name)
    ensures Upsert(b, x) == Upsert(b[..|b| - 1], x) + [b[|b| - 1]]
  {
    var i :| 0 <= i < |b| && b[i].name == x.name;
    assert b[..|b| - 1][i].name == x.name;
    UpsertAt(b, x, i);
    UpsertAt(b[..|b| - 1], x, i);
  }

  /** Merges may be grouped either way; only the middle list needs distinct names. */
  lemma {:induction false} MergeAssociative(a: seq<QuotaItem>, b: seq<QuotaItem>, c: seq<QuotaItem>)
    requires Unique(b)
    ensures MergeItems(MergeItems(a, b), c) == MergeItems(a, MergeItems(b, c))
  {
    if c != [] {
      var p := c[..|c| - 1];
      MergeAssociative(a, b, p);
      MergeKeepsUnique(b, p);
      MergeOfUpsert(a, MergeItems(b, p), c[|c| - 1]);
    }
  }

  lemma MergeFew(a: seq<QuotaItem>, b: seq<QuotaItem>)
    ensures |b| == 1 ==> MergeItems(a, b) == Upsert(a, b[0])
    ensures |b| == 2 ==> MergeItems(a, b) == Upsert(Upsert(a, b[0]), b[1])
  {
    if |b| == 2 {
      MergeFew(a, b[..1]);
    }
  }

  /** The last window called `name`. */
  function Last(items: seq<QuotaItem>, name: string): Option<QuotaItem> {
    if items == [] then None
    else if items[|items| - 1].name == name then Some(items[|items| - 1])
    else Last(items[..|items| - 1], name)
  }

  /** Of several incoming windows of one name the last one stays. */
  lemma {:induction false} MergeFindsLast(a: seq<QuotaItem>, b: seq<QuotaItem>, name: string)
    ensures Find(MergeItems(a, b), name) == Last(b, name).OrElse(Find(a, name))
  {
    if b != [] {
      MergeFindsLast(a, b[..|b| - 1], name);
      UpsertFinds(MergeItems(a, b[..|b| - 1]), b[|b| - 1], name);
    }
  }

  lemma {:induction false} LastIs(items: seq<QuotaItem>, k: nat)
    requires k < |items| && forall m :: k < m < |items| ==> items[m].name != items[k].name
    ensures Last(items, items[k].name) == Some(items[k])
  {
    if k < |items| - 1 {
      LastIs(items[..|items| - 1], k);
    }
  }

  /** A repeated name shows as soon as it is updated again: the grouping then matters. */
  lemma RepeatBreaksGrouping(b: seq<QuotaItem>, i: nat, j: nat)
    requires i < j < |b| && b[i].name == b[j].name
    requires forall m :: j < m < |b| ==> b[m].name != b[j].name
    ensures var c := [b[j].(percentage := b[j].percentage + 1.0)];
            MergeItems(MergeItems([], b), c) != MergeItems([], MergeItems(b, c))
  {
    var name, x := b[j].name, b[j].(percentage := b[j].percentage + 1.0);
    var none: seq<QuotaItem> := [];
    MergeFew(MergeItems(none, b), [x]);
    MergeFew(b, [x]);
    UpsertFinds(MergeItems(none, b), x, name);
    FirstOf(b, name, i);
    var f: nat :| f <= i && b[f].name == name && forall k :: 0 <= k < f ==> b[k].name != name;
    UpsertAt(b, x, f);
    assert b[f := x][j] == b[j];
    LastIs(b[f := x], j);
    MergeFindsLast(none, b[f := x], name);
  }

  lemma FirstOf(items: seq<QuotaItem>, name: string, i: nat)
    requires i < |items| && items[i].name == name
    ensures exists f: nat :: f <= i && items[f].name == name && forall k :: 0 <= k < f ==> items[k].name != name
  {
    if exists k: nat :: k < i && items[k].name == name {
      var k: nat :| k < i && items[k].name == name;
      FirstOf(items, name, k);
    }
  }

  lemma LastRepeat(b: seq<QuotaItem>, i: nat, j: nat)
    requires i < j < |b| && b[i].name == b[j].name
    ensures exists k: nat :: j <= k < |b| && b[k].name == b[i].name
              && forall m :: k < m < |b| ==> b[m].name != b[i].name
    decreases |b| - j
  {
    if exists m: nat :: j < m < |b| && b[m].name == b[i].name {
      var m: nat :| j < m < |b| && b[m].name == b[i].name;
      LastRepeat(b, i, m);
    }
  }

  /** Merges may be grouped either way around `b`, whatever the others are, exactly when `b` repeats no name. */
  lemma AssociativeIffUnique(b: seq<QuotaItem>)
    ensures Unique(b)
            <==> forall a, c :: MergeItems(MergeItems(a, b), c) == MergeItems(a, MergeItems(b, c))
  {
    if Unique(b) {
      forall a, c ensures MergeItems(MergeItems(a, b), c) == MergeItems(a, MergeItems(b, c)) {
        MergeAssociative(a, b, c);
      }
    } else {
      var i: nat, j: nat :| i < j < |b| && b[i].name == b[j].name;
      LastRepeat(b, i, j);
      var k: nat :| j <= k < |b| && b[k].name == b[i].name && forall m :: k < m < |b| ==> b[m].name != b[i].name;
      RepeatBreaksGrouping(b, i, k);
    }
  }

  /** A list built from nothing by upserts, as every list of the store is, repeats no name. */
  lemma BuiltListsAreUnique(reported: seq<QuotaItem>)
    ensures Unique(MergeItems([], reported))
  {
    MergeKeepsUnique([], reported);
  }

  lemma {:induction false} MergeIntoEmpty(b: seq<QuotaItem>)
    requires Unique(b)
    ensures MergeItems([], b) == b
  {
    if b != [] {
      var p, z := b[..|b| - 1], b[|b| - 1];
      MergeIntoEmpty(p);
      assert forall i :: 0 <= i < |p| ==> p[i].name == b[i].name != z.name;
      UpsertMissing(p, z);
    }
  }

  /** The empty list is a left unit exactly for lists without repeated names. */
  lemma EmptyIsLeftUnit(b: seq<QuotaItem>)
    ensures MergeItems([], b) == b <==> Unique(b)
  {
    MergeKeepsUnique([], b);
    if Unique(b) {
      MergeIntoEmpty(b);
    }
  }

  /** Merges that name different windows never lose each other's items. */
  lemma DisjointMergesLoseNothing(a: seq<QuotaItem>, b: seq<QuotaItem>, c: seq<QuotaItem>, name: string)
    requires Unique(b) && Unique(c)
    requires forall n :: !(HasName(b, n) && HasName(c, n))
    ensures HasName(b, name) ==> Find(MergeItems(MergeItems(a, b), c), name) == Find(b, name)
    ensures HasName(c, name) ==> Find(MergeItems(MergeItems(a, b), c), name) == Find(c, name)
    ensures Find(MergeItems(MergeItems(a, b), c), name) == Find(MergeItems(MergeItems(a, c), b), name)
  {
    MergeIsOverride(MergeItems(a, b), c, name);
    MergeIsOverride(MergeItems(a, c), b, name);
    MergeIsOverride(a, b, name);
    MergeIsOverride(a, c, name);
    FindIffHasName(b, name);
    FindIffHasName(c, name);
  }

  /** Whole snapshots: grouping does not matter, and the empty one is neutral exactly where no error is kept. */
  lemma CacheMergeAlgebra(a: QuotaCache, b: QuotaCache, c: QuotaCache)
    requires Unique(b.items)
    ensures MergeCache(MergeCache(a, b), c) == MergeCache(a, MergeCache(b, c))
    ensures MergeCache(EMPTY, b) == b
    ensures MergeCache(a, EMPTY) == a <==> a.error.None?
  {
    MergeAssociative(a.items, b.items, c.items);
    EmptyIsLeftUnit(b.items);
  }

  // ---------- quota headers ----------

  /** What the headers of one response say; parsing them is outside the model. */
  datatype Headers = Headers(
    requests: Option<QuotaItem>,
    tokens: Option<QuotaItem>,
    plan: Option<string>,
    status: nat,
    error: string)

  function HeaderItems(h: Headers): seq<QuotaItem> {
    (if h.requests.Some? then [h.requests.value.(name := "xai-requests")] else [])
    + (if h.tokens.Some? then [h.tokens.value.(name := "xai-tokens")] else [])
  }

  /** Observing headers is one more merge, of the windows they name. */
  function Observe(previous: QuotaCache, h: Headers, now: int): Option<QuotaCache> {
    if h.requests.None? && h.tokens.None? && h.plan.None? then None
    else Some(MergeCache(previous, QuotaCache(h.plan, HeaderItems(h),
                                              if h.status >= 400 then Some(h.error) else None, Some(At(now)))))
  }

  /** `window` shows what was `seen` under `name`, or, when nothing was, what the window of that name showed before. */
  predicate Reported(window: Option<QuotaItem>, seen: Option<QuotaItem>, name: string, before: Option<QuotaItem>) {
    if seen.Some? then
      window.Some? && window.value.name == name && window.value.percentage == seen.value.percentage
      && window.value.used == seen.value.used && window.value.limit == seen.value.limit
      && window.value.resetAt == seen.value.resetAt
    else window == before
  }

  /** The requests and the tokens of the headers each go to the window of their own, and to no other. */
  predicate Observed(next: QuotaCache, previous: QuotaCache, h: Headers, now: int) {
    && Reported(Find(next.items, "xai-requests"), h.requests, "xai-requests", Find(previous.items, "xai-requests"))
    && Reported(Find(next.items, "xai-tokens"), h.tokens, "xai-tokens", Find(previous.items, "xai-tokens"))
    && (h.plan.Some? ==> next.plan == h.plan) && (h.plan.None? ==> next.plan == previous.plan)
    && (h.status >= 400 ==> next.error == Some(h.error)) && (h.status < 400 ==> next.error == None)
    && next.checkedAt == Some(Stamp.At(now))
  }

  lemma ObservedWindows(previous: QuotaCache, h: Headers, now: int)
    ensures Observe(previous, h, now).None? <==> h.requests.None? && h.tokens.None? && h.plan.None?
    ensures Observe(previous, h, now).Some? ==>
              var next := Observe(previous, h, now).value;
              Observed(next, previous, h, now)
              && forall name :: name != "xai-requests" && name != "xai-tokens"
                                ==> Find(next.items, name) == Find(previous.items, name)
  {
    var before := previous.items;
    var mid := if h.requests.Some? then Upsert(before, h.requests.value.(name := "xai-requests")) else before;
    var end := if h.tokens.Some? then Upsert(mid, h.tokens.value.(name := "xai-tokens")) else mid;
    assert MergeItems(before, HeaderItems(h)) == end by { MergeFew(before, HeaderItems(h)); }
    assert "xai-requests" != "xai-tokens";
    hide Find, MergeItems, HeaderItems;
    forall name
      ensures h.requests.Some? && name == "xai-requests"
              ==> Find(end, name) == Some(h.requests.value.(name := "xai-requests"))
      ensures h.tokens.Some? && name == "xai-tokens" ==> Find(end, name) == Some(h.tokens.value.(name := "xai-tokens"))
      ensures !(h.requests.Some? && name == "xai-requests") && !(h.tokens.Some? && name == "xai-tokens")
              ==> Find(end, name) == Find(before, name)
    {
      if h.requests.Some? {
        UpsertFinds(before, h.requests.value.(name := "xai-requests"), name);
      }
      if h.tokens.Some? {
        UpsertFinds(mid, h.tokens.value.(name := "xai-tokens"), name);
      }
    }
  }

  /** An answer without any quota header leaves the snapshot alone. */
  method ObserveQuotaHeaders(previous: QuotaCache, h: Headers, now: int) returns (r: Option<QuotaCache>)
    ensures r.None? <==> h.requests.None? && h.tokens.None? && h.plan.None?
    ensures r.Some? ==> r == Observe(previous, h, now) && Observed(r.value, previous, h, now)
    ensures r.Some? ==> forall name :: name != "xai-requests" && name != "xai-tokens"
                                       ==> Find(r.value.items, name) == Find(previous.items, name)
  {
    ObservedWindows(previous, h, now);
    if h.requests.None? && h.tokens.None? && h.plan.None? {
      return None;
    }
    var items := previous.items;
    if h.requests.Some? {
      items := UpsertQuotaItem(items, h.requests.value.(name := "xai-requests"));
    }
    if h.tokens.Some? {
      items := UpsertQuotaItem(items, h.tokens.value.(name := "xai-tokens"));
    }
    MergeFew(previous.items, HeaderItems(h));
    r := Some(QuotaCache(h.plan.OrElse(previous.plan), items,
                         if h.status >= 400 then Some(h.error) else None, Some(At(now))));
  }
}
