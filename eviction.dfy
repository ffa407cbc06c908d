/** What Cache.Clean leaves in the attachment store, stated without the loop,
    and the properties of that result: it is a sub-store, it respects the
    prune threshold, it holds no stale entry, and cleaning again changes
    nothing. Go leaves map iteration order unspecified, so every statement
    here holds for any order in which the keys may be visited. */
module CacheEviction {
  import opened CacheTypes

  /** `order` lists every key of `m` exactly once: an order in which Go's
      `range` may visit the map. */
  ghost predicate IsIterationOrder(order: seq<string>, m: map<string, Attachment>)
  {
    && (forall i, j :: 0 <= i < j < |order| ==> order[i] != order[j])
    && (forall k :: k in m <==> k in order)
  }

  /** How many entries a store of `n` entries loses to the size cap. */
  function PruneCount(n: nat): nat
  {
    if n > AttachmentPruneThreshold then n - AttachmentPruneThreshold else 0
  }

  /** The keys dropped for size alone: those visited first, whatever their age. */
  function Overflow(m: map<string, Attachment>, order: seq<string>): set<string>
  {
    set j | 0 <= j < |order| && j < PruneCount(|m|) :: order[j]
  }

  /** The store after one clean-up pass at time `now` visiting keys in `order`:
      an entry survives when it is outside the overflow and not stale. */
  function Cleaned(m: map<string, Attachment>, order: seq<string>, now: int): map<string, Attachment>
  {
    map k | k in m && k !in Overflow(m, order) && !Stale(m[k], now) :: m[k]
  }

  /** The store once a pass has visited the first `i` keys of `order`: each
      visited key has been dropped when it is in the overflow or stale. */
  function Swept(m: map<string, Attachment>, order: seq<string>, i: nat, now: int): map<string, Attachment>
    requires i <= |order|
  {
    map k | k in m && !(k in order[..i] && (k in Overflow(m, order) || Stale(m[k], now))) :: m[k]
  }

  /** Visiting key number `i` drops it exactly when it lies in the first
      PruneCount(|m|) positions or is stale, and touches nothing else. */
  lemma SweptStep(m: map<string, Attachment>, order: seq<string>, i: nat, now: int)
    requires IsIterationOrder(order, m)
    requires i < |order|
    ensures order[i] in Swept(m, order, i, now)
    ensures Swept(m, order, i, now)[order[i]] == m[order[i]]
    ensures Swept(m, order, i + 1, now) ==
      if i < PruneCount(|m|) || Stale(m[order[i]], now)
      then Swept(m, order, i, now) - {order[i]}
      else Swept(m, order, i, now)
  {
  }

  /** A pass that has visited every key has left exactly Cleaned. */
  lemma SweptAll(m: map<string, Attachment>, order: seq<string>, now: int)
    requires IsIterationOrder(order, m)
    ensures Swept(m, order, 0, now) == m
    ensures Swept(m, order, |order|, now) == Cleaned(m, order, now)
  {
  }

  lemma {:induction false} DistinctElements(s: seq<string>)
    requires forall i, j :: 0 <= i < j < |s| ==> s[i] != s[j]
    ensures |set x | x in s| == |s|
  {
    if s != [] {
      var tail := s[1..];
      DistinctElements(tail);
      assert s[0] !in tail by {
        forall j | 0 <= j < |tail| ensures tail[j] != s[0] {
          assert tail[j] == s[j + 1];
        }
      }
      assert (set x | x in s) == (set x | x in tail) + {s[0]} by {
        assert s == [s[0]] + tail;
      }
    }
  }

  /** An iteration order visits exactly as many keys as the store holds. */
  lemma IterationOrderLength(order: seq<string>, m: map<string, Attachment>)
    requires IsIterationOrder(order, m)
    ensures |order| == |m|
  {
    DistinctElements(order);
    assert (set x | x in order) == m.Keys;
  }

  /** The size cap drops exactly PruneCount(|m|) keys of the store. */
  lemma OverflowSize(m: map<string, Attachment>, order: seq<string>)
    requires IsIterationOrder(order, m)
    ensures Overflow(m, order) <= m.Keys
    ensures |Overflow(m, order)| == PruneCount(|m|)
  {
    IterationOrderLength(order, m);
    var p := PruneCount(|m|);
    var prefix := order[..p];
    assert Overflow(m, order) == set x | x in prefix by {
      forall x | x in prefix ensures x in Overflow(m, order) {
        var j :| 0 <= j < p && prefix[j] == x;
        assert order[j] == x;
      }
    }
    DistinctElements(prefix);
  }

  /** Clean only deletes: every surviving entry is the original, unchanged. */
  lemma CleanedIsSubStore(m: map<string, Attachment>, order: seq<string>, now: int)
    ensures Cleaned(m, order, now).Keys <= m.Keys
    ensures forall k :: k in Cleaned(m, order, now) ==> Cleaned(m, order, now)[k] == m[k]
  {
  }

  /** No stale entry survives; an entry aged exactly the lifetime is not stale. */
  lemma CleanedIsFresh(m: map<string, Attachment>, order: seq<string>, now: int)
    ensures forall k :: k in Cleaned(m, order, now) ==>
      now - Cleaned(m, order, now)[k].lastReference <= AttachmentLifetime
  {
  }

  /** Which visited key survives: one at position j survives exactly when j is
      past the overflow positions and its entry is not stale. */
  lemma CleanedAt(m: map<string, Attachment>, order: seq<string>, now: int, j: int)
    requires IsIterationOrder(order, m)
    requires 0 <= j < |order|
    ensures order[j] in m
    ensures order[j] in Cleaned(m, order, now) <==> PruneCount(|m|) <= j && !Stale(m[order[j]], now)
  {
  }

  /** Above the threshold the store is cut down to at most the threshold;
      in general at least PruneCount(|m|) entries go. */
  lemma CleanedSize(m: map<string, Attachment>, order: seq<string>, now: int)
    requires IsIterationOrder(order, m)
    ensures |Cleaned(m, order, now)| <= |m| - PruneCount(|m|)
    ensures |m| > AttachmentPruneThreshold ==> |Cleaned(m, order, now)| <= AttachmentPruneThreshold
  {
    OverflowSize(m, order);
    var kept := Cleaned(m, order, now).Keys;
    var rest := m.Keys - Overflow(m, order);
    assert kept <= rest;
    assert |rest| == |m.Keys| - |Overflow(m, order)|;
    SubsetSize(kept, rest);
  }

  lemma {:induction false} SubsetSize(a: set<string>, b: set<string>)
    requires a <= b
    ensures |a| <= |b|
  {
    if a != {} {
      var x :| x in a;
      SubsetSize(a - {x}, b - {x});
    }
  }

  /** At or below the threshold exactly the stale entries go, in any order. */
  lemma CleanedBelowThreshold(m: map<string, Attachment>, order: seq<string>, now: int)
    requires |m| <= AttachmentPruneThreshold
    ensures forall k :: k in m ==> (k in Cleaned(m, order, now) <==> !Stale(m[k], now))
  {
  }

  /** With the clock fixed, a second pass, in whatever order it visits the
      survivors, removes nothing. */
  lemma CleanIdempotent(m: map<string, Attachment>, order: seq<string>, again: seq<string>, now: int)
    requires IsIterationOrder(order, m)
    ensures Cleaned(Cleaned(m, order, now), again, now) == Cleaned(m, order, now)
  {
    var once := Cleaned(m, order, now);
    CleanedSize(m, order, now);
    assert PruneCount(|once|) == 0;
    assert Overflow(once, again) == {};
  }
}
