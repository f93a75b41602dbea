/** Listing one backend's keys from the path index, page by page in key order. */
module Listing {
  import opened Options
  import opened ChangeLog
  import opened LocationIndex

  /** The code point the range scan uses as an upper bound after the prefix. */
  const TOP: char := '\U{FFFF}'

  // ── Key order ─────────────────────────────────────────────────────────────

  /** Lexicographic by code point, as the table stores its keys. */
  predicate Less(a: string, b: string) {
    b != "" && (a == "" || a[0] < b[0] || (a[0] == b[0] && Less(a[1..], b[1..])))
  }

  lemma {:induction false} LessIrreflexive(a: string)
    ensures !Less(a, a)
  {
    if a != "" { LessIrreflexive(a[1..]); }
  }

  lemma {:induction false} LessTransitive(a: string, b: string, c: string)
    requires Less(a, b) && Less(b, c)
    ensures Less(a, c)
  {
    if a != "" && a[0] == b[0] && b[0] == c[0] { LessTransitive(a[1..], b[1..], c[1..]); }
  }

  lemma {:induction false} LessTotal(a: string, b: string)
    ensures a == b || Less(a, b) || Less(b, a)
  {
    if a != "" && b != "" && a[0] == b[0] {
      LessTotal(a[1..], b[1..]);
      assert a[1..] == b[1..] ==> a == [a[0]] + a[1..] && b == [b[0]] + b[1..];
    }
  }

  lemma {:induction false} PrefixNotAbove(prefix: string, key: string)
    requires prefix <= key
    ensures !Less(key, prefix)
  {
    if prefix != "" {
      assert prefix[0] == key[0] && prefix[1..] <= key[1..];
      PrefixNotAbove(prefix[1..], key[1..]);
    }
  }

  /** A key with the prefix is below the scan's upper bound exactly when the next code point is. */
  lemma {:induction false} BelowEnd(prefix: string, key: string)
    requires prefix <= key
    ensures Less(key, prefix + [TOP]) <==> |key| == |prefix| || key[|prefix|] < TOP
  {
    if prefix == "" {
      assert prefix + [TOP] == [TOP];
      if key != "" { assert [TOP][1..] == ""; }
    } else {
      assert (prefix + [TOP])[1..] == prefix[1..] + [TOP];
      BelowEnd(prefix[1..], key[1..]);
    }
  }

  predicate Sorted(keys: seq<string>) {
    forall i, j | 0 <= i < j < |keys| :: Less(keys[i], keys[j])
  }

  // ── What a listing contains ───────────────────────────────────────────────

  predicate After(key: string, after: Option<string>) {
    after.Some? ==> Less(after.value, key)
  }

  /** Keys the range scan can reach. */
  predicate Listable(key: string, prefix: string) {
    prefix <= key && (|key| == |prefix| || key[|prefix|] < TOP)
  }

  /** The keys after `after` that a listing under `prefix` shows, in order. */
  function Eligible(keys: seq<string>, prefix: string, after: Option<string>): seq<string> {
    if keys == [] then []
    else
      var init, last := Eligible(keys[..|keys| - 1], prefix, after), keys[|keys| - 1];
      if Listable(last, prefix) && After(last, after) then init + [last] else init
  }

  lemma {:induction false} EligibleExact(keys: seq<string>, prefix: string, after: Option<string>)
    requires Sorted(keys)
    ensures forall k :: k in Eligible(keys, prefix, after) <==> k in keys && Listable(k, prefix) && After(k, after)
    ensures Sorted(Eligible(keys, prefix, after))
  {
    if keys != [] {
      var init, last := keys[..|keys| - 1], keys[|keys| - 1];
      assert keys == init + [last];
      LastIsGreatest(init, last);
      EligibleExact(init, prefix, after);
    }
  }

  /** Continuing after the `i`-th listed key lists exactly the rest. */
  lemma {:induction false} EligibleAfter(keys: seq<string>, prefix: string, i: nat)
    requires Sorted(keys) && i < |Eligible(keys, prefix, None)|
    ensures Eligible(keys, prefix, Some(Eligible(keys, prefix, None)[i])) == Eligible(keys, prefix, None)[i + 1..]
  {
    var init, last := keys[..|keys| - 1], keys[|keys| - 1];
    var all, sub := Eligible(keys, prefix, None), Eligible(init, prefix, None);
    assert keys == init + [last];
    LastIsGreatest(init, last);
    EligibleExact(init, prefix, None);
    if i < |sub| {
      EligibleAfter(init, prefix, i);
      assert all[i] == sub[i] && sub[i] in sub;
      assert sub[i] in init;
      assert Less(sub[i], last);
    } else {
      assert all == sub + [last] && i == |sub|;
      LessIrreflexive(last);
      NoneAfter(init, prefix, last);
    }
  }

  lemma LastIsGreatest(init: seq<string>, last: string)
    requires Sorted(init + [last])
    ensures Sorted(init) && forall k | k in init :: Less(k, last)
  {
    var keys := init + [last];
    assert forall i | 0 <= i < |init| :: keys[i] == init[i];
    forall k | k in init ensures Less(k, last) {
      var i :| 0 <= i < |init| && init[i] == k;
      assert Less(keys[i], keys[|init|]);
    }
  }

  lemma {:induction false} NoneAfter(keys: seq<string>, prefix: string, top: string)
    requires forall k | k in keys :: Less(k, top)
    ensures Eligible(keys, prefix, Some(top)) == []
  {
    if keys != [] {
      var last := keys[|keys| - 1];
      assert forall k | k in keys[..|keys| - 1] :: k in keys;
      NoneAfter(keys[..|keys| - 1], prefix, top);
      if Less(top, last) {
        LessTransitive(top, last, top);
        LessIrreflexive(top);
      }
    }
  }

  // ── Pages ─────────────────────────────────────────────────────────────────

  datatype KeyPage = KeyPage(keys: seq<string>, cursor: Option<string>)

  /** One page: the first `max` eligible keys, and a cursor when the page is full. */
  function PageOf(keys: seq<string>, prefix: string, after: Option<string>, max: nat): KeyPage
    requires max > 0
  {
    var all := Eligible(keys, prefix, after);
    if |all| >= max then KeyPage(all[..max], Some(all[max - 1])) else KeyPage(all, None)
  }

  /** A page is the first eligible keys, as many as fit, and only a full one has a cursor: its last key. */
  lemma PageExact(keys: seq<string>, prefix: string, after: Option<string>, max: nat)
    requires max > 0
    ensures var page, all := PageOf(keys, prefix, after, max), Eligible(keys, prefix, after);
            && page.keys <= all && |page.keys| == (if |all| < max then |all| else max)
            && (page.cursor.Some? <==> |page.keys| == max)
            && (page.cursor.Some? ==> page.cursor.value == page.keys[max - 1])
  {
  }

  /** Follows cursors until a page has none. */
  function Follow(keys: seq<string>, prefix: string, after: Option<string>, max: nat, pages: nat): seq<string>
    requires max > 0
    decreases pages
  {
    if pages == 0 then []
    else
      var page := PageOf(keys, prefix, after, max);
      if page.cursor.None? then page.keys else page.keys + Follow(keys, prefix, page.cursor, max, pages - 1)
  }

  /** Following the cursor lists every reachable key exactly once, in order, whatever the page size. */
  lemma {:induction false} FollowListsAll(keys: seq<string>, prefix: string, start: nat, max: nat, pages: nat)
    requires Sorted(keys) && max > 0 && start <= |Eligible(keys, prefix, None)|
    requires pages > |Eligible(keys, prefix, None)| - start
    ensures var all := Eligible(keys, prefix, None);
            Follow(keys, prefix, if start == 0 then None else Some(all[start - 1]), max, pages) == all[start..]
    decreases pages
  {
    FollowIsPaging(keys, prefix, start, max, pages);
    PagingListsAll(Eligible(keys, prefix, None), start, max, pages);
  }

  /** Taking `max` keys at a time from position `start` on. */
  function Paging(all: seq<string>, start: nat, max: nat, pages: nat): seq<string>
    requires max > 0 && start <= |all|
    decreases pages
  {
    if pages == 0 then []
    else if |all| - start < max then all[start..]
    else all[start..start + max] + Paging(all, start + max, max, pages - 1)
  }

  lemma {:induction false} PagingListsAll(all: seq<string>, start: nat, max: nat, pages: nat)
    requires max > 0 && start <= |all| && pages > |all| - start
    ensures Paging(all, start, max, pages) == all[start..]
    decreases pages
  {
    if |all| - start >= max {
      PagingListsAll(all, start + max, max, pages - 1);
      assert all[start..start + max] + all[start + max..] == all[start..];
    }
  }

  lemma {:induction false} FollowIsPaging(keys: seq<string>, prefix: string, start: nat, max: nat, pages: nat)
    requires Sorted(keys) && max > 0 && start <= |Eligible(keys, prefix, None)|
    ensures var all := Eligible(keys, prefix, None);
            Follow(keys, prefix, if start == 0 then None else Some(all[start - 1]), max, pages) == Paging(all, start, max, pages)
    decreases pages
  {
    var all := Eligible(keys, prefix, None);
    var after := if start == 0 then None else Some(all[start - 1]);
    if pages > 0 {
      if start > 0 { EligibleAfter(keys, prefix, start - 1); }
      FollowPage(keys, prefix, after, max, pages, all, start);
      if |all| - start >= max { FollowIsPaging(keys, prefix, start + max, max, pages - 1); }
    }
  }

  lemma FollowPage(keys: seq<string>, prefix: string, after: Option<string>, max: nat, pages: nat, all: seq<string>, start: nat)
    requires max > 0 && pages > 0 && start <= |all| && Eligible(keys, prefix, after) == all[start..]
    ensures Follow(keys, prefix, after, max, pages) ==
            if |all| - start >= max
            then all[start..start + max] + Follow(keys, prefix, Some(all[start + max - 1]), max, pages - 1)
            else all[start..]
  {
    if |all| - start >= max {
      assert all[start..][..max] == all[start..start + max];
      assert all[start..][max - 1] == all[start + max - 1];
    }
  }

  /** A complete walk shows a key of the backend exactly when the code point after the prefix is below U+FFFF. */
  lemma WalkIsComplete(keys: seq<string>, prefix: string, max: nat, key: string)
    requires Sorted(keys) && max > 0 && key in keys && prefix <= key
    ensures key in Follow(keys, prefix, None, max, |keys| + 1) <==> |key| == |prefix| || key[|prefix|] < TOP
  {
    EligibleExact(keys, prefix, None);
    EligibleShorter(keys, prefix);
    FollowListsAll(keys, prefix, 0, max, |keys| + 1);
  }

  lemma {:induction false} EligibleShorter(keys: seq<string>, prefix: string)
    ensures |Eligible(keys, prefix, None)| <= |keys|
  {
    if keys != [] { EligibleShorter(keys[..|keys| - 1], prefix); }
  }

  /** So a file whose name starts with an emoji is never listed. */
  lemma EmojiIsNotListed()
    ensures Follow(["\U{1F600}.txt"], "", None, 1000, 2) == []
  {
    var keys := ["\U{1F600}.txt"];
    assert keys[..0] == [];
    assert !Listable(keys[0], "");
  }

  // ── The range scan ────────────────────────────────────────────────────────

  /** The backend's keys in table order. */
  ghost predicate KeysOf(path: PathMap, backend: string, keys: seq<string>) {
    Sorted(keys) && forall k :: k in keys <==> Loc(backend, k) in path
  }

  /** There is only one such order. */
  lemma {:induction false} KeysUnique(a: seq<string>, b: seq<string>)
    requires Sorted(a) && Sorted(b) && forall k :: k in a <==> k in b
    ensures a == b
  {
    if a == [] {
      var first := if b != [] then b[0] else "";
      assert b != [] ==> first in b;
    } else {
      assert a[|a| - 1] in a && a[|a| - 1] in b;
      var m, n := |a| - 1, |b| - 1;
      assert b[n] in a;
      SameGreatest(a, b);
      assert a == a[..m] + [a[m]] && b == b[..n] + [b[n]];
      LastIsGreatest(a[..m], a[m]);
      LastIsGreatest(b[..n], b[n]);
      LessIrreflexive(a[m]);
      forall k ensures k in a[..m] <==> k in b[..n] {
        assert k in a <==> k in a[..m] || k == a[m];
        assert k in b <==> k in b[..n] || k == b[n];
      }
      KeysUnique(a[..m], b[..n]);
    }
  }

  lemma SameGreatest(a: seq<string>, b: seq<string>)
    requires Sorted(a) && Sorted(b) && a != [] && b != []
    requires a[|a| - 1] in b && b[|b| - 1] in a
    ensures a[|a| - 1] == b[|b| - 1]
  {
    var x, y := a[|a| - 1], b[|b| - 1];
    var i :| 0 <= i < |b| && b[i] == x;
    var j :| 0 <= j < |a| && a[j] == y;
    if i < |b| - 1 && j < |a| - 1 {
      assert Less(x, y) && Less(y, x);
      LessTransitive(x, y, x);
      LessIrreflexive(x);
    }
  }

  /** The keys of one backend in table order. */
  method SortedKeys(path: PathMap, backend: string) returns (keys: seq<string>)
    ensures KeysOf(path, backend, keys)
  {
    keys := [];
    var left := set l | l in path && l.backend == backend :: l.key;
    ghost var all := left;
    while left != {}
      invariant left <= all && Sorted(keys)
      invariant forall k :: k in keys <==> k in all && k !in left
      invariant forall i, k | 0 <= i < |keys| && k in left :: Less(keys[i], k)
      decreases |left|
    {
      var next := Smallest(left);
      left := left - {next};
      keys := keys + [next];
    }
    assert forall k :: k in all <==> Loc(backend, k) in path;
  }

  method Smallest(s: set<string>) returns (k: string)
    requires s != {}
    ensures k in s && forall x | x in s && x != k :: Less(k, x)
  {
    k :| k in s;
    var rest := s - {k};
    while rest != {}
      invariant k in s && rest <= s && k !in rest
      invariant forall x | x in s && x !in rest && x != k :: Less(k, x)
      decreases |rest|
    {
      var x :| x in rest;
      rest := rest - {x};
      LessTotal(k, x);
      if Less(x, k) {
        forall y | y in s && y !in rest && y != x ensures Less(x, y) {
          if y != k { LessTransitive(x, k, y); }
        }
        k := x;
      }
    }
  }

  /** Pages through one backend's keys by a range scan from the cursor (or prefix) to the prefix's upper bound. */
  method LocationsByBackend(index: Index, backend: string, prefix: string, after: Option<string>, limit: int)
    returns (page: KeyPage)
    ensures exists keys :: KeysOf(index.path, backend, keys) && page == PageOf(keys, prefix, after, ClampLimit(limit))
  {
    var max := ClampLimit(limit);
    var sorted := SortedKeys(index.path, backend);
    var start := if after.Some? && !Less(after.value, prefix) then after.value else prefix;
    var end := prefix + [TOP];
    var found: seq<string> := [];
    var i := 0;
    while i < |sorted| && |found| < max
      invariant 0 <= i <= |sorted|
      invariant found == Eligible(sorted[..i], prefix, after) && |found| <= max
    {
      var key := sorted[i];
      assert sorted[..i + 1][..i] == sorted[..i];
      InRange(key, prefix, after, start);
      if !Less(key, start) && Less(key, end) && prefix <= key && !(after.Some? && !Less(after.value, key)) {
        found := found + [key];
      }
      i := i + 1;
    }
    EligiblePrefix(sorted, i, prefix, after);
    assert sorted[..|sorted|] == sorted;
    page := KeyPage(found, if |found| >= max then Some(found[|found| - 1]) else None);
  }

  lemma InRange(key: string, prefix: string, after: Option<string>, start: string)
    requires start == if after.Some? && !Less(after.value, prefix) then after.value else prefix
    ensures Listable(key, prefix) && After(key, after) <==>
            !Less(key, start) && Less(key, prefix + [TOP]) && prefix <= key && After(key, after)
  {
    if prefix <= key {
      BelowEnd(prefix, key);
      PrefixNotAbove(prefix, key);
      if after.Some? && Less(after.value, key) && Less(key, after.value) {
        LessTransitive(key, after.value, key);
        LessIrreflexive(key);
      }
    }
  }

  lemma {:induction false} EligiblePrefix(keys: seq<string>, i: nat, prefix: string, after: Option<string>)
    requires i <= |keys|
    ensures Eligible(keys[..i], prefix, after) <= Eligible(keys, prefix, after)
    decreases |keys|
  {
    if i < |keys| {
      EligiblePrefix(keys[..|keys| - 1], i, prefix, after);
      assert keys[..|keys| - 1][..i] == keys[..i];
    } else {
      assert keys[..i] == keys;
    }
  }
}
