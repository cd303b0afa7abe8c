/** Folding a list into a list by key: an item whose key is already held is combined into
    its holder, any other is appended.  An item without a key is always appended. */
module KeyedFold {
  import opened Wrappers

  /** The last position holding the key, or the length. */
  function Find<T, K(==)>(acc: seq<T>, key: T -> Option<K>, k: K): (i: nat)
    ensures i <= |acc|
    ensures i < |acc| ==> key(acc[i]) == Some(k)
    ensures forall j :: 0 <= j < |acc| && (i == |acc| || i < j) ==> key(acc[j]) != Some(k)
  {
    if acc == [] then 0
    else
      var n := |acc| - 1;
      if key(acc[n]) == Some(k) then n
      else
        var i := Find(acc[..n], key, k);
        assert forall j :: 0 <= j < n ==> acc[j] == acc[..n][j];
        if i < n then i else |acc|
  }

  function Insert<T, K(==)>(acc: seq<T>, x: T, key: T -> Option<K>, comb: (T, T) -> T): seq<T> {
    match key(x)
    case None => acc + [x]
    case Some(k) =>
      var i := Find(acc, key, k);
      if i < |acc| then acc[i := comb(acc[i], x)] else acc + [x]
  }

  function Fold<T, K(==)>(acc: seq<T>, xs: seq<T>, key: T -> Option<K>, comb: (T, T) -> T): seq<T> {
    if xs == [] then acc
    else Insert(Fold(acc, xs[..|xs| - 1], key, comb), xs[|xs| - 1], key, comb)
  }

  ghost predicate Has<T, K>(acc: seq<T>, key: T -> Option<K>, k: K) {
    exists i :: 0 <= i < |acc| && key(acc[i]) == Some(k)
  }

  ghost predicate Distinct<T, K>(acc: seq<T>, key: T -> Option<K>) {
    forall i, j :: 0 <= i < j < |acc| && key(acc[i]).Some? ==> key(acc[i]) != key(acc[j])
  }

  ghost predicate All<T(!new)>(xs: seq<T>, ok: T -> bool) { forall i :: 0 <= i < |xs| ==> ok(xs[i]) }

  /** What the theorems ask of a key and a combination: combining keeps the key and the
      good items good, and combining three items of one key is associative. */
  ghost predicate Lawful<T(!new), K>(key: T -> Option<K>, comb: (T, T) -> T, ok: T -> bool) {
    && (forall x, y {:trigger comb(x, y)} :: ok(x) && ok(y) && key(x) == key(y) && key(x).Some? ==>
          ok(comb(x, y)) && key(comb(x, y)) == key(x))
    && (forall x, y, z {:trigger comb(comb(x, y), z)} :: ok(x) && ok(y) && ok(z) && key(x) == key(y) == key(z) && key(x).Some? ==>
          comb(comb(x, y), z) == comb(x, comb(y, z)))
  }

  lemma InsertKeeps<T(!new), K>(acc: seq<T>, x: T, key: T -> Option<K>, comb: (T, T) -> T, ok: T -> bool)
    requires Lawful(key, comb, ok) && All(acc, ok) && ok(x) && Distinct(acc, key)
    ensures var r := Insert(acc, x, key, comb);
            && All(r, ok) && Distinct(r, key) && |acc| <= |r|
            && (forall i :: 0 <= i < |acc| ==> key(r[i]) == key(acc[i]))
            && (|r| == |acc| + 1 ==> r == acc + [x])
            && (key(x).Some? ==> (|r| == |acc| <==> Has(acc, key, key(x).value)))
            && (|r| > |acc| + 1 ==> false)
  {
    if key(x).Some? && Find(acc, key, key(x).value) < |acc| {
      var i := Find(acc, key, key(x).value);
      assert Has(acc, key, key(x).value);
    }
  }

  lemma {:induction false} FoldKeeps<T(!new), K>(acc: seq<T>, xs: seq<T>, key: T -> Option<K>, comb: (T, T) -> T, ok: T -> bool)
    requires Lawful(key, comb, ok) && All(acc, ok) && All(xs, ok) && Distinct(acc, key)
    ensures var r := Fold(acc, xs, key, comb);
            && All(r, ok) && Distinct(r, key) && |acc| <= |r|
            && (forall i :: 0 <= i < |acc| ==> key(r[i]) == key(acc[i]))
    decreases |xs|
  {
    if xs != [] {
      FoldKeeps(acc, xs[..|xs| - 1], key, comb, ok);
      InsertKeeps(Fold(acc, xs[..|xs| - 1], key, comb), xs[|xs| - 1], key, comb, ok);
    }
  }

  lemma {:induction false} FoldConcat<T, K>(acc: seq<T>, xs: seq<T>, ys: seq<T>, key: T -> Option<K>, comb: (T, T) -> T)
    ensures Fold(acc, xs + ys, key, comb) == Fold(Fold(acc, xs, key, comb), ys, key, comb)
    decreases |ys|
  {
    if ys == [] {
      assert xs + ys == xs;
    } else {
      FoldConcat(acc, xs, ys[..|ys| - 1], key, comb);
      assert (xs + ys)[..|xs + ys| - 1] == xs + ys[..|ys| - 1];
    }
  }

  /** A list whose keys are distinct folds to itself. */
  lemma {:induction false} FoldDistinct<T, K>(xs: seq<T>, key: T -> Option<K>, comb: (T, T) -> T)
    requires Distinct(xs, key)
    ensures Fold([], xs, key, comb) == xs
    decreases |xs|
  {
    if xs != [] {
      var n := |xs| - 1;
      FoldDistinct(xs[..n], key, comb);
      assert key(xs[n]).Some? ==> Find(xs[..n], key, key(xs[n]).value) == n;
      assert xs[..n] + [xs[n]] == xs;
    }
  }

  /** Two items of one key, one after the other, are their combination inserted once. */
  lemma InsertTwice<T(!new), K>(acc: seq<T>, x: T, y: T, key: T -> Option<K>, comb: (T, T) -> T, ok: T -> bool)
    requires Lawful(key, comb, ok) && All(acc, ok) && ok(x) && ok(y) && Distinct(acc, key)
    requires key(x).Some? && key(x) == key(y)
    ensures Insert(Insert(acc, x, key, comb), y, key, comb) == Insert(acc, comb(x, y), key, comb)
  {
    var k := key(x).value;
    var i := Find(acc, key, k);
    var once := Insert(acc, x, key, comb);
    InsertKeeps(acc, x, key, comb, ok);
    assert Find(once, key, k) == i by { FindIs(once, key, k, i); }
    if i < |acc| {
      assert comb(comb(acc[i], x), y) == comb(acc[i], comb(x, y));
    }
  }

  lemma FindIs<T, K>(acc: seq<T>, key: T -> Option<K>, k: K, i: nat)
    requires i < |acc| && key(acc[i]) == Some(k) && forall j :: i < j < |acc| ==> key(acc[j]) != Some(k)
    ensures Find(acc, key, k) == i
  {
  }

  /** Where a key is held does not change when items are combined in place or others appended. */
  lemma FindAgrees<T, K>(a: seq<T>, b: seq<T>, key: T -> Option<K>, k: K)
    requires |a| <= |b| && forall i :: 0 <= i < |a| ==> key(a[i]) == key(b[i])
    requires forall i :: |a| <= i < |b| ==> key(b[i]) != Some(k)
    ensures Find(a, key, k) < |a| || |a| == |b| ==> Find(b, key, k) == Find(a, key, k)
  {
    var i, j := Find(a, key, k), Find(b, key, k);
    if i < |a| { FindIs(b, key, k, i); }
  }

  /** An item whose key is held already commutes past one of another key. */
  lemma InsertCommutes<T(!new), K>(acc: seq<T>, x: T, y: T, key: T -> Option<K>, comb: (T, T) -> T, ok: T -> bool)
    requires Lawful(key, comb, ok) && All(acc, ok) && ok(x) && ok(y) && Distinct(acc, key)
    requires key(y).Some? && Has(acc, key, key(y).value) && key(x) != key(y)
    ensures Insert(Insert(acc, x, key, comb), y, key, comb) == Insert(Insert(acc, y, key, comb), x, key, comb)
  {
    InsertKeeps(acc, x, key, comb, ok);
    InsertKeeps(acc, y, key, comb, ok);
    Commute(acc, x, y, key, comb);
  }

  lemma SwapUpdates<T>(acc: seq<T>, i: nat, j: nat, c: T, d: T)
    requires i < |acc| && j < |acc| && i != j
    ensures acc[i := c][j := d] == acc[j := d][i := c]
  {
  }

  lemma SwapAppend<T>(acc: seq<T>, i: nat, c: T, x: T)
    requires i < |acc|
    ensures (acc + [x])[i := c] == acc[i := c] + [x]
  {
  }

  lemma Commute<T, K>(acc: seq<T>, x: T, y: T, key: T -> Option<K>, comb: (T, T) -> T)
    requires key(y).Some? && Find(acc, key, key(y).value) < |acc| && key(x) != key(y)
    requires var r := Insert(acc, x, key, comb); |acc| <= |r| && forall i :: 0 <= i < |acc| ==> key(acc[i]) == key(r[i])
    requires var r := Insert(acc, y, key, comb); |acc| <= |r| && forall i :: 0 <= i < |acc| ==> key(acc[i]) == key(r[i])
    ensures Insert(Insert(acc, x, key, comb), y, key, comb) == Insert(Insert(acc, y, key, comb), x, key, comb)
  {
    var i := Find(acc, key, key(y).value);
    var first, second := Insert(acc, x, key, comb), Insert(acc, y, key, comb);
    FindAgrees(acc, first, key, key(y).value);
    assert second == acc[i := comb(acc[i], y)] && Find(first, key, key(y).value) == i;
    assert Insert(first, y, key, comb) == first[i := comb(first[i], y)];
    if key(x).Some? {
      FindAgrees(acc, second, key, key(x).value);
      var j := Find(acc, key, key(x).value);
      if j < |acc| {
        SwapUpdates(acc, i, j, comb(acc[i], y), comb(acc[j], x));
      } else {
        SwapAppend(acc, i, comb(acc[i], y), x);
      }
    } else {
      SwapAppend(acc, i, comb(acc[i], y), x);
    }
  }

  lemma HasPrefix<T, K>(xs: seq<T>, n: nat, key: T -> Option<K>, k: K)
    requires n <= |xs|
    ensures Has(xs[..n], key, k) ==> Has(xs, key, k)
  {
    if Has(xs[..n], key, k) {
      var j :| 0 <= j < n && key(xs[..n][j]) == Some(k);
      assert key(xs[j]) == Some(k);
    }
  }

  lemma {:induction false} FoldCommutes<T(!new), K>(acc: seq<T>, xs: seq<T>, y: T, key: T -> Option<K>, comb: (T, T) -> T, ok: T -> bool)
    requires Lawful(key, comb, ok) && All(acc, ok) && All(xs, ok) && ok(y) && Distinct(acc, key)
    requires key(y).Some? && Has(acc, key, key(y).value) && !Has(xs, key, key(y).value)
    ensures Insert(Fold(acc, xs, key, comb), y, key, comb) == Fold(Insert(acc, y, key, comb), xs, key, comb)
    decreases |xs|
  {
    if xs != [] {
      var n := |xs| - 1;
      var mid := Fold(acc, xs[..n], key, comb);
      FoldKeeps(acc, xs[..n], key, comb, ok);
      var i :| 0 <= i < |acc| && key(acc[i]) == key(y);
      assert key(mid[i]) == key(y);
      assert key(xs[n]) != key(y);
      HasPrefix(xs, n, key, key(y).value);
      FoldCommutes(acc, xs[..n], y, key, comb, ok);
      InsertCommutes(mid, xs[n], y, key, comb, ok);
    }
  }

  lemma FoldSplit<T, K>(acc: seq<T>, before: seq<T>, x: T, after: seq<T>, key: T -> Option<K>, comb: (T, T) -> T)
    ensures Fold(acc, before + ([x] + after), key, comb)
         == Fold(Insert(Fold(acc, before, key, comb), x, key, comb), after, key, comb)
  {
    FoldConcat(acc, before, [x] + after, key, comb);
    FoldConcat(Fold(acc, before, key, comb), [x], after, key, comb);
    FoldOne(Fold(acc, before, key, comb), x, key, comb);
  }

  lemma FoldInsertHeld<T(!new), K>(acc: seq<T>, before: seq<T>, x: T, after: seq<T>, y: T,
                                   key: T -> Option<K>, comb: (T, T) -> T, ok: T -> bool)
    requires Lawful(key, comb, ok) && All(acc, ok) && All(before, ok) && All(after, ok) && ok(x) && ok(y)
    requires Distinct(acc, key) && key(x).Some? && key(x) == key(y) && !Has(after, key, key(y).value)
    ensures Fold(acc, before + ([comb(x, y)] + after), key, comb)
         == Insert(Fold(acc, before + ([x] + after), key, comb), y, key, comb)
  {
    var base := Fold(acc, before, key, comb);
    FoldSplit(acc, before, x, after, key, comb);
    FoldSplit(acc, before, comb(x, y), after, key, comb);
    FoldKeeps(acc, before, key, comb, ok);
    InsertTwice(base, x, y, key, comb, ok);
    InsertKeeps(base, x, key, comb, ok);
    Holds(base, x, key, comb, ok);
    FoldCommutes(Insert(base, x, key, comb), after, y, key, comb, ok);
  }

  /** Folding a list of distinct keys with one more item inserted is folding the list and
      then inserting the item. */
  lemma FoldInsert<T(!new), K>(acc: seq<T>, b: seq<T>, y: T, key: T -> Option<K>, comb: (T, T) -> T, ok: T -> bool)
    requires Lawful(key, comb, ok) && All(acc, ok) && All(b, ok) && ok(y) && Distinct(acc, key) && Distinct(b, key)
    ensures Fold(acc, Insert(b, y, key, comb), key, comb) == Insert(Fold(acc, b, key, comb), y, key, comb)
  {
    if key(y).Some? && Find(b, key, key(y).value) < |b| {
      var i := Find(b, key, key(y).value);
      assert b == b[..i] + ([b[i]] + b[i + 1..]);
      assert Insert(b, y, key, comb) == b[..i] + ([comb(b[i], y)] + b[i + 1..]);
      FoldInsertHeld(acc, b[..i], b[i], b[i + 1..], y, key, comb, ok);
    } else {
      assert Insert(b, y, key, comb) == b + [y];
      FoldConcat(acc, b, [y], key, comb);
      FoldOne(Fold(acc, b, key, comb), y, key, comb);
    }
  }

  lemma FoldOne<T, K>(acc: seq<T>, x: T, key: T -> Option<K>, comb: (T, T) -> T)
    ensures Fold(acc, [x], key, comb) == Insert(acc, x, key, comb)
  {
    assert [x][..0] == [];
    assert Fold(acc, [], key, comb) == acc;
  }

  lemma Holds<T(!new), K>(acc: seq<T>, x: T, key: T -> Option<K>, comb: (T, T) -> T, ok: T -> bool)
    requires Lawful(key, comb, ok) && All(acc, ok) && ok(x) && key(x).Some?
    ensures Has(Insert(acc, x, key, comb), key, key(x).value)
  {
    var i := Find(acc, key, key(x).value);
    assert key(Insert(acc, x, key, comb)[i]) == key(x);
  }

  /** Folding a list in is folding its own fold in. */
  lemma {:induction false} FoldAbsorbs<T(!new), K>(acc: seq<T>, xs: seq<T>, key: T -> Option<K>, comb: (T, T) -> T, ok: T -> bool)
    requires Lawful(key, comb, ok) && All(acc, ok) && All(xs, ok) && Distinct(acc, key)
    ensures Fold(acc, Fold([], xs, key, comb), key, comb) == Fold(acc, xs, key, comb)
    decreases |xs|
  {
    if xs != [] {
      var n := |xs| - 1;
      FoldAbsorbs(acc, xs[..n], key, comb, ok);
      FoldKeeps([], xs[..n], key, comb, ok);
      FoldInsert(acc, Fold([], xs[..n], key, comb), xs[n], key, comb, ok);
    }
  }

  /** The fold is a homomorphism: of a concatenation, it is the fold of the two folds. */
  lemma FoldHomomorphism<T(!new), K>(xs: seq<T>, ys: seq<T>, key: T -> Option<K>, comb: (T, T) -> T, ok: T -> bool)
    requires Lawful(key, comb, ok) && All(xs, ok) && All(ys, ok)
    ensures Fold([], xs + ys, key, comb) == Fold([], Fold([], xs, key, comb) + Fold([], ys, key, comb), key, comb)
  {
    var a, b := Fold([], xs, key, comb), Fold([], ys, key, comb);
    FoldKeeps([], xs, key, comb, ok);
    FoldConcat([], xs, ys, key, comb);
    FoldConcat([], a, b, key, comb);
    FoldDistinct(a, key, comb);
    FoldAbsorbs(a, ys, key, comb, ok);
  }

  // ---- What a fold amounts to, key by key ----

  /** The items of one key, in order. */
  ghost function Group<T, K>(xs: seq<T>, key: T -> Option<K>, k: K): seq<T> {
    if xs == [] then []
    else Group(xs[..|xs| - 1], key, k) + if key(xs[|xs| - 1]) == Some(k) then [xs[|xs| - 1]] else []
  }

  /** The items of no key, in order. */
  ghost function Unkeyed<T, K>(xs: seq<T>, key: T -> Option<K>): seq<T> {
    if xs == [] then []
    else Unkeyed(xs[..|xs| - 1], key) + if key(xs[|xs| - 1]).None? then [xs[|xs| - 1]] else []
  }

  /** The keys, in order. */
  ghost function Keys<T, K>(xs: seq<T>, key: T -> Option<K>): seq<K> {
    if xs == [] then []
    else Keys(xs[..|xs| - 1], key) + if key(xs[|xs| - 1]).Some? then [key(xs[|xs| - 1]).value] else []
  }

  ghost function Combined<T>(g: seq<T>, comb: (T, T) -> T): T
    requires g != []
  {
    if |g| == 1 then g[0] else comb(Combined(g[..|g| - 1], comb), g[|g| - 1])
  }

  /** One record a key, and it is everything of that key combined in order. */
  lemma {:induction false} FoldIsGroupwise<T(!new), K>(xs: seq<T>, key: T -> Option<K>, comb: (T, T) -> T, ok: T -> bool, k: K)
    requires Lawful(key, comb, ok) && All(xs, ok)
    ensures var r := Fold([], xs, key, comb);
            && (Has(r, key, k) <==> Group(xs, key, k) != [])
            && (forall i :: 0 <= i < |r| && key(r[i]) == Some(k) ==>
                  Group(xs, key, k) != [] && r[i] == Combined(Group(xs, key, k), comb))
  {
    if xs != [] {
      var n := |xs| - 1;
      var y, prev := xs[n], Fold([], xs[..n], key, comb);
      FoldIsGroupwise(xs[..n], key, comb, ok, k);
      FoldKeeps([], xs[..n], key, comb, ok);
      InsertKeeps(prev, y, key, comb, ok);
      InsertGroup(prev, y, Group(xs[..n], key, k), key, comb, ok, k);
    }
  }

  lemma InsertGroup<T(!new), K>(acc: seq<T>, y: T, g: seq<T>, key: T -> Option<K>, comb: (T, T) -> T, ok: T -> bool, k: K)
    requires Lawful(key, comb, ok) && All(acc, ok) && ok(y) && Distinct(acc, key)
    requires Has(acc, key, k) <==> g != []
    requires forall i :: 0 <= i < |acc| && key(acc[i]) == Some(k) ==> g != [] && acc[i] == Combined(g, comb)
    ensures var r, h := Insert(acc, y, key, comb), g + if key(y) == Some(k) then [y] else [];
            && (Has(r, key, k) <==> h != [])
            && (forall i :: 0 <= i < |r| && key(r[i]) == Some(k) ==> h != [] && r[i] == Combined(h, comb))
  {
    var r := Insert(acc, y, key, comb);
    InsertKeeps(acc, y, key, comb, ok);
    if key(y) == Some(k) {
      Holds(acc, y, key, comb, ok);
      assert g != [] ==> (g + [y])[..|g|] == g;
    } else {
      assert g + [] == g;
      forall i | 0 <= i < |r| && key(r[i]) == Some(k) ensures i < |acc| && r[i] == acc[i] { }
      if Has(acc, key, k) {
        var i :| 0 <= i < |acc| && key(acc[i]) == Some(k);
        assert key(r[i]) == Some(k);
      }
    }
  }

  lemma {:induction false} KeysAgree<T, K>(a: seq<T>, b: seq<T>, key: T -> Option<K>)
    requires |a| == |b| && forall i :: 0 <= i < |a| ==> key(a[i]) == key(b[i])
    ensures Keys(a, key) == Keys(b, key)
  {
    if a != [] {
      var n := |a| - 1;
      assert forall i :: 0 <= i < n ==> a[..n][i] == a[i] && b[..n][i] == b[i];
      KeysAgree(a[..n], b[..n], key);
    }
  }

  lemma {:induction false} KeysAre<T, K>(xs: seq<T>, key: T -> Option<K>, k: K)
    ensures k in Keys(xs, key) <==> Has(xs, key, k)
  {
    if xs != [] {
      var n := |xs| - 1;
      KeysAre(xs[..n], key, k);
      HasPrefix(xs, n, key, k);
      if Has(xs, key, k) {
        var i :| 0 <= i < |xs| && key(xs[i]) == Some(k);
        assert i < n ==> key(xs[..n][i]) == Some(k);
      }
    }
  }

  /** The keys of a fold are the keys of the list, each where it first occurred. */
  lemma {:induction false} FoldKeyOrder<T(!new), K>(xs: seq<T>, key: T -> Option<K>, comb: (T, T) -> T, ok: T -> bool)
    requires Lawful(key, comb, ok) && All(xs, ok)
    ensures Keys(Fold([], xs, key, comb), key) == AddAll([], Keys(xs, key))
  {
    if xs != [] {
      var n := |xs| - 1;
      var y, prev := xs[n], Fold([], xs[..n], key, comb);
      FoldKeyOrder(xs[..n], key, comb, ok);
      FoldKeeps([], xs[..n], key, comb, ok);
      InsertKeeps(prev, y, key, comb, ok);
      var r := Insert(prev, y, key, comb);
      if |r| == |prev| {
        KeysAgree(r, prev, key);
      } else {
        assert r[..|prev|] == prev;
      }
      if key(y).Some? {
        var k, ks := key(y).value, Keys(xs[..n], key);
        KeysAre(prev, key, k);
        assert Keys(xs, key) == ks + [k] && (ks + [k])[..|ks|] == ks;
      } else {
        assert Keys(xs, key) == Keys(xs[..n], key);
      }
    }
  }

  /** Items of no key pass through, in order. */
  lemma {:induction false} FoldKeepsUnkeyed<T(!new), K>(acc: seq<T>, xs: seq<T>, key: T -> Option<K>, comb: (T, T) -> T, ok: T -> bool)
    requires Lawful(key, comb, ok) && All(acc, ok) && All(xs, ok) && Distinct(acc, key)
    ensures Unkeyed(Fold(acc, xs, key, comb), key) == Unkeyed(acc, key) + Unkeyed(xs, key)
    decreases |xs|
  {
    if xs != [] {
      var n := |xs| - 1;
      FoldKeepsUnkeyed(acc, xs[..n], key, comb, ok);
      FoldKeeps(acc, xs[..n], key, comb, ok);
      InsertKeepsUnkeyed(Fold(acc, xs[..n], key, comb), xs[n], key, comb, ok);
    }
  }

  lemma InsertKeepsUnkeyed<T(!new), K>(acc: seq<T>, x: T, key: T -> Option<K>, comb: (T, T) -> T, ok: T -> bool)
    requires Lawful(key, comb, ok) && All(acc, ok) && ok(x) && Distinct(acc, key)
    ensures Unkeyed(Insert(acc, x, key, comb), key) == Unkeyed(acc, key) + if key(x).None? then [x] else []
  {
    InsertKeeps(acc, x, key, comb, ok);
    var r := Insert(acc, x, key, comb);
    if |r| == |acc| {
      UnkeyedAgree(r, acc, key);
    } else {
      assert r[..|acc|] == acc;
    }
  }

  lemma {:induction false} UnkeyedAgree<T, K>(a: seq<T>, b: seq<T>, key: T -> Option<K>)
    requires |a| == |b| && forall i :: 0 <= i < |a| ==> key(a[i]) == key(b[i]) && (key(a[i]).None? ==> a[i] == b[i])
    ensures Unkeyed(a, key) == Unkeyed(b, key)
  {
    if a != [] {
      var n := |a| - 1;
      assert forall i :: 0 <= i < n ==> a[..n][i] == a[i] && b[..n][i] == b[i];
      UnkeyedAgree(a[..n], b[..n], key);
    }
  }

  // ---- Appending what is not held yet ----

  function AddAll<K(==)>(held: seq<K>, more: seq<K>): seq<K> {
    if more == [] then held
    else
      var r := AddAll(held, more[..|more| - 1]);
      if more[|more| - 1] in r then r else r + [more[|more| - 1]]
  }

  /** Everything held and everything offered is there, nothing else, and what was held stands
      first; nothing offered is doubled. */
  lemma {:induction false} AddAllHolds<K>(held: seq<K>, more: seq<K>)
    ensures forall k :: k in AddAll(held, more) <==> k in held || k in more
    ensures held <= AddAll(held, more)
    ensures forall i, j :: |held| <= i < |AddAll(held, more)| && 0 <= j < i ==> AddAll(held, more)[i] != AddAll(held, more)[j]
  {
    if more != [] {
      AddAllHolds(held, more[..|more| - 1]);
      assert more == more[..|more| - 1] + [more[|more| - 1]];
    }
  }

  lemma {:induction false} AddAllAssociates<K>(a: seq<K>, b: seq<K>, c: seq<K>)
    ensures AddAll(AddAll(a, b), c) == AddAll(a, AddAll(b, c))
  {
    if c != [] {
      var n := |c| - 1;
      AddAllAssociates(a, b, c[..n]);
      AddAllHolds(a, AddAll(b, c[..n]));
      var r := AddAll(b, c[..n]);
      if c[n] !in r { assert (r + [c[n]])[..|r|] == r; }
    }
  }
}
