/** The hash map that grows by whole segments of empty buckets and rehashes lazily: a bucket that was
    never visited is marked, and its items are still in an ancestor, found by dropping top bits of
    its number.  The model runs one operation at a time and keeps the buckets in one sequence;
    SegmentExact says how the numbers map to segments. */
module SplitHash {
  import opened Words

  // --------------------------------------------------------- powers of two

  function Pow2(n: nat): (p: nat)
    ensures p >= 1
  {
    if n == 0 then 1 else 2 * Pow2(n - 1)
  }

  /** The position of the topmost bit. */
  function Log2(x: nat): nat
    requires x >= 1
  {
    if x == 1 then 0 else 1 + Log2(x / 2)
  }

  lemma {:induction false} Log2Bounds(x: nat)
    requires x >= 1
    ensures Pow2(Log2(x)) <= x < Pow2(Log2(x) + 1)
  {
    if x > 1 {
      Log2Bounds(x / 2);
    }
  }

  lemma {:induction false} Pow2Grows(m: nat, n: nat)
    requires m <= n
    ensures Pow2(m) <= Pow2(n)
  {
    if m < n {
      Pow2Grows(m, n - 1);
    }
  }

  lemma Log2Unique(x: nat, n: nat)
    requires x >= 1
    ensures Log2(x) == n <==> Pow2(n) <= x < Pow2(n + 1)
    ensures Log2(x) < n <==> x < Pow2(n)
  {
    Log2Bounds(x);
    var l := Log2(x);
    if l < n {
      Pow2Grows(l + 1, n);
    } else if n < l {
      Pow2Grows(n + 1, l);
    }
  }

  /** Masking with m bits and then with n of them is masking with n bits. */
  lemma MaskTwice(c: nat, n: nat, m: nat)
    requires n <= m
    ensures (c % Pow2(m)) % Pow2(n) == c % Pow2(n)
  {
    hide Pow2;
    var d := Pow2Divides(n, m);
    ModMod(c, Pow2(n), Pow2(m), d);
  }

  lemma ModMod(c: nat, a: nat, b: nat, d: nat)
    requires a > 0 && b > 0 && b == d * a
    ensures (c % b) % a == c % a
  {
    var q, r := c / b, c % b;
    MulAssoc(q, d, a);
    MulDistribute(q * d, r / a, a);
    DivMod(c, a, q * d + r / a, r % a);
  }

  lemma {:induction false} Pow2Divides(n: nat, m: nat) returns (d: nat)
    requires n <= m
    ensures Pow2(m) == d * Pow2(n)
  {
    if n == m {
      d := 1;
    } else {
      var e := Pow2Divides(n, m - 1);
      d := 2 * e;
    }
  }

  // --------------------------------------------------------------- segments

  /** segment_index_of: the top bit of index | 1. */
  function SegmentOf(index: nat): nat {
    Log2(if index % 2 == 0 then index + 1 else index)
  }

  /** segment_base: (1 << k) & ~1. */
  function SegmentBase(k: nat): nat {
    if k == 0 then 0 else Pow2(k)
  }

  function SegmentLength(k: nat): nat {
    if k == 0 then 2 else Pow2(k)
  }

  /** The segments are consecutive: exactly one offset in exactly one segment stands for each bucket
      number, and the first `bits` segments hold the numbers below 2^bits. */
  lemma SegmentExact(index: nat, k: nat, offset: nat, bits: nat)
    requires bits >= 1
    ensures SegmentOf(index) == k && index == SegmentBase(k) + offset <==>
            index == SegmentBase(k) + offset && offset < SegmentLength(k)
    ensures SegmentOf(index) < bits <==> index < Pow2(bits)
  {
    var odd := if index % 2 == 0 then index + 1 else index;
    Log2Unique(odd, k);
    Log2Unique(odd, bits);
    assert Pow2(bits) == 2 * Pow2(bits - 1);
    assert Pow2(k + 1) == 2 * Pow2(k);
    if k > 0 {
      assert Pow2(k) == 2 * Pow2(k - 1);
    }
  }

  // ---------------------------------------------------------------- buckets

  datatype Item<K, V> = Item(key: K, value: V)
  datatype Bucket<K, V> = RehashReq | Chain(items: seq<Item<K, V>>)

  /** The bucket numbered h was split off from: the top bit is dropped.  The mask comes from shifting
      a 32-bit one, so that h has to be below 2^32. */
  function Parent(h: nat): (p: nat)
    requires h >= 1
    ensures p < h
  {
    var mask := Pow2(Log2(h)) - 1;
    Log2Bounds(h);
    h % (mask + 1)
  }

  predicate Rooted<K, V>(bs: seq<Bucket<K, V>>) {
    |bs| >= 2 && bs[0].Chain? && bs[1].Chain?
  }

  /** The first bucket already rehashed on the way up from h. */
  ghost function First<K, V>(bs: seq<Bucket<K, V>>, h: nat): (r: nat)
    requires Rooted(bs) && h < |bs|
    ensures r <= h && bs[r].Chain?
  {
    if bs[h].Chain? then h else First(bs, Parent(h))
  }

  /** Where an item with hash code c is. */
  ghost function Home<K, V>(bs: seq<Bucket<K, V>>, c: nat): (r: nat)
    requires Rooted(bs)
    ensures r < |bs| && bs[r].Chain?
  {
    First(bs, c % |bs|)
  }

  ghost predicate Distinct<K, V>(items: seq<Item<K, V>>) {
    forall i, j :: 0 <= i < j < |items| ==> items[i].key != items[j].key
  }

  ghost predicate ChainOk<K(!new), V(!new)>(bs: seq<Bucket<K, V>>, b: nat, hash: K -> nat, contents: map<K, V>)
    requires Rooted(bs) && b < |bs|
  {
    bs[b].Chain? ==>
      && Distinct(bs[b].items)
      && forall n :: n in bs[b].items ==> Home(bs, hash(n.key)) == b && n.key in contents && contents[n.key] == n.value
  }

  ghost predicate KeyOk<K(!new), V(!new)>(bs: seq<Bucket<K, V>>, k: K, hash: K -> nat, contents: map<K, V>)
    requires Rooted(bs)
  {
    k in contents ==> Item(k, contents[k]) in bs[Home(bs, hash(k))].items
  }

  /** The buckets hold the map: each item sits in the first rehashed bucket on its way, once. */
  ghost predicate Consistent<K(!new), V(!new)>(bs: seq<Bucket<K, V>>, hash: K -> nat, contents: map<K, V>) {
    && Rooted(bs)
    && (forall b :: 0 <= b < |bs| ==> ChainOk(bs, b, hash, contents))
    && (forall k :: k in contents ==> KeyOk(bs, k, hash, contents))
  }

  /** The number of buckets is a power of two, and sizes between 2 and 256 do not occur. */
  ghost predicate Sized<K, V>(bs: seq<Bucket<K, V>>, bits: nat) {
    |bs| == Pow2(bits) && (bits == 1 || 8 <= bits <= 32)
  }

  // ---------------------------------------------------- what splitting keeps

  /** The same buckets are rehashed: the same homes. */
  lemma {:induction false} FirstSame<K, V>(bs: seq<Bucket<K, V>>, bs': seq<Bucket<K, V>>, x: nat)
    requires Rooted(bs) && Rooted(bs') && |bs'| == |bs| && x < |bs|
    requires forall b :: 0 <= b < |bs| ==> bs[b].Chain? == bs'[b].Chain?
    ensures First(bs', x) == First(bs, x)
  {
    if !bs[x].Chain? {
      FirstSame(bs, bs', Parent(x));
    }
  }

  lemma ParentMod(x: nat, n: nat)
    requires x >= 1 && n <= Log2(x)
    ensures Parent(x) % Pow2(n) == x % Pow2(n)
  {
    MaskTwice(x, n, Log2(x));
  }

  /** The bits that say h are those of x if and only if they are those of its parent. */
  lemma SplitBits(x: nat, h: nat)
    requires x >= 1 && h >= 1
    ensures h % Pow2(Log2(h) + 1) == h
    ensures x != h ==> (Parent(x) % Pow2(Log2(h) + 1) == h <==> x % Pow2(Log2(h) + 1) == h)
    ensures Parent(h) % Pow2(Log2(h) + 1) != h
  {
    var l := Log2(h);
    hide Pow2;
    Log2Bounds(h);
    Log2Bounds(x);
    Small(h, Pow2(l + 1));
    Small(Parent(h), Pow2(l + 1));
    if l + 1 <= Log2(x) {
      ParentMod(x, l + 1);
    } else {
      Log2Unique(x, l + 1);
      Small(x, Pow2(l + 1));
      Small(Parent(x), Pow2(l + 1));
      BelowPow2(x);
      Pow2Grows(Log2(x), l);
    }
  }

  lemma BelowPow2(x: nat)
    requires x >= 1
    ensures Parent(x) < Pow2(Log2(x))
  {
  }

  lemma Small(x: nat, m: nat)
    requires x < m
    ensures x % m == x
  {
  }

  /** Marking bucket h rehashed moves the home of exactly those in its parent whose bits say h. */
  lemma {:induction false} FirstSplit<K, V>(bs: seq<Bucket<K, V>>, bs': seq<Bucket<K, V>>, h: nat, x: nat)
    requires Rooted(bs) && Rooted(bs') && |bs'| == |bs| && 2 <= h < |bs| && x < |bs|
    requires bs[h].RehashReq? && bs'[h].Chain? && bs[Parent(h)].Chain?
    requires forall b :: 0 <= b < |bs| && b != h ==> bs[b].Chain? == bs'[b].Chain?
    ensures First(bs', x) == if First(bs, x) == Parent(h) && x % Pow2(Log2(h) + 1) == h then h else First(bs, x)
  {
    hide Pow2, Log2, Parent;
    SplitBits(h, h);
    if x != h && bs[x].RehashReq? {
      FirstSplit(bs, bs', h, Parent(x));
      SplitBits(x, h);
    }
  }

  /** New buckets, all to be rehashed, change no home. */
  lemma {:induction false} FirstGrown<K, V>(bs: seq<Bucket<K, V>>, bs': seq<Bucket<K, V>>, bits: nat, x: nat)
    requires Rooted(bs) && bs <= bs' && |bs| == Pow2(bits) && x < |bs'|
    requires forall b :: |bs| <= b < |bs'| ==> bs'[b].RehashReq?
    ensures First(bs', x) == First(bs, x % |bs|)
  {
    hide Pow2, Log2, Parent;
    if x < |bs| {
      Small(x, |bs|);
      if bs[x].RehashReq? {
        Small(Parent(x), |bs|);
        FirstGrown(bs, bs', bits, Parent(x));
      }
    } else {
      FirstGrown(bs, bs', bits, Parent(x));
      Log2Unique(x, bits);
      ParentMod(x, bits);
    }
  }

  lemma Grown<K(!new), V(!new)>(bs: seq<Bucket<K, V>>, bits: nat, bs': seq<Bucket<K, V>>, bits': nat, hash: K -> nat,
      contents: map<K, V>)
    requires Consistent(bs, hash, contents) && bs <= bs' && |bs| == Pow2(bits) && |bs'| == Pow2(bits') && bits <= bits'
    requires forall b :: |bs| <= b < |bs'| ==> bs'[b].RehashReq?
    ensures Consistent(bs', hash, contents)
  {
    hide First;
    forall c: nat ensures Home(bs', c) == Home(bs, c) {
      FirstGrown(bs, bs', bits, c % |bs'|);
      MaskTwice(c, bits, bits');
    }
    forall b | 0 <= b < |bs'| ensures ChainOk(bs', b, hash, contents) {
      if b < |bs| {
        assert ChainOk(bs, b, hash, contents);
      }
    }
    forall k | k in contents ensures KeyOk(bs', k, hash, contents) {
      assert KeyOk(bs, k, hash, contents);
    }
  }

  // -------------------------------------------------- dividing up one chain

  /** The items that stay when those that belong to bucket h, of `bits` bits, are taken out. */
  ghost function Stay<K(!new), V(!new)>(items: seq<Item<K, V>>, hash: K -> nat, size: nat, h: nat): seq<Item<K, V>>
    requires size > 0
  {
    if items == [] then []
    else
      var last := items[|items| - 1];
      var before := Stay(items[..|items| - 1], hash, size, h);
      if hash(last.key) % size == h then before else before + [last]
  }

  /** Those taken out, the last one first. */
  ghost function Go<K(!new), V(!new)>(items: seq<Item<K, V>>, hash: K -> nat, size: nat, h: nat): seq<Item<K, V>>
    requires size > 0
  {
    if items == [] then []
    else
      var last := items[|items| - 1];
      var before := Go(items[..|items| - 1], hash, size, h);
      if hash(last.key) % size == h then [last] + before else before
  }

  lemma {:induction false} DividedMembers<K(!new), V(!new)>(items: seq<Item<K, V>>, hash: K -> nat, size: nat,
      h: nat, n: Item<K, V>)
    requires size > 0
    ensures n in Stay(items, hash, size, h) <==> n in items && hash(n.key) % size != h
    ensures n in Go(items, hash, size, h) <==> n in items && hash(n.key) % size == h
  {
    if items != [] {
      var last := items[|items| - 1];
      assert items == items[..|items| - 1] + [last];
      DividedMembers(items[..|items| - 1], hash, size, h, n);
    }
  }

  lemma {:induction false} DividedDistinct<K(!new), V(!new)>(items: seq<Item<K, V>>, hash: K -> nat, size: nat, h: nat)
    requires size > 0 && Distinct(items)
    ensures Distinct(Stay(items, hash, size, h)) && Distinct(Go(items, hash, size, h))
  {
    if items != [] {
      var before, last := items[..|items| - 1], items[|items| - 1];
      DividedDistinct(before, hash, size, h);
      var stay, go := Stay(before, hash, size, h), Go(before, hash, size, h);
      forall n | n in stay || n in go ensures n.key != last.key {
        DividedMembers(before, hash, size, h, n);
        var i :| 0 <= i < |before| && before[i] == n;
        assert items[i] == n;
      }
      DistinctWith(stay, last);
      DistinctWith(go, last);
    }
  }

  lemma DistinctWith<K, V>(items: seq<Item<K, V>>, n: Item<K, V>)
    requires Distinct(items) && forall m :: m in items ==> m.key != n.key
    ensures Distinct(items + [n]) && Distinct([n] + items)
  {
    forall i, j | 0 <= i < j < |items| + 1 ensures ([n] + items)[i].key != ([n] + items)[j].key {
      assert items[j - 1] in items;
      if i > 0 {
        assert ([n] + items)[i] == items[i - 1];
      }
    }
  }

  /** Rehashing bucket h: the items of its parent are divided between the two. */
  lemma Split<K(!new), V(!new)>(bs: seq<Bucket<K, V>>, bits: nat, h: nat, hash: K -> nat, contents: map<K, V>)
    requires Consistent(bs, hash, contents) && |bs| == Pow2(bits) && 2 <= h < |bs|
    requires bs[h].RehashReq? && bs[Parent(h)].Chain?
    ensures var p, size := Parent(h), Pow2(Log2(h) + 1);
            var items := bs[p].items;
            Consistent(bs[p := Chain(Stay(items, hash, size, h))][h := Chain(Go(items, hash, size, h))], hash, contents)
  {
    hide First, Stay, Go;
    var p, l := Parent(h), Log2(h);
    var size := Pow2(l + 1);
    var items := bs[p].items;
    var bs' := bs[p := Chain(Stay(items, hash, size, h))][h := Chain(Go(items, hash, size, h))];
    Log2Unique(h, bits);
    forall c: nat ensures Home(bs', c) == if Home(bs, c) == p && c % size == h then h else Home(bs, c) {
      FirstSplit(bs, bs', h, c % |bs|);
      MaskTwice(c, l + 1, bits);
    }
    assert ChainOk(bs, p, hash, contents);
    DividedDistinct(items, hash, size, h);
    forall b | 0 <= b < |bs'| ensures ChainOk(bs', b, hash, contents) {
      assert ChainOk(bs, b, hash, contents);
      if b == p || b == h {
        forall n | n in bs'[b].items
          ensures Home(bs', hash(n.key)) == b && n.key in contents && contents[n.key] == n.value
        {
          DividedMembers(items, hash, size, h, n);
        }
      }
    }
    forall k | k in contents ensures KeyOk(bs', k, hash, contents) {
      assert KeyOk(bs, k, hash, contents);
      DividedMembers(items, hash, size, h, Item(k, contents[k]));
    }
  }

  /** The loop over the parent's chain: k of its items looked at, i of them left in place. */
  ghost predicate Dividing<K(!new), V(!new)>(base: seq<Bucket<K, V>>, bs: seq<Bucket<K, V>>, p: nat, h: nat,
      hash: K -> nat, size: nat, k: nat, i: nat)
  {
    && size > 0 && p < h < |base| && base[p].Chain? && base[h] == Chain([])
    && var items := base[p].items;
      && k <= |items| && i == |Stay(items[..k], hash, size, h)|
      && bs == base[p := Chain(Stay(items[..k], hash, size, h) + items[k..])][h := Chain(Go(items[..k], hash, size, h))]
  }

  lemma DividingStarts<K(!new), V(!new)>(base: seq<Bucket<K, V>>, p: nat, h: nat, hash: K -> nat, size: nat)
    requires size > 0 && p < h < |base| && base[p].Chain? && base[h] == Chain([])
    ensures Dividing(base, base, p, h, hash, size, 0, 0)
  {
    var items := base[p].items;
    assert items[..0] == [] && [] + items[0..] == items;
    assert base[p := Chain(items)][h := Chain([])] == base;
  }

  lemma DividingStep<K(!new), V(!new)>(base: seq<Bucket<K, V>>, bs: seq<Bucket<K, V>>, p: nat, h: nat,
      hash: K -> nat, size: nat, k: nat, i: nat)
    requires Dividing(base, bs, p, h, hash, size, k, i) && i < |bs[p].items|
    ensures k < |base[p].items|
    ensures var list := bs[p].items;
            var n := list[i];
            if hash(n.key) % size == h
            then Dividing(base, bs[p := Chain(list[..i] + list[i + 1..])][h := Chain([n] + bs[h].items)], p, h, hash,
              size, k + 1, i)
            else Dividing(base, bs, p, h, hash, size, k + 1, i + 1)
  {
    hide Stay, Go;
    var items, list := base[p].items, bs[p].items;
    var stay, go := Stay(items[..k], hash, size, h), Go(items[..k], hash, size, h);
    DivideNext(items, k, hash, size, h);
    assert list == stay + items[k..] && bs[h].items == go;
    SkipOne(stay, items, k);
    TwiceUpdated(base, p, h, Chain(list), Chain(go), Chain(stay + items[k + 1..]), Chain([items[k]] + go));
  }

  lemma SkipOne<T>(stay: seq<T>, items: seq<T>, k: nat)
    requires k < |items|
    ensures var list, i := stay + items[k..], |stay|;
            && i < |list| && list[i] == items[k]
            && list[..i] + list[i + 1..] == stay + items[k + 1..]
            && list == stay + [items[k]] + items[k + 1..]
  {
  }

  lemma TwiceUpdated<T>(s: seq<T>, p: nat, h: nat, x: T, y: T, x': T, y': T)
    requires p < h < |s|
    ensures s[p := x][h := y][p := x'][h := y'] == s[p := x'][h := y']
  {
  }

  lemma DividingEnds<K(!new), V(!new)>(base: seq<Bucket<K, V>>, bs: seq<Bucket<K, V>>, p: nat, h: nat,
      hash: K -> nat, size: nat, k: nat, i: nat)
    requires Dividing(base, bs, p, h, hash, size, k, i) && i >= |bs[p].items|
    ensures bs == base[p := Chain(Stay(base[p].items, hash, size, h))][h := Chain(Go(base[p].items, hash, size, h))]
  {
    hide Stay, Go;
    var items := base[p].items;
    assert items[..k] == items;
    assert Stay(items[..k], hash, size, h) + items[k..] == Stay(items[..k], hash, size, h);
  }

  lemma DivideNext<K(!new), V(!new)>(items: seq<Item<K, V>>, k: nat, hash: K -> nat, size: nat, h: nat)
    requires size > 0 && k < |items|
    ensures var n, stay, go := items[k], Stay(items[..k], hash, size, h), Go(items[..k], hash, size, h);
            if hash(n.key) % size == h
            then Stay(items[..k + 1], hash, size, h) == stay && Go(items[..k + 1], hash, size, h) == [n] + go
            else Stay(items[..k + 1], hash, size, h) == stay + [n] && Go(items[..k + 1], hash, size, h) == go
  {
    assert items[..k + 1][..k] == items[..k];
  }

  // --------------------------------------------------- insertion and removal

  /** A rehashed home bucket decides whether a key is there. */
  lemma Found<K(!new), V(!new)>(bs: seq<Bucket<K, V>>, h: nat, hash: K -> nat, contents: map<K, V>, key: K)
    requires Consistent(bs, hash, contents) && h == hash(key) % |bs| && bs[h].Chain?
    ensures Home(bs, hash(key)) == h
    ensures key in contents <==> exists n :: n in bs[h].items && n.key == key
    ensures forall n :: n in bs[h].items && n.key == key ==> contents[key] == n.value
  {
    assert KeyOk(bs, key, hash, contents) && ChainOk(bs, h, hash, contents);
  }

  lemma Inserted<K(!new), V(!new)>(bs: seq<Bucket<K, V>>, h: nat, hash: K -> nat, contents: map<K, V>, n: Item<K, V>)
    requires Consistent(bs, hash, contents) && h == hash(n.key) % |bs| && bs[h].Chain? && n.key !in contents
    ensures Consistent(bs[h := Chain([n] + bs[h].items)], hash, contents[n.key := n.value])
  {
    hide First;
    var bs' := bs[h := Chain([n] + bs[h].items)];
    var contents' := contents[n.key := n.value];
    Found(bs, h, hash, contents, n.key);
    forall c: nat ensures Home(bs', c) == Home(bs, c) { FirstSame(bs, bs', c % |bs|); }
    forall b | 0 <= b < |bs'| ensures ChainOk(bs', b, hash, contents') {
      assert ChainOk(bs, b, hash, contents);
      if b == h {
        DistinctWith(bs[h].items, n);
      }
    }
    forall k | k in contents' ensures KeyOk(bs', k, hash, contents') {
      assert k != n.key ==> KeyOk(bs, k, hash, contents);
      assert n == ([n] + bs[h].items)[0];
    }
  }

  lemma Removed<K(!new), V(!new)>(bs: seq<Bucket<K, V>>, h: nat, hash: K -> nat, contents: map<K, V>, i: nat)
    requires Consistent(bs, hash, contents) && h < |bs| && bs[h].Chain? && i < |bs[h].items|
    ensures var items := bs[h].items;
            Consistent(bs[h := Chain(items[..i] + items[i + 1..])], hash, contents - {items[i].key})
  {
    hide First;
    var items := bs[h].items;
    var rest := items[..i] + items[i + 1..];
    var bs', contents' := bs[h := Chain(rest)], contents - {items[i].key};
    forall c: nat ensures Home(bs', c) == Home(bs, c) { FirstSame(bs, bs', c % |bs|); }
    forall b | 0 <= b < |bs'| ensures ChainOk(bs', b, hash, contents') {
      assert ChainOk(bs, b, hash, contents);
      if b != h && items[i] in items {
        assert ChainOk(bs, h, hash, contents);
        forall n | bs[b].Chain? && n in bs[b].items ensures n.key != items[i].key {
          assert Home(bs, hash(n.key)) == b && Home(bs, hash(items[i].key)) == h;
        }
      }
    }
    forall k | k in contents' ensures KeyOk(bs', k, hash, contents') {
      assert KeyOk(bs, k, hash, contents);
      var n := Item(k, contents[k]);
      if n in items {
        var j :| 0 <= j < |items| && items[j] == n;
        assert n == rest[if j < i then j else j - 1];
      }
    }
  }

  // ------------------------------------------------- marking a whole subtree

  /** All buckets whose items are in r taken for rehashed. */
  ghost function Mark<K, V>(bs: seq<Bucket<K, V>>, r: nat): (marked: seq<Bucket<K, V>>)
    requires Rooted(bs)
    ensures |marked| == |bs|
  {
    seq(|bs|, x requires 0 <= x < |bs| => if bs[x].RehashReq? && First(bs, x) == r then Chain([]) else bs[x])
  }

  lemma {:induction false} MarkFirst<K, V>(bs: seq<Bucket<K, V>>, r: nat, x: nat)
    requires Rooted(bs) && x < |bs|
    ensures Rooted(Mark(bs, r)) && First(Mark(bs, r), x) == if First(bs, x) == r then x else First(bs, x)
  {
    hide Parent;
    if bs[x].RehashReq? && First(bs, x) != r {
      MarkFirst(bs, r, Parent(x));
    } else if bs[x].Chain? {
      assert First(bs, x) == x;
    }
  }

  /** The last bucket not rehashed on the way up from x: a child of First. */
  ghost function Top<K, V>(bs: seq<Bucket<K, V>>, x: nat): (y: nat)
    requires Rooted(bs) && x < |bs| && bs[x].RehashReq?
    ensures 2 <= y <= x && bs[y].RehashReq? && Parent(y) == First(bs, x)
  {
    if bs[Parent(x)].Chain? then x else Top(bs, Parent(x))
  }

  /** Of those that Mark marks, the ones below the children of r in the segments before s. */
  ghost predicate ToMark<K, V>(bs: seq<Bucket<K, V>>, r: nat, s: nat, x: nat)
    requires Rooted(bs) && x < |bs|
  {
    bs[x].RehashReq? && First(bs, x) == r && Log2(Top(bs, x)) < s
  }

  ghost predicate MarkedTo<K, V>(bs: seq<Bucket<K, V>>, cur: seq<Bucket<K, V>>, r: nat, s: nat) {
    && Rooted(bs) && |cur| == |bs|
    && forall x :: 0 <= x < |bs| ==> cur[x] == if ToMark(bs, r, s, x) then Chain([]) else bs[x]
  }

  /** The child of r in segment s. */
  lemma ChildAt(r: nat, s: nat, y: nat)
    requires y >= 2 && r < Pow2(s)
    ensures Parent(y) == r && Log2(y) == s <==> y == r + Pow2(s)
  {
    hide Pow2;
    var p := Pow2(s);
    Log2Unique(y, s);
    assert Pow2(s + 1) == 2 * p by { Pow2Next(s); }
    if p <= y < 2 * p {
      DivMod(y, p, 1, y - p);
    }
  }

  lemma Pow2Next(s: nat)
    ensures Pow2(s + 1) == 2 * Pow2(s)
  {
  }

  /** A bucket's children are in later segments. */
  lemma ChildLater(r: nat, y: nat)
    requires y >= 2 && Parent(y) == r
    ensures SegmentOf(r) < Log2(y) && r < Pow2(Log2(y))
  {
    hide Pow2, Log2;
    var l := Log2(y);
    BelowPow2(y);
    Log2Unique(y, 1);
    Pow2Next(0);
    Pow2Small();
    SegmentExact(r, 0, 0, l);
  }

  lemma MarkedNone<K, V>(bs: seq<Bucket<K, V>>, r: nat)
    requires Rooted(bs) && r < |bs|
    ensures MarkedTo(bs, bs, r, SegmentOf(r) + 1)
  {
    hide Parent, Log2, First, Top;
    var s := SegmentOf(r) + 1;
    forall x | 0 <= x < |bs| ensures !ToMark(bs, r, s, x) {
      if bs[x].RehashReq? && First(bs, x) == r {
        ChildLater(r, Top(bs, x));
      }
    }
  }

  lemma MarkedAll<K, V>(bs: seq<Bucket<K, V>>, cur: seq<Bucket<K, V>>, r: nat, bits: nat)
    requires MarkedTo(bs, cur, r, bits) && |bs| == Pow2(bits)
    ensures cur == Mark(bs, r)
  {
    hide Parent, Log2, First, Top;
    forall x | 0 <= x < |bs| ensures cur[x] == Mark(bs, r)[x] {
      if bs[x].RehashReq? && First(bs, x) == r {
        Log2Unique(Top(bs, x), bits);
      }
    }
  }

  lemma {:induction false} FirstMarkedTo<K, V>(bs: seq<Bucket<K, V>>, cur: seq<Bucket<K, V>>, r: nat, s: nat,
      c: nat, x: nat)
    requires MarkedTo(bs, cur, r, s) && r < c == r + Pow2(s) < |bs| && r < Pow2(s) && x < |bs|
    requires bs[c].RehashReq? && bs[r].Chain?
    ensures Rooted(cur[c := Chain([])])
    ensures First(cur[c := Chain([])], x) ==
            if !(bs[x].RehashReq? && First(bs, x) == r) then First(bs, x)
            else if Log2(Top(bs, x)) < s then x
            else if Top(bs, x) == c then c
            else r
    decreases x
  {
    hide Parent, Log2, Pow2;
    var cur' := cur[c := Chain([])];
    assert !ToMark(bs, r, s, 0) && !ToMark(bs, r, s, 1);
    TopOfChild(bs, r, s, c);
    if bs[x].RehashReq? {
      ChildAt(r, s, Top(bs, x));
      FirstMarkedTo(bs, cur, r, s, c, Parent(x));
      if bs[Parent(x)].Chain? {
        assert Top(bs, x) == x;
      } else {
        assert Top(bs, x) == Top(bs, Parent(x));
      }
    }
  }

  /** One more child of r, with all below it, marked. */
  lemma MarkedOne<K, V>(bs: seq<Bucket<K, V>>, cur: seq<Bucket<K, V>>, r: nat, s: nat, c: nat)
    requires MarkedTo(bs, cur, r, s) && r < c == r + Pow2(s) < |bs| && r < Pow2(s) && bs[r].Chain?
    ensures Rooted(cur) && cur[c] == bs[c]
    ensures bs[c].Chain? ==> MarkedTo(bs, cur, r, s + 1)
    ensures bs[c].RehashReq? ==> Rooted(cur[c := Chain([])]) && MarkedTo(bs, Mark(cur[c := Chain([])], c), r, s + 1)
  {
    hide Parent, Log2, First, Top, Pow2;
    TopOfChild(bs, r, s, c);
    if bs[c].RehashReq? {
      var cur' := cur[c := Chain([])];
      forall x | 0 <= x < |bs|
        ensures Rooted(cur') && Mark(cur', c)[x] == if ToMark(bs, r, s + 1, x) then Chain([]) else bs[x]
      {
        FirstMarkedTo(bs, cur, r, s, c, x);
        if bs[x].RehashReq? && First(bs, x) == r {
          ChildAt(r, s, Top(bs, x));
        }
      }
    } else {
      forall x | 0 <= x < |bs| ensures ToMark(bs, r, s + 1, x) == ToMark(bs, r, s, x) {
        if bs[x].RehashReq? && First(bs, x) == r {
          ChildAt(r, s, Top(bs, x));
        }
      }
    }
  }

  lemma TopOfChild<K, V>(bs: seq<Bucket<K, V>>, r: nat, s: nat, c: nat)
    requires Rooted(bs) && r < c == r + Pow2(s) < |bs| && r < Pow2(s) && bs[r].Chain?
    ensures c >= 2 && bs[c].RehashReq? ==> First(bs, c) == r && Top(bs, c) == c && Log2(c) == s
  {
    if c >= 2 {
      ChildAt(r, s, c);
    }
  }

  /** Every bucket rehashed has a rehashed parent. */
  ghost predicate Closed<K, V>(bs: seq<Bucket<K, V>>) {
    forall b :: 2 <= b < |bs| && bs[b].Chain? ==> bs[Parent(b)].Chain?
  }

  predicate AllRehashed<K, V>(bs: seq<Bucket<K, V>>) {
    forall b :: 0 <= b < |bs| ==> bs[b].Chain?
  }

  /** The loop that hands out the items of r, with i of them found to belong there. */
  ghost predicate Moving<K(!new), V(!new)>(before: seq<Bucket<K, V>>, bs: seq<Bucket<K, V>>, r: nat, i: nat,
      hash: K -> nat, contents: map<K, V>)
  {
    && Rooted(before) && Rooted(bs) && |bs| == |before| && r < |bs| && before[r].Chain? && bs[r].Chain?
       && i <= |bs[r].items|
    && (forall b :: 0 <= b < |bs| ==> (bs[b].Chain? <==> before[b].Chain? || First(before, b) == r))
    && (forall b :: 0 <= b < |bs| && b != r ==> ChainOk(bs, b, hash, contents))
    && Distinct(bs[r].items)
    && (forall j :: 0 <= j < |bs[r].items| ==> Movable(before, bs[r].items[j], r, hash, contents))
    && (forall j :: 0 <= j < i ==> hash(bs[r].items[j].key) % |bs| == r)
    && (forall b, j :: 0 <= b < |bs| && b != r && i <= j < |bs[r].items| ==> Elsewhere(bs, b, bs[r].items[j].key))
    && (forall k :: k in contents ==> KeyOk(bs, k, hash, contents) || Item(k, contents[k]) in bs[r].items[i..])
  }

  ghost predicate Movable<K(!new), V(!new)>(before: seq<Bucket<K, V>>, n: Item<K, V>, r: nat, hash: K -> nat,
      contents: map<K, V>)
    requires Rooted(before)
  {
    Home(before, hash(n.key)) == r && n.key in contents && contents[n.key] == n.value
  }

  /** Key k is not in bucket b. */
  ghost predicate Elsewhere<K(!new), V(!new)>(bs: seq<Bucket<K, V>>, b: nat, k: K)
    requires b < |bs|
  {
    bs[b].Chain? ==> forall n :: n in bs[b].items ==> n.key != k
  }

  /** With all below r marked, an item of r is at home where all bits of its hash code say. */
  lemma MovingHome<K(!new), V(!new)>(before: seq<Bucket<K, V>>, bs: seq<Bucket<K, V>>, r: nat, c: nat)
    requires Rooted(before) && Rooted(bs) && |bs| == |before|
    requires forall b :: 0 <= b < |bs| ==> (bs[b].Chain? <==> before[b].Chain? || First(before, b) == r)
    ensures Home(bs, c) == if Home(before, c) == r then c % |bs| else Home(before, c)
  {
    hide First;
    var x := c % |bs|;
    MarkFirst(before, r, x);
    FirstSame(Mark(before, r), bs, x);
  }

  lemma MovingStarts<K(!new), V(!new)>(before: seq<Bucket<K, V>>, r: nat, b: nat, hash: K -> nat, contents: map<K, V>)
    requires Consistent(before, hash, contents) && b < |before| && r == First(before, b)
    ensures Rooted(Mark(before, r)) && Moving(before, Mark(before, r), r, 0, hash, contents)
            && Mark(before, r)[r].Chain?
  {
    hide First;
    var bs := Mark(before, r);
    MarkFirst(before, r, 0);
    forall c: nat ensures Home(bs, c) == if Home(before, c) == r then c % |bs| else Home(before, c) {
      MovingHome(before, bs, r, c);
    }
    assert ChainOk(before, r, hash, contents);
    forall x | 0 <= x < |bs| && x != r ensures ChainOk(bs, x, hash, contents) {
      assert ChainOk(before, x, hash, contents);
    }
    forall x, j | 0 <= x < |bs| && x != r && 0 <= j < |bs[r].items| ensures Elsewhere(bs, x, bs[r].items[j].key) {
      assert ChainOk(before, x, hash, contents);
      assert bs[r].items[j] in before[r].items;
    }
    forall k | k in contents ensures KeyOk(bs, k, hash, contents) || Item(k, contents[k]) in bs[r].items[0..] {
      assert KeyOk(before, k, hash, contents);
    }
  }

  lemma MovingStep<K(!new), V(!new)>(before: seq<Bucket<K, V>>, bs: seq<Bucket<K, V>>, r: nat, i: nat,
      hash: K -> nat, contents: map<K, V>, c: nat)
    requires Moving(before, bs, r, i, hash, contents) && i < |bs[r].items| && c == hash(bs[r].items[i].key) % |bs|
    ensures bs[c].Chain?
    ensures var items := bs[r].items;
            if c == r then Moving(before, bs, r, i + 1, hash, contents)
            else Moving(before, bs[r := Chain(items[..i] + items[i + 1..])][c := Chain([items[i]] + bs[c].items)], r,
              i, hash, contents)
  {
    hide First;
    var items := bs[r].items;
    var n := items[i];
    assert Movable(before, n, r, hash, contents);
    MovingHome(before, bs, r, hash(n.key));
    assert items[i..] == [n] + items[i + 1..];
    if c == r {
      forall k | k in contents ensures KeyOk(bs, k, hash, contents) || Item(k, contents[k]) in items[i + 1..] {
      }
    } else {
      MovingOut(before, bs, r, i, hash, contents, c);
    }
  }

  lemma MovingOut<K(!new), V(!new)>(before: seq<Bucket<K, V>>, bs: seq<Bucket<K, V>>, r: nat, i: nat,
      hash: K -> nat, contents: map<K, V>, c: nat)
    requires Moving(before, bs, r, i, hash, contents) && i < |bs[r].items| && c == hash(bs[r].items[i].key) % |bs| != r
    requires bs[c].Chain? && Home(bs, hash(bs[r].items[i].key)) == c
    ensures var items := bs[r].items;
            Moving(before, bs[r := Chain(items[..i] + items[i + 1..])][c := Chain([items[i]] + bs[c].items)], r, i,
              hash, contents)
  {
    hide First, ChainOk, KeyOk, Movable, Distinct, Elsewhere;
    var items := bs[r].items;
    var n, rest := items[i], items[..i] + items[i + 1..];
    var bs' := bs[r := Chain(rest)][c := Chain([n] + bs[c].items)];
    forall x: nat ensures Home(bs', x) == Home(bs, x) { FirstSame(bs, bs', x % |bs|); }
    OutChains(before, bs, bs', r, i, hash, contents, c);
    OutRest(items, i);
    forall j | 0 <= j < |rest| ensures Movable(before, rest[j], r, hash, contents) {
      assert rest[j] == items[if j < i then j else j + 1];
    }
    forall b, j | 0 <= b < |bs'| && b != r && i <= j < |rest| ensures Elsewhere(bs', b, rest[j].key) {
      OutElsewhere(bs, bs', b, r, i, j, c);
    }
    forall k | k in contents ensures KeyOk(bs', k, hash, contents) || Item(k, contents[k]) in rest[i..] {
      OutKey(bs, bs', k, r, i, hash, contents, c);
    }
  }

  ghost predicate SameHomes<K(!new), V(!new)>(bs: seq<Bucket<K, V>>, bs': seq<Bucket<K, V>>) {
    Rooted(bs) && Rooted(bs') && forall x: nat :: Home(bs', x) == Home(bs, x)
  }

  /** bs' is bs with item i of r moved to the front of c. */
  ghost predicate Out<K(!new), V(!new)>(bs: seq<Bucket<K, V>>, bs': seq<Bucket<K, V>>, r: nat, i: nat, c: nat) {
    && SameHomes(bs, bs') && r < |bs| && c < |bs| && c != r && bs[r].Chain? && bs[c].Chain? && i < |bs[r].items|
    && var items := bs[r].items;
       bs' == bs[r := Chain(items[..i] + items[i + 1..])][c := Chain([items[i]] + bs[c].items)]
  }

  lemma OutRest<K(!new), V(!new)>(items: seq<Item<K, V>>, i: nat)
    requires i < |items| && Distinct(items)
    ensures var rest := items[..i] + items[i + 1..];
            && Distinct(rest) && rest[i..] == items[i + 1..] && items[i..] == [items[i]] + items[i + 1..]
            && forall j :: 0 <= j < |rest| ==> rest[j] == items[if j < i then j else j + 1]
  {
  }

  lemma OutChains<K(!new), V(!new)>(before: seq<Bucket<K, V>>, bs: seq<Bucket<K, V>>, bs': seq<Bucket<K, V>>, r: nat,
      i: nat, hash: K -> nat, contents: map<K, V>, c: nat)
    requires Moving(before, bs, r, i, hash, contents) && Out(bs, bs', r, i, c)
             && Home(bs, hash(bs[r].items[i].key)) == c
    ensures forall b :: 0 <= b < |bs'| && b != r ==> ChainOk(bs', b, hash, contents)
  {
    hide First, Home, KeyOk;
    var n := bs[r].items[i];
    assert Elsewhere(bs, c, n.key) && ChainOk(bs, c, hash, contents) && Movable(before, n, r, hash, contents);
    DistinctWith(bs[c].items, n);
    forall b | 0 <= b < |bs'| && b != r ensures ChainOk(bs', b, hash, contents) {
      assert ChainOk(bs, b, hash, contents);
    }
  }

  lemma OutElsewhere<K(!new), V(!new)>(bs: seq<Bucket<K, V>>, bs': seq<Bucket<K, V>>, b: nat, r: nat, i: nat, j: nat,
      c: nat)
    requires Out(bs, bs', r, i, c) && b < |bs| && b != r && Distinct(bs[r].items) && i <= j < |bs[r].items| - 1
    requires Elsewhere(bs, b, bs[r].items[j + 1].key)
    ensures Elsewhere(bs', b, bs[r].items[j + 1].key)
    ensures (bs[r].items[..i] + bs[r].items[i + 1..])[j] == bs[r].items[j + 1]
  {
    hide SameHomes;
  }

  lemma OutKey<K(!new), V(!new)>(bs: seq<Bucket<K, V>>, bs': seq<Bucket<K, V>>, k: K, r: nat, i: nat,
      hash: K -> nat, contents: map<K, V>, c: nat)
    requires Out(bs, bs', r, i, c) && k in contents && Distinct(bs[r].items) && Home(bs, hash(bs[r].items[i].key)) == c
    requires KeyOk(bs, k, hash, contents) || Item(k, contents[k]) in bs[r].items[i..]
    ensures KeyOk(bs', k, hash, contents) || Item(k, contents[k]) in bs[r].items[i + 1..]
  {
    hide First, Home;
    var m, items := Item(k, contents[k]), bs[r].items;
    var rest := items[..i] + items[i + 1..];
    assert items[i..] == [items[i]] + items[i + 1..];
    if m == items[i] {
      assert ([m] + bs[c].items)[0] == m;
    } else if m in items[i..] {
    } else if Home(bs, hash(k)) == r {
      var j :| 0 <= j < |items| && items[j] == m;
      assert rest[if j < i then j else j - 1] == m;
    }
  }

  lemma MovingEnds<K(!new), V(!new)>(before: seq<Bucket<K, V>>, bs: seq<Bucket<K, V>>, r: nat, i: nat, b: nat,
      hash: K -> nat, contents: map<K, V>)
    requires Moving(before, bs, r, i, hash, contents) && i >= |bs[r].items| && b < |bs| && r == First(before, b)
    ensures Consistent(bs, hash, contents) && bs[b].Chain?
    ensures forall x :: 0 <= x < |bs| ==> (bs[x].Chain? <==> before[x].Chain? || First(before, x) == r)
    ensures Closed(before) ==> Closed(bs)
  {
    hide First;
    var items := bs[r].items;
    forall n | n in items ensures Home(bs, hash(n.key)) == r && n.key in contents && contents[n.key] == n.value {
      var j :| 0 <= j < |items| && items[j] == n;
      assert Movable(before, items[j], r, hash, contents);
      MovingHome(before, bs, r, hash(n.key));
    }
    assert ChainOk(bs, r, hash, contents);
    MovedClosed(before, bs, r);
  }

  lemma MovedClosed<K(!new), V(!new)>(before: seq<Bucket<K, V>>, bs: seq<Bucket<K, V>>, r: nat)
    requires Rooted(before) && |bs| == |before| && r < |bs| && before[r].Chain?
    requires forall b :: 0 <= b < |bs| ==> (bs[b].Chain? <==> before[b].Chain? || First(before, b) == r)
    ensures Closed(before) ==> Closed(bs)
  {
    hide Parent;
    if Closed(before) {
      forall b | 2 <= b < |bs| && bs[b].Chain? ensures bs[Parent(b)].Chain? {
        assert First(before, r) == r;
        if before[b].RehashReq? {
          assert First(before, Parent(b)) == r;
        }
      }
    }
  }

  // ----------------------------------------------- segments and the last half

  lemma NextSegment(n: nat, bits: nat)
    requires n == Pow2(bits) && bits >= 1
    ensures SegmentOf(n) == bits && (n < 0x1_0000_0000 ==> bits < 32)
  {
    hide Pow2, Log2;
    Pow2Small();
    if bits >= 32 {
      Pow2Grows(32, bits);
    }
    SegmentExact(n, bits, 0, bits);
    SegmentPositive(bits);
  }

  lemma SegmentPositive(k: nat)
    ensures SegmentLength(k) > 0
  {
  }

  lemma SegmentEnd(h: nat, bits: nat)
    requires h < Pow2(bits) && bits >= 1
    ensures SegmentOf(h) + 1 <= bits
  {
    SegmentExact(h, 0, 0, bits);
  }

  lemma ChildFits(h: nat, s: nat, bits: nat)
    requires SegmentOf(h) < s < bits
    ensures h < Pow2(s) && h + Pow2(s) < Pow2(bits)
  {
    hide Pow2, Log2;
    SegmentExact(h, 0, 0, s);
    Pow2Next(s);
    Pow2Grows(s + 1, bits);
  }

  lemma Halved(bits: nat)
    requires bits >= 1
    ensures Pow2(bits) / 2 == Pow2(bits - 1) && Pow2(bits) == 2 * Pow2(bits - 1)
  {
  }

  /** Every bucket of the lower half has a child in the upper half. */
  lemma UpperHalf<K, V>(bs: seq<Bucket<K, V>>, bits: nat)
    requires Rooted(bs) && |bs| == Pow2(bits) && bits >= 1 && Closed(bs)
    requires forall x :: |bs| / 2 <= x < |bs| ==> bs[x].Chain?
    ensures AllRehashed(bs)
  {
    hide Pow2, Log2, Parent;
    Halved(bits);
    var half := Pow2(bits - 1);
    forall x | 2 <= x < half ensures bs[x].Chain? {
      ChildAt(x, bits - 1, x + half);
    }
  }

  // ------------------------------------------------- what one scan rehashes

  /** From bs to bs', exactly the buckets whose items were in one of the roots have become rehashed. */
  ghost predicate HandedOut<K, V>(bs: seq<Bucket<K, V>>, bs': seq<Bucket<K, V>>, roots: set<nat>) {
    && Rooted(bs) && Rooted(bs') && |bs'| == |bs|
    && forall x :: 0 <= x < |bs| ==> (bs'[x].Chain? <==> bs[x].Chain? || First(bs, x) in roots)
  }

  /** Where the items are of the buckets from lo to hi still to be rehashed. */
  ghost function Roots<K, V>(bs: seq<Bucket<K, V>>, lo: nat, hi: nat): set<nat>
    requires Rooted(bs) && hi <= |bs|
  {
    set x | lo <= x < hi && bs[x].RehashReq? :: First(bs, x)
  }

  /** A bucket left alone keeps its items where they were. */
  lemma {:induction false} HandedFirst<K, V>(bs: seq<Bucket<K, V>>, bs': seq<Bucket<K, V>>, roots: set<nat>, x: nat)
    requires HandedOut(bs, bs', roots) && x < |bs| && bs'[x].RehashReq?
    ensures First(bs', x) == First(bs, x)
  {
    hide Parent;
    if bs'[Parent(x)].RehashReq? {
      HandedFirst(bs, bs', roots, Parent(x));
    }
  }

  lemma HandedNone<K, V>(bs: seq<Bucket<K, V>>, lo: nat)
    requires Rooted(bs) && lo <= |bs|
    ensures HandedOut(bs, bs, Roots(bs, lo, lo))
  {
  }

  /** The scan of rehash looks at one more bucket. */
  lemma HandedNext<K, V>(bs: seq<Bucket<K, V>>, cur: seq<Bucket<K, V>>, cur': seq<Bucket<K, V>>, lo: nat, b: nat)
    requires Rooted(bs) && lo <= b < |bs| && HandedOut(bs, cur, Roots(bs, lo, b))
    requires if cur[b].Chain? then cur' == cur else HandedOut(cur, cur', {First(cur, b)})
    ensures HandedOut(bs, cur', Roots(bs, lo, b + 1))
  {
    hide Parent, First;
    var roots := Roots(bs, lo, b);
    assert Roots(bs, lo, b + 1) == if bs[b].RehashReq? then roots + {First(bs, b)} else roots;
    if cur[b].RehashReq? {
      HandedFirst(bs, cur, roots, b);
      forall x | 0 <= x < |bs| ensures cur'[x].Chain? <==> bs[x].Chain? || First(bs, x) in Roots(bs, lo, b + 1) {
        if cur[x].RehashReq? {
          HandedFirst(bs, cur, roots, x);
        }
      }
    }
  }

  /** Every bucket to be rehashed has its items where some such bucket of the last segment has them. */
  ghost predicate ScanReaches<K, V>(bs: seq<Bucket<K, V>>)
    requires Rooted(bs)
  {
    forall x :: 0 <= x < |bs| && bs[x].RehashReq? ==> First(bs, x) in Roots(bs, |bs| / 2, |bs|)
  }

  /** So one scan rehashes all there is exactly when it reaches all. */
  lemma ScanExact<K, V>(bs: seq<Bucket<K, V>>, bs': seq<Bucket<K, V>>)
    requires Rooted(bs) && HandedOut(bs, bs', Roots(bs, |bs| / 2, |bs|))
    ensures AllRehashed(bs') <==> ScanReaches(bs)
    ensures forall x :: |bs| / 2 <= x < |bs| ==> bs'[x].Chain?
  {
  }

  /** It does when the rehashed buckets are closed under parents, as they are in any map that was not
      enlarged while empty. */
  lemma ClosedReaches<K, V>(bs: seq<Bucket<K, V>>, bits: nat)
    requires Rooted(bs) && |bs| == Pow2(bits) && bits >= 1 && Closed(bs)
    ensures ScanReaches(bs)
  {
    hide Pow2, Log2, Parent;
    Halved(bits);
    var half := Pow2(bits - 1);
    forall x | 0 <= x < |bs| && bs[x].RehashReq? ensures First(bs, x) in Roots(bs, half, |bs|) {
      if x < half {
        ChildAt(x, bits - 1, x + half);
        assert First(bs, x + half) == First(bs, x);
      }
    }
  }

  /** New buckets to be rehashed, as many as there were or more, reach everything. */
  lemma GrownReaches<K, V>(bs: seq<Bucket<K, V>>, bs': seq<Bucket<K, V>>, bits: nat)
    requires Rooted(bs) && bs <= bs' && |bs'| == Pow2(bits) && bits >= 1 && |bs| <= Pow2(bits - 1)
    requires forall b :: |bs| <= b < |bs'| ==> bs'[b].RehashReq?
    ensures ScanReaches(bs')
  {
    hide Pow2, Log2, Parent;
    Halved(bits);
    var half := Pow2(bits - 1);
    forall x | 0 <= x < |bs'| && bs'[x].RehashReq? ensures First(bs', x) in Roots(bs', half, |bs'|) {
      if x < half {
        ChildAt(x, bits - 1, x + half);
        assert First(bs', x + half) == First(bs', x);
      }
    }
  }

  // ---------------------------------------------------------------- the map

  /** The buckets with those in `owed` taken for not rehashed yet. */
  ghost function Masked<K, V>(bs: seq<Bucket<K, V>>, owed: set<nat>): seq<Bucket<K, V>> {
    seq(|bs|, b requires 0 <= b < |bs| => if b in owed then RehashReq else bs[b])
  }

  ghost predicate ConsistentBut<K(!new), V(!new)>(bs: seq<Bucket<K, V>>, owed: set<nat>, hash: K -> nat,
      contents: map<K, V>)
  {
    && Rooted(bs) && Consistent(Masked(bs, owed), hash, contents)
    && forall b :: b in owed ==> 2 <= b < |bs| && bs[b] == Chain([])
  }

  class HashMap<K(==, !new), V(!new)> {
    const hash: K -> nat
    var buckets: seq<Bucket<K, V>>
    var mask: nat
    var size: nat
    var bits: nat                 // the segments enabled: entries of my_table that are set
    ghost var contents: map<K, V>

    ghost predicate Valid()
      reads this
    {
      Sized(buckets, bits) && mask + 1 == |buckets| && size == |contents| && Consistent(buckets, hash, contents)
    }

    constructor (hash: K -> nat)
      ensures Valid() && contents == map[] && this.hash == hash && |buckets| == 2 && Closed(buckets)
    {
      this.hash := hash;
      buckets, mask, size := [Chain([]), Chain([])], 1, 0;
      bits, contents := 1, map[];
    }

    /** bucket_accessor::acquire: bucket h, rehashed first if need be.  `owed` are the buckets already
        marked rehashed by the callers, still without their items. */
    method Acquire(h: nat, ghost owed: set<nat>)
      requires h < |buckets| && ConsistentBut(buckets, owed, hash, contents) && |buckets| == Pow2(bits)
      requires forall o :: o in owed ==> h < o
      modifies this`buckets
      ensures |buckets| == |old(buckets)| && ConsistentBut(buckets, owed, hash, contents) && buckets[h].Chain?
      ensures forall b :: h < b < |buckets| ==> buckets[b] == old(buckets)[b]
      ensures Closed(Masked(old(buckets), owed)) ==> Closed(Masked(buckets, owed))
      decreases h, 1
    {
      if buckets[h].RehashReq? {
        RehashBucket(h, owed);
      }
    }

    /** rehash_bucket: mark h, have the parent rehashed, and take over the items with the bits of h. */
    method RehashBucket(h: nat, ghost owed: set<nat>)
      requires h < |buckets| && ConsistentBut(buckets, owed, hash, contents) && |buckets| == Pow2(bits)
      requires buckets[h].RehashReq? && forall o :: o in owed ==> h < o
      modifies this`buckets
      ensures |buckets| == |old(buckets)| && ConsistentBut(buckets, owed, hash, contents) && buckets[h].Chain?
      ensures forall b :: h < b < |buckets| ==> buckets[b] == old(buckets)[b]
      ensures Closed(Masked(old(buckets), owed)) ==> Closed(Masked(buckets, owed))
      decreases h, 0
    {
      hide Consistent, Dividing, Stay, Go, Log2, Parent, Pow2, Closed;
      ghost var before := buckets;
      buckets := buckets[h := Chain([])];
      assert Masked(buckets, owed + {h}) == Masked(before, owed);
      var parentMask := Pow2(Log2(h)) - 1;
      var p := Parent(h);
      Acquire(p, owed + {h});
      var full := 2 * parentMask + 1;
      DoubleMask(h, full);
      ghost var base, k := buckets, 0;
      var i := 0;
      DividingStarts(base, p, h, hash, full + 1);
      while i < |buckets[p].items|
        invariant Dividing(base, buckets, p, h, hash, full + 1, k, i)
        invariant p < h < |buckets| && buckets[p].Chain? && buckets[h].Chain?
        decreases |base[p].items| - k
      {
        var list := buckets[p].items;
        var n := list[i];
        DividingStep(base, buckets, p, h, hash, full + 1, k, i);
        if hash(n.key) % (full + 1) == h {
          buckets := buckets[p := Chain(list[..i] + list[i + 1..])];
          buckets := buckets[h := Chain([n] + buckets[h].items)];
        } else {
          i := i + 1;
        }
        k := k + 1;
      }
      DividingEnds(base, buckets, p, h, hash, full + 1, k, i);
      RehashedBucket(before, base, buckets, owed, bits, h, hash, contents);
    }

    /** Bucket h, rehashed, with nothing owed. */
    method Visit(h: nat)
      requires Valid() && h < |buckets|
      modifies this`buckets
      ensures Valid() && |buckets| == |old(buckets)| && buckets[h].Chain?
      ensures forall b :: h < b < |buckets| ==> buckets[b] == old(buckets)[b]
      ensures Closed(old(buckets)) ==> Closed(buckets)
    {
      hide Consistent, Closed;
      assert Masked(buckets, {}) == buckets;
      IsRooted(buckets, hash, contents);
      Acquire(h, {});
      assert Masked(buckets, {}) == buckets;
    }

    /** search_bucket: walk the chain. */
    method SearchBucket(key: K, h: nat) returns (i: nat)
      requires h < |buckets| && buckets[h].Chain?
      ensures i <= |buckets[h].items|
      ensures forall j :: 0 <= j < i ==> buckets[h].items[j].key != key
      ensures i < |buckets[h].items| ==> buckets[h].items[i].key == key
    {
      i := 0;
      while i < |buckets[h].items| && buckets[h].items[i].key != key
        invariant i <= |buckets[h].items|
        invariant forall j :: 0 <= j < i ==> buckets[h].items[j].key != key
      {
        i := i + 1;
      }
    }

    /** enable_segment: the first block brings the table from 2 to 256 buckets at once, every later
        segment doubles it. */
    method EnableSegment(k: nat, isInitial: bool)
      requires Valid() && k == bits < 32 && (isInitial ==> contents == map[])
      modifies this`buckets, this`mask, this`bits
      ensures Valid() && old(buckets) <= buckets && bits > old(bits)
      ensures |buckets| == if |old(buckets)| == 2 then 256 else 2 * |old(buckets)|
      ensures forall b :: |old(buckets)| <= b < |buckets| ==> buckets[b] == if isInitial then Chain([]) else RehashReq
    {
      hide Consistent;
      ghost var before, was := buckets, bits;
      IsRooted(buckets, hash, contents);
      var blank := if isInitial then Chain([]) else RehashReq;
      var sz;
      Pow2Small();
      if k >= 8 {
        sz := Pow2(k);
        buckets := buckets + seq(sz, _ => blank);
        sz := 2 * sz;
        bits := k + 1;
      } else {
        sz := Pow2(8);
        buckets := buckets + seq(sz - 2, _ => blank);
        bits := 8;
      }
      mask := sz - 1;
      if isInitial {
        EmptyGrown(before, buckets, hash, contents);
      } else {
        Grown(before, was, buckets, bits, hash, contents);
      }
    }

    /** insert_new_node: a segment to be enabled is returned once there are as many items as the mask
        says; zero if none is.  The next segment is never there yet. */
    method InsertNewNode(h: nat, n: Item<K, V>) returns (newSegment: nat)
      requires Valid() && h == hash(n.key) % |buckets| && buckets[h].Chain? && n.key !in contents
      modifies this`buckets, this`size, this`contents
      ensures Valid() && |buckets| == |old(buckets)| && contents == old(contents)[n.key := n.value]
      ensures newSegment == if size >= mask then bits else 0
      ensures forall b :: h < b < |buckets| ==> buckets[b] == old(buckets)[b]
      ensures Closed(old(buckets)) ==> Closed(buckets)
    {
      hide Consistent, Closed;
      Inserted(buckets, h, hash, contents, n);
      ClosedUpdate(buckets, h, [n] + buckets[h].items);
      size := size + 1;
      buckets := buckets[h := Chain([n] + buckets[h].items)];
      contents := contents[n.key := n.value];
      if size >= mask {
        newSegment := Log2(mask + 1);
        Log2Unique(mask + 1, bits);
        return newSegment;
      }
      return 0;
    }

    /** lookup: find the key, or insert it with its value if it is not there.  The number of items has
        to stay below 2^32 - 1, lest the table grow to more buckets than a 32-bit mask can split. */
    method Lookup(opInsert: bool, key: K, t: V) returns (result: bool, node: Option<Item<K, V>>)
      requires Valid() && (opInsert ==> |contents| + 1 < 0xFFFF_FFFF)
      modifies this
      ensures Valid()
      ensures contents == if opInsert && key !in old(contents) then old(contents)[key := t] else old(contents)
      ensures result == if opInsert then key !in old(contents) else key in old(contents)
      ensures node == if key in contents then Some(Item(key, contents[key])) else None
      ensures var grown := opInsert && key !in old(contents) && |contents| >= |old(buckets)| - 1;
              |buckets| == if !grown then |old(buckets)| else if |old(buckets)| == 2 then 256 else 2 * |old(buckets)|
      ensures forall b :: |old(buckets)| <= b < |buckets| ==> buckets[b].RehashReq?
      ensures Closed(old(buckets)) ==> Closed(buckets)
    {
      hide Consistent, Closed;
      var h := hash(key) % (mask + 1);
      Visit(h);
      var i := SearchBucket(key, h);
      Searched(buckets, h, hash, contents, key, i);
      if i < |buckets[h].items| {
        return !opInsert, Some(buckets[h].items[i]);
      }
      if !opInsert {
        return false, None;
      }
      var growSegment := InsertNewNode(h, Item(key, t));
      if growSegment != 0 {
        Pow2Small();
        SmallBits(bits);
        ghost var before := buckets;
        EnableSegment(growSegment, false);
        StaysClosed(before, buckets);
      }
      return true, Some(Item(key, t));
    }

    /** erase: unlink the first node with the key. */
    method Erase(key: K) returns (result: bool)
      requires Valid()
      modifies this`buckets, this`size, this`contents
      ensures Valid() && |buckets| == |old(buckets)|
      ensures contents == old(contents) - {key} && result == (key in old(contents))
      ensures forall b :: hash(key) % |buckets| < b < |buckets| ==> buckets[b] == old(buckets)[b]
      ensures Closed(old(buckets)) ==> Closed(buckets)
    {
      hide Consistent, Closed;
      var h := hash(key) % (mask + 1);
      Visit(h);
      var i := SearchBucket(key, h);
      Searched(buckets, h, hash, contents, key, i);
      var items := buckets[h].items;
      if i == |items| {
        assert contents - {key} == contents;
        return false;
      }
      Removed(buckets, h, hash, contents, i);
      ClosedUpdate(buckets, h, items[..i] + items[i + 1..]);
      buckets := buckets[h := Chain(items[..i] + items[i + 1..])];
      RemovedSize(contents, key);
      size := size - 1;
      contents := contents - {key};
      return true;
    }

    /** internal_equal_range: look the key up without rehashing anything. */
    method EqualRange(key: K) returns (node: Option<Item<K, V>>)
      requires Valid()
      ensures node == if key in contents then Some(Item(key, contents[key])) else None
    {
      hide Consistent;
      var h: nat := hash(key) % (mask + 1);
      IsRooted(buckets, hash, contents);
      while buckets[h].RehashReq?
        invariant h < |buckets| && Rooted(buckets) && First(buckets, h) == Home(buckets, hash(key))
        decreases h
      {
        h := Parent(h);
      }
      var i := SearchBucket(key, h);
      SearchedHome(buckets, h, hash, contents, key, i);
      node := if i < |buckets[h].items| then Some(buckets[h].items[i]) else None;
    }

    /** reserve: enable segments until there are that many buckets.  On an empty map the new buckets
        count as rehashed. */
    method Reserve(n: nat)
      requires Valid() && n <= 0x1_0000_0000
      modifies this`buckets, this`mask, this`bits
      ensures Valid() && old(buckets) <= buckets && n <= |buckets| && old(bits) <= bits
      ensures forall b :: |old(buckets)| <= b < |buckets| ==> buckets[b] == if size == 0 then Chain([]) else RehashReq
      ensures |buckets| > |old(buckets)| <==> n > |old(buckets)|
    {
      hide Consistent;
      if n == 0 {
        return;
      }
      var last, isInitial := n - 1, size == 0;
      while last > mask
        invariant Valid() && old(buckets) <= buckets && old(bits) <= bits
        invariant forall b :: |old(buckets)| <= b < |buckets| ==>
                  buckets[b] == if size == 0 then Chain([]) else RehashReq
        invariant |buckets| > |old(buckets)| ==> n > |old(buckets)|
        decreases last - mask
      {
        NextSegment(mask + 1, bits);
        ghost var was := buckets;
        EnableSegment(SegmentOf(mask + 1), isInitial);
      }
    }

    /** mark_rehashed_levels: mark every bucket below h, down to those already rehashed. */
    method MarkRehashedLevels(h: nat)
      requires Rooted(buckets) && |buckets| == Pow2(bits) && bits >= 1 && h < |buckets| && buckets[h].Chain?
      modifies this`buckets
      ensures buckets == Mark(old(buckets), h)
      decreases |buckets| - h
    {
      hide MarkedTo, Mark, Rooted, Pow2, Log2;
      ghost var before := buckets;
      MarkedNone(before, h);
      var s := SegmentOf(h) + 1;
      SegmentEnd(h, bits);
      while s < bits
        invariant SegmentOf(h) < s <= bits && MarkedTo(before, buckets, h, s) && |buckets| == |before| && Rooted(before)
        decreases bits - s
      {
        ghost var cur := buckets;
        ChildFits(h, s, bits);
        var c := h + Pow2(s);
        MarkedOne(before, buckets, h, s, c);
        if buckets[c].RehashReq? {
          buckets := buckets[c := Chain([])];
          MarkRehashedLevels(c);
        }
        s := s + 1;
      }
      MarkedAll(before, buckets, h, bits);
    }

    /** The part of rehash for one bucket: find the ancestor that has its items, mark all that is below
        that one, and hand its items out to where their hash codes say. */
    method RehashFrom(b: nat)
      requires Valid() && b < |buckets| && buckets[b].RehashReq?
      modifies this`buckets
      ensures Valid() && |buckets| == |old(buckets)| && buckets[b].Chain?
      ensures HandedOut(old(buckets), buckets, {First(old(buckets), b)})
      ensures Closed(old(buckets)) ==> Closed(buckets)
    {
      hide Consistent, Closed, Mark, Moving, Parent;
      ghost var before := buckets;
      IsRooted(before, hash, contents);
      var h := Parent(b);
      while buckets[h].RehashReq?
        invariant 0 <= h < |buckets| && First(before, h) == First(before, b)
        decreases h
      {
        h := Parent(h);
      }
      MarkRehashedLevels(h);
      MovingStarts(before, h, b, hash, contents);
      var i := 0;
      while i < |buckets[h].items|
        invariant h < |buckets| == |before| && buckets[h].Chain?
        invariant Moving(before, buckets, h, i, hash, contents)
        decreases |buckets[h].items| - i
      {
        var items := buckets[h].items;
        var n := items[i];
        var c := hash(n.key) % (mask + 1);
        MovingStep(before, buckets, h, i, hash, contents, c);
        if c != h {
          buckets := buckets[h := Chain(items[..i] + items[i + 1..])];
          buckets := buckets[c := Chain([n] + buckets[c].items)];
        } else {
          i := i + 1;
        }
      }
      MovingEnds(before, buckets, h, i, b, hash, contents);
    }

    /** rehash: reserve, and rehash every bucket of the last segment that needs it.  Only in two cases
        does that leave buckets to be rehashed: an empty map is enlarged that had such buckets, or the
        map is not enlarged and the scan does not reach them. */
    method Rehash(n: nat)
      requires Valid() && n <= 0x1_0000_0000
      modifies this`buckets, this`mask, this`bits
      ensures Valid() && |buckets| >= n && |buckets| >= |old(buckets)|
      ensures |buckets| > |old(buckets)| <==> n > |old(buckets)|
      ensures forall x :: |buckets| / 2 <= x < |buckets| ==> buckets[x].Chain?
      ensures Rooted(old(buckets))
      ensures AllRehashed(buckets) <==>
                if n <= |old(buckets)| then ScanReaches(old(buckets)) else size > 0 || AllRehashed(old(buckets))
      ensures Closed(old(buckets)) ==>
                (AllRehashed(buckets) <==> !(size == 0 && n > |old(buckets)| && !AllRehashed(old(buckets))))
    {
      hide Consistent, Closed, Pow2, HandedOut, Roots, ScanReaches, AllRehashed;
      ghost var start, was := buckets, bits;
      IsRooted(start, hash, contents);
      Reserve(n);
      ghost var reserved := buckets;
      IsRooted(reserved, hash, contents);
      Halved(bits);
      ghost var half := (mask + 1) / 2;
      HandedNone(reserved, half);
      var b := (mask + 1) / 2;
      while b <= mask
        invariant half <= b <= mask + 1 && half == (mask + 1) / 2
        invariant Valid() && |buckets| == |reserved| && bits >= was
        invariant HandedOut(reserved, buckets, Roots(reserved, half, b))
        decreases mask + 1 - b
      {
        ghost var cur := buckets;
        IsRooted(cur, hash, contents);
        if buckets[b].RehashReq? {
          RehashFrom(b);
        }
        HandedNext(reserved, cur, buckets, half, b);
        b := b + 1;
      }
      RehashDone(start, was, reserved, buckets, bits, size);
    }
  }

  datatype Option<T> = None | Some(value: T)

  /** A map that is empty again does end with buckets not rehashed when it is enlarged. */
  method EnlargedEmpty<K(==, !new), V(!new)>(key: K, value: V) returns (m: HashMap<K, V>)
    ensures fresh(m) && m.Valid() && m.contents == map[] && 512 <= |m.buckets|
    ensures !AllRehashed(m.buckets) && forall x :: |m.buckets| / 2 <= x < |m.buckets| ==> m.buckets[x].Chain?
  {
    hide Consistent, ScanReaches, Closed;
    m := new HashMap<K, V>((k: K) => 0);
    var result, node := m.Lookup(true, key, value);
    assert m.buckets[2].RehashReq?;
    result := m.Erase(key);
    assert m.buckets[2].RehashReq? && m.contents == map[];
    m.Rehash(512);
  }

  /** Another rehash does not mend that: the scan finds nothing to do. */
  method RehashedAgain<K(==, !new), V(!new)>(key: K, value: V) returns (m: HashMap<K, V>)
    ensures m.Valid() && m.contents == map[] && !AllRehashed(m.buckets)
  {
    m := EnlargedEmpty(key, value);
    m.Rehash(0);
  }

  lemma IsRooted<K(!new), V(!new)>(bs: seq<Bucket<K, V>>, hash: K -> nat, contents: map<K, V>)
    requires Consistent(bs, hash, contents)
    ensures Rooted(bs)
  {
  }

  lemma Pow2Small()
    ensures Pow2(1) == 2 && Pow2(8) == 256 && Pow2(32) == 0x1_0000_0000
  {
    assert Pow2(4) == 16;
    assert Pow2(8) == 16 * Pow2(4);
    assert Pow2(16) == 256 * 256 by {
      assert Pow2(12) == 16 * Pow2(8);
      assert Pow2(16) == 16 * Pow2(12);
    }
    assert Pow2(20) == 16 * Pow2(16);
    assert Pow2(24) == 16 * Pow2(20);
    assert Pow2(28) == 16 * Pow2(24);
    assert Pow2(32) == 16 * Pow2(28);
  }

  lemma SmallBits(bits: nat)
    requires Pow2(bits) < Pow2(32)
    ensures bits < 32
  {
    hide Pow2;
    if bits >= 32 {
      Pow2Grows(32, bits);
    }
  }

  /** Growing an empty map: the new buckets may count as rehashed. */
  lemma EmptyGrown<K(!new), V(!new)>(bs: seq<Bucket<K, V>>, bs': seq<Bucket<K, V>>, hash: K -> nat, contents: map<K, V>)
    requires Consistent(bs, hash, contents) && contents == map[] && bs <= bs'
    requires forall b :: |bs| <= b < |bs'| ==> bs'[b] == Chain([])
    ensures Consistent(bs', hash, contents)
  {
    hide First;
    forall b | 0 <= b < |bs'| ensures ChainOk(bs', b, hash, contents) {
      if b < |bs| {
        assert ChainOk(bs, b, hash, contents);
      }
    }
  }

  lemma StaysClosed<K, V>(bs: seq<Bucket<K, V>>, bs': seq<Bucket<K, V>>)
    requires bs <= bs' && forall b :: |bs| <= b < |bs'| ==> bs'[b].RehashReq?
    ensures Closed(bs) ==> Closed(bs')
  {
  }

  lemma ClosedUpdate<K, V>(bs: seq<Bucket<K, V>>, h: nat, items: seq<Item<K, V>>)
    requires h < |bs| && bs[h].Chain?
    ensures Closed(bs) ==> Closed(bs[h := Chain(items)])
  {
  }

  lemma SearchedHome<K(!new), V(!new)>(bs: seq<Bucket<K, V>>, h: nat, hash: K -> nat, contents: map<K, V>, key: K,
      i: nat)
    requires Consistent(bs, hash, contents) && h < |bs| && bs[h].Chain? && h == Home(bs, hash(key))
             && i <= |bs[h].items|
    requires forall j :: 0 <= j < i ==> bs[h].items[j].key != key
    requires i < |bs[h].items| ==> bs[h].items[i].key == key
    ensures key in contents <==> i < |bs[h].items|
    ensures key in contents ==> bs[h].items[i] == Item(key, contents[key])
  {
    hide First;
    assert KeyOk(bs, key, hash, contents) && ChainOk(bs, h, hash, contents);
    if i < |bs[h].items| {
      assert bs[h].items[i] in bs[h].items;
    }
  }

  lemma Searched<K(!new), V(!new)>(bs: seq<Bucket<K, V>>, h: nat, hash: K -> nat, contents: map<K, V>, key: K, i: nat)
    requires Consistent(bs, hash, contents) && |bs| > 0 && h == hash(key) % |bs| && bs[h].Chain? && i <= |bs[h].items|
    requires forall j :: 0 <= j < i ==> bs[h].items[j].key != key
    requires i < |bs[h].items| ==> bs[h].items[i].key == key
    ensures key in contents <==> i < |bs[h].items|
    ensures key in contents ==> bs[h].items[i] == Item(key, contents[key])
  {
    hide Consistent;
    IsRooted(bs, hash, contents);
    SearchedHome(bs, h, hash, contents, key, i);
  }

  lemma RemovedSize<K, V>(m: map<K, V>, key: K)
    requires key in m
    ensures |m - {key}| == |m| - 1
  {
    assert m == (m - {key})[key := m[key]];
  }

  lemma DoubleMask(h: nat, full: nat)
    requires h >= 1 && full == 2 * (Pow2(Log2(h)) - 1) + 1
    ensures full + 1 == Pow2(Log2(h) + 1)
  {
  }

  lemma RehashedBucket<K(!new), V(!new)>(before: seq<Bucket<K, V>>, base: seq<Bucket<K, V>>, bs: seq<Bucket<K, V>>,
      owed: set<nat>, bits: nat, h: nat, hash: K -> nat, contents: map<K, V>)
    requires 2 <= h < |before| == |base| && base[Parent(h)].Chain? && |base| == Pow2(bits)
    requires before[h].RehashReq? && forall o :: o in owed ==> h < o
    requires ConsistentBut(base, owed + {h}, hash, contents)
    requires Closed(Masked(before, owed)) ==> Closed(Masked(base, owed + {h}))
    requires var items, size := base[Parent(h)].items, Pow2(Log2(h) + 1);
             bs == base[Parent(h) := Chain(Stay(items, hash, size, h))][h := Chain(Go(items, hash, size, h))]
    ensures ConsistentBut(bs, owed, hash, contents)
    ensures Closed(Masked(before, owed)) ==> Closed(Masked(bs, owed))
  {
    hide Consistent, Stay, Go, Log2, Parent, Pow2;
    var p, size := Parent(h), Pow2(Log2(h) + 1);
    var items, vs := base[p].items, Masked(base, owed + {h});
    Split(vs, bits, h, hash, contents);
    assert Masked(bs, owed) == vs[p := Chain(Stay(items, hash, size, h))][h := Chain(Go(items, hash, size, h))];
  }

  lemma RehashDone<K(!new), V(!new)>(start: seq<Bucket<K, V>>, was: nat, reserved: seq<Bucket<K, V>>,
      bs: seq<Bucket<K, V>>, bits: nat, size: nat)
    requires Rooted(start) && start <= reserved && |reserved| == Pow2(bits) && |start| == Pow2(was) && 1 <= was <= bits
    requires forall b :: |start| <= b < |reserved| ==> reserved[b] == if size == 0 then Chain([]) else RehashReq
    requires Rooted(reserved) && |bs| == |reserved| && HandedOut(reserved, bs, Roots(reserved, |bs| / 2, |bs|))
    ensures forall x :: |bs| / 2 <= x < |bs| ==> bs[x].Chain?
    ensures AllRehashed(bs) <==> if |bs| == |start| then ScanReaches(start) else size > 0 || AllRehashed(start)
    ensures Closed(start) ==> (AllRehashed(bs) <==> !(size == 0 && |bs| > |start| && !AllRehashed(start)))
  {
    hide Pow2, Parent, First, Closed, HandedOut;
    ScanExact(reserved, bs);
    if |bs| == |start| {
      assert reserved == start;
      if Closed(start) {
        ClosedReaches(start, bits);
      }
    } else {
      Halved(bits);
      assert bits != was;
      Pow2Grows(was, bits - 1);
      if size == 0 {
        assert Roots(reserved, |bs| / 2, |bs|) == {};
      } else {
        GrownReaches(start, reserved, bits);
      }
    }
  }
}
