/** Stable sorting by a key, the order of socket addresses, and the one ascending list of a set. */
module Order {
  import opened Basics
  import opened Types

  ghost predicate Ascending<T>(key: T -> seq<int>, s: seq<T>) {
    forall i, j :: 0 <= i < j < |s| ==> !LexLess(key(s[j]), key(s[i]))
  }

  /** The elements with key `k`, in their order. */
  ghost function WithKey<T>(key: T -> seq<int>, s: seq<T>, k: seq<int>): seq<T> {
    if s == [] then []
    else (if key(s[0]) == k then [s[0]] else []) + WithKey(key, s[1..], k)
  }

  lemma WithKeyHead<T>(key: T -> seq<int>, x: T, s: seq<T>, k: seq<int>)
    ensures WithKey(key, [x] + s, k) == (if key(x) == k then [x] else []) + WithKey(key, s, k)
  {
    assert ([x] + s)[1..] == s;
  }

  function Insert<T>(key: T -> seq<int>, x: T, s: seq<T>): (r: seq<T>)
    requires Ascending(key, s)
    ensures multiset(r) == multiset(s) + multiset{x}
    ensures Ascending(key, r)
  {
    if s == [] || !LexLess(key(s[0]), key(x)) then
      HeadBelow(key, x, s);
      [x] + s
    else
      assert s == [s[0]] + s[1..];
      var rest := Insert(key, x, s[1..]);
      HeadStillBelow(key, x, s, rest);
      [s[0]] + rest
  }

  lemma HeadStillBelow<T>(key: T -> seq<int>, x: T, s: seq<T>, rest: seq<T>)
    requires Ascending(key, s) && s != [] && LexLess(key(s[0]), key(x))
    requires Ascending(key, rest) && multiset(rest) == multiset(s[1..]) + multiset{x}
    ensures Ascending(key, [s[0]] + rest)
  {
    forall j | 0 <= j < |rest|
      ensures !LexLess(key(rest[j]), key(s[0]))
    {
      assert rest[j] in multiset(rest);
      if rest[j] == x {
        if LexLess(key(x), key(s[0])) {
          LexLessTransitive(key(x), key(s[0]), key(x));
          LexLessIrreflexive(key(x));
        }
      } else {
        assert rest[j] in s[1..];
      }
    }
  }

  lemma HeadBelow<T>(key: T -> seq<int>, x: T, s: seq<T>)
    requires Ascending(key, s) && (s == [] || !LexLess(key(s[0]), key(x)))
    ensures Ascending(key, [x] + s)
  {
    forall j | 0 <= j < |s|
      ensures !LexLess(key(s[j]), key(x))
    {
      if j > 0 && LexLess(key(s[j]), key(x)) {
        LexLessTotal(key(s[0]), key(s[j]));
        if LexLess(key(s[0]), key(s[j])) {
          LexLessTransitive(key(s[0]), key(s[j]), key(x));
        }
      }
    }
  }

  /** `sort_by_key`: ascending, a permutation, and stable (`SortIsStable`). */
  function SortByKey<T>(key: T -> seq<int>, s: seq<T>): (r: seq<T>)
    ensures Ascending(key, r)
    ensures multiset(r) == multiset(s)
  {
    if s == [] then []
    else
      assert s == [s[0]] + s[1..];
      Insert(key, s[0], SortByKey(key, s[1..]))
  }

  lemma {:induction false} InsertIsStable<T>(key: T -> seq<int>, x: T, s: seq<T>, k: seq<int>)
    requires Ascending(key, s)
    ensures WithKey(key, Insert(key, x, s), k) == WithKey(key, [x] + s, k)
    decreases |s|
  {
    if s != [] && LexLess(key(s[0]), key(x)) {
      LexLessIrreflexive(key(x));
      InsertIsStable(key, x, s[1..], k);
      WithKeyHead(key, s[0], Insert(key, x, s[1..]), k);
      hide WithKey, LexLess;
      assert s == [s[0]] + s[1..];
      WithKeyHead(key, s[0], s[1..], k);
      WithKeyHead(key, x, s[1..], k);
      WithKeyHead(key, x, s, k);
    }
  }

  /** Sorting leaves the elements with any one key in their order. */
  lemma {:induction false} SortIsStable<T>(key: T -> seq<int>, s: seq<T>, k: seq<int>)
    ensures WithKey(key, SortByKey(key, s), k) == WithKey(key, s, k)
    decreases |s|
  {
    if s != [] {
      SortIsStable(key, s[1..], k);
      InsertIsStable(key, s[0], SortByKey(key, s[1..]), k);
      WithKeyHead(key, s[0], SortByKey(key, s[1..]), k);
    }
  }

  lemma PermutationFacts<T>(s: seq<T>, t: seq<T>)
    requires multiset(s) == multiset(t)
    ensures |s| == |t| && Elements(s) == Elements(t)
    ensures NoDuplicates(s) ==> NoDuplicates(t)
  {
    assert |multiset(s)| == |s| && |multiset(t)| == |t|;
    forall x
      ensures x in s <==> x in t
    {
      assert x in multiset(s) <==> x in s;
      assert x in multiset(t) <==> x in t;
    }
    if NoDuplicates(s) {
      forall i, j | 0 <= i < j < |t|
        ensures t[i] != t[j]
      {
        if t[i] == t[j] {
          CountTwice(t, i, j);
          CountOnce(s, t[i]);
        }
      }
    }
  }

  lemma CountTwice<T>(t: seq<T>, i: nat, j: nat)
    requires i < j < |t| && t[i] == t[j]
    ensures multiset(t)[t[i]] >= 2
  {
    assert t == t[..j] + [t[j]] + t[j + 1..];
    assert t[i] in t[..j];
    assert t[i] in multiset(t[..j]);
  }

  lemma CountOnce<T>(s: seq<T>, x: T)
    requires NoDuplicates(s)
    ensures multiset(s)[x] <= 1
  {
    if s != [] {
      var front := s[..|s| - 1];
      assert s == front + [s[|s| - 1]];
      CountOnce(front, x);
      if x == s[|s| - 1] {
        assert x !in front;
        assert x !in multiset(front);
      }
    }
  }

  // Socket addresses: version 4 before version 6, then octets, then port.

  function Numbers(octets: Bytes): (s: seq<int>)
    ensures |s| == |octets|
    ensures forall i :: 0 <= i < |s| ==> s[i] == octets[i] as int
  {
    if octets == [] then [] else [octets[0] as int] + Numbers(octets[1..])
  }

  function AddrKey(a: Addr): seq<int> {
    match a
    case V4(ip, port) => [4] + Numbers(ip) + [port]
    case V6(ip, port) => [6] + Numbers(ip) + [port]
  }

  lemma AddrKeyInjective(a: Addr, b: Addr)
    requires AddrKey(a) == AddrKey(b)
    ensures a == b
  {
    var x, y := AddrKey(a), AddrKey(b);
    assert x[0] == y[0];
    var m, n := if a.V4? then a.ip4 else a.ip6, if b.V4? then b.ip4 else b.ip6;
    assert x[1..|x| - 1] == Numbers(m) && y[1..|y| - 1] == Numbers(n);
    assert x[|x| - 1] == a.port && y[|y| - 1] == b.port;
    forall i | 0 <= i < |m|
      ensures m[i] == n[i]
    {
      assert Numbers(m)[i] == Numbers(n)[i];
    }
    assert m == n;
  }

  predicate AddrLess(a: Addr, b: Addr) {
    LexLess(AddrKey(a), AddrKey(b))
  }

  ghost predicate StrictlyAscending(s: seq<Addr>) {
    forall i, j :: 0 <= i < j < |s| ==> AddrLess(s[i], s[j])
  }

  lemma AscendingIsStrict(s: seq<Addr>)
    requires Ascending(AddrKey, s) && NoDuplicates(s)
    ensures StrictlyAscending(s)
  {
    forall i, j | 0 <= i < j < |s|
      ensures AddrLess(s[i], s[j])
    {
      LexLessTotal(AddrKey(s[i]), AddrKey(s[j]));
      if AddrKey(s[i]) == AddrKey(s[j]) {
        AddrKeyInjective(s[i], s[j]);
      }
    }
  }

  /** A set of addresses has one strictly ascending list. */
  lemma {:induction false} AscendingListUnique(s: seq<Addr>, t: seq<Addr>)
    requires StrictlyAscending(s) && StrictlyAscending(t) && Elements(s) == Elements(t)
    ensures s == t
  {
    if s == [] {
      HeadIsElement(t);
    } else {
      assert s[0] in Elements(s);
      assert s[0] in Elements(t) && t[0] in Elements(s);
      if s[0] != t[0] {
        LexLessTransitive(AddrKey(s[0]), AddrKey(t[0]), AddrKey(s[0]));
        LexLessIrreflexive(AddrKey(s[0]));
        assert false;
      }
      HeadOnce(s);
      HeadOnce(t);
      assert Elements(s[1..]) == Elements(s) - {s[0]};
      assert Elements(t[1..]) == Elements(t) - {t[0]};
      AscendingListUnique(s[1..], t[1..]);
      assert s == [s[0]] + s[1..] && t == [t[0]] + t[1..];
    }
  }

  lemma HeadOnce(s: seq<Addr>)
    requires StrictlyAscending(s) && s != []
    ensures s[0] !in s[1..]
  {
    if s[0] in s[1..] {
      var i :| 0 < i < |s| && s[i] == s[0];
      LexLessIrreflexive(AddrKey(s[0]));
      assert false;
    }
  }

  /** The ascending list of a set of addresses. */
  ghost function SortedKeys(keys: set<Addr>): (s: seq<Addr>)
    ensures StrictlyAscending(s) && Elements(s) == keys
  {
    var listed := ListOf(keys);
    var s := SortByKey(AddrKey, listed);
    PermutationFacts(listed, s);
    AscendingIsStrict(s);
    s
  }

  ghost function ListOf<T>(keys: set<T>): (s: seq<T>)
    ensures NoDuplicates(s) && Elements(s) == keys
  {
    if keys == {} then []
    else
      var k :| k in keys;
      var rest := ListOf(keys - {k});
      assert Elements(rest + [k]) == Elements(rest) + {k};
      rest + [k]
  }
}
