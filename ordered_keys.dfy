/**
 * The order in which a `cw-storage-plus` map with string keys is ranged with
 * `Order::Ascending`: lexicographic on the key, a proper prefix first. Code-point
 * order on characters agrees with the byte order of their UTF-8 encodings.
 */
module OrderedKeys {

  /** Strict lexicographic order on strings. */
  predicate Less(a: string, b: string)
  {
    |b| > 0 && (|a| == 0 || a[0] < b[0] || (a[0] == b[0] && Less(a[1..], b[1..])))
  }

  lemma {:induction false} LessIrreflexive(a: string)
    ensures !Less(a, a)
  {
    if |a| > 0 {
      LessIrreflexive(a[1..]);
    }
  }

  lemma {:induction false} LessAsymmetric(a: string, b: string)
    ensures Less(a, b) ==> !Less(b, a)
  {
    if |a| > 0 && |b| > 0 && a[0] == b[0] {
      LessAsymmetric(a[1..], b[1..]);
    }
  }

  lemma {:induction false} LessTransitive(a: string, b: string, c: string)
    ensures Less(a, b) && Less(b, c) ==> Less(a, c)
  {
    if |a| > 0 && |b| > 0 && |c| > 0 && a[0] == b[0] && b[0] == c[0] {
      LessTransitive(a[1..], b[1..], c[1..]);
    }
  }

  lemma {:induction false} LessTotal(a: string, b: string)
    ensures a == b || Less(a, b) || Less(b, a)
  {
    if |a| > 0 && |b| > 0 && a[0] == b[0] {
      LessTotal(a[1..], b[1..]);
      assert a == [a[0]] + a[1..] && b == [b[0]] + b[1..];
    } else if |a| == 0 && |b| == 0 {
      assert a == b;
    }
  }

  /** `keys` lists every key of `domain` exactly once, in ascending order. */
  ghost predicate Enumerates(keys: seq<string>, domain: set<string>)
  {
    && (forall i, j :: 0 <= i < j < |keys| ==> Less(keys[i], keys[j]))
    && (forall i :: 0 <= i < |keys| ==> keys[i] in domain)
    && (forall k :: k in domain ==> k in keys)
  }

  /** `k` is the least element of `s`. */
  predicate IsLeast(k: string, s: set<string>)
  {
    k in s && forall j :: j in s && j != k ==> Less(k, j)
  }

  /** Every finite non-empty set of keys has a least element. */
  lemma {:induction false} LeastExists(s: set<string>)
    requires s != {}
    ensures exists k :: IsLeast(k, s)
    decreases |s|
  {
    var x :| x in s;
    if s == {x} {
      assert IsLeast(x, s);
    } else {
      var t := s - {x};
      LeastExists(t);
      var y :| IsLeast(y, t);
      LessTotal(x, y);
      if Less(x, y) {
        forall j | j in s && j != x
          ensures Less(x, j)
        {
          if j != y {
            LessTransitive(x, y, j);
          }
        }
        assert IsLeast(x, s);
      } else {
        assert IsLeast(y, s);
      }
    }
  }

  /** The keys of `domain`, least first: the order of an ascending range over the store. */
  method SortedKeys(domain: set<string>) returns (keys: seq<string>)
    ensures Enumerates(keys, domain)
    ensures |keys| == |domain|
  {
    var rest := domain;
    keys := [];
    while rest != {}
      invariant rest <= domain
      invariant forall i, j :: 0 <= i < j < |keys| ==> Less(keys[i], keys[j])
      invariant forall i :: 0 <= i < |keys| ==> keys[i] in domain && keys[i] !in rest
      invariant forall i, k :: 0 <= i < |keys| && k in rest ==> Less(keys[i], k)
      invariant forall k :: k in domain && k !in rest ==> k in keys
      invariant |keys| + |rest| == |domain|
      decreases |rest|
    {
      LeastExists(rest);
      var k :| IsLeast(k, rest);
      keys := keys + [k];
      rest := rest - {k};
    }
  }

  lemma HeadIsLeast(keys: seq<string>, domain: set<string>)
    requires Enumerates(keys, domain) && keys != []
    ensures forall k :: k in domain ==> k == keys[0] || Less(keys[0], k)
  {
    forall k | k in domain
      ensures k == keys[0] || Less(keys[0], k)
    {
      var j :| 0 <= j < |keys| && keys[j] == k;
    }
  }

  lemma TailEnumerates(keys: seq<string>, domain: set<string>)
    requires Enumerates(keys, domain) && keys != []
    ensures Enumerates(keys[1..], domain - {keys[0]})
  {
    LessIrreflexive(keys[0]);
    forall k | k in domain - {keys[0]}
      ensures k in keys[1..]
    {
      var j :| 0 <= j < |keys| && keys[j] == k;
      assert keys[1..][j - 1] == k;
    }
  }

  /** An ascending listing is determined by the set of keys: ranging the same store twice gives the same list. */
  lemma {:induction false} EnumerationUnique(a: seq<string>, b: seq<string>, domain: set<string>)
    requires Enumerates(a, domain) && Enumerates(b, domain)
    ensures a == b
    decreases |a|
  {
    if a == [] {
      assert forall i :: 0 <= i < |b| ==> b[i] in a;
    } else {
      assert a[0] in b;
      HeadIsLeast(a, domain);
      HeadIsLeast(b, domain);
      LessAsymmetric(a[0], b[0]);
      assert a[0] == b[0];
      TailEnumerates(a, domain);
      TailEnumerates(b, domain);
      EnumerationUnique(a[1..], b[1..], domain - {a[0]});
      assert a == [a[0]] + a[1..] && b == [b[0]] + b[1..];
    }
  }

  /** A store holding one key lists exactly that key. */
  lemma EnumerationOfSingleton(keys: seq<string>, k: string)
    requires Enumerates(keys, {k})
    ensures keys == [k]
  {
    EnumerationUnique(keys, [k], {k});
  }

  /** A map's entries in ascending key order, as a storage `range` with `Order::Ascending` yields them. */
  method SortedEntries<V>(m: map<string, V>) returns (r: seq<(string, V)>)
    ensures |r| == |m|
    ensures forall i :: 0 <= i < |r| ==> r[i].0 in m && r[i].1 == m[r[i].0]
    ensures forall i, j :: 0 <= i < j < |r| ==> Less(r[i].0, r[j].0)
    ensures forall k :: k in m ==> exists i :: 0 <= i < |r| && r[i].0 == k
  {
    var keys := SortedKeys(m.Keys);
    r := seq(|keys|, i requires 0 <= i < |keys| => (keys[i], m[keys[i]]));
    forall k | k in m
      ensures exists i :: 0 <= i < |r| && r[i].0 == k
    {
      var i :| 0 <= i < |keys| && keys[i] == k;
      assert r[i].0 == k;
    }
  }
}
