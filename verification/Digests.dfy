/** Table digests: one over the ordered row stream, one over sorted row hashes. */
module Digests {
  import opened Outcomes
  import opened Encodings

  const HASH_LENGTH: nat := 32

  /** A hash with 32-byte results, SHA-256 in the program. */
  type Hash = h: Bytes -> Bytes | forall m :: |h(m)| == HASH_LENGTH
    ghost witness (m: Bytes) => seq(HASH_LENGTH, i => 0 as Byte)

  /** No message of `a` collides with one of `b`. */
  ghost predicate Apart(h: Hash, a: seq<Bytes>, b: seq<Bytes>) {
    forall x, y :: x in a && y in b && h(x) == h(y) ==> x == y
  }

  ghost predicate NoClash(h: Hash, m: Bytes, n: Bytes) {
    h(m) == h(n) ==> m == n
  }

  function Map<A, B>(f: A -> B, s: seq<A>): (r: seq<B>)
    ensures |r| == |s| && forall i :: 0 <= i < |s| ==> r[i] == f(s[i])
  {
    seq(|s|, i requires 0 <= i < |s| => f(s[i]))
  }

  // ---------- the order of byte strings ----------

  predicate Lex(a: Bytes, b: Bytes) {
    a == [] || (b != [] && (a[0] < b[0] || (a[0] == b[0] && Lex(a[1..], b[1..]))))
  }

  lemma {:induction false} LexTotal(a: Bytes, b: Bytes)
    ensures Lex(a, b) || Lex(b, a)
  {
    if a != [] && b != [] { LexTotal(a[1..], b[1..]); }
  }

  lemma {:induction false} LexAntisymmetric(a: Bytes, b: Bytes)
    requires Lex(a, b) && Lex(b, a)
    ensures a == b
  {
    if a != [] {
      LexAntisymmetric(a[1..], b[1..]);
      assert a == [a[0]] + a[1..] && b == [b[0]] + b[1..];
    }
  }

  lemma {:induction false} LexTransitive(a: Bytes, b: Bytes, c: Bytes)
    requires Lex(a, b) && Lex(b, c)
    ensures Lex(a, c)
  {
    if a != [] && a[0] == b[0] == c[0] { LexTransitive(a[1..], b[1..], c[1..]); }
  }

  predicate Ascending(s: seq<Bytes>) {
    forall i, j :: 0 <= i < j < |s| ==> Lex(s[i], s[j])
  }

  function Insert(x: Bytes, s: seq<Bytes>): (r: seq<Bytes>)
    ensures multiset(r) == multiset(s) + multiset{x}
    decreases |s|
  {
    if s == [] then [x]
    else if Lex(x, s[0]) then
      assert [x] + s == [x] + s;
      [x] + s
    else
      assert s == [s[0]] + s[1..];
      [s[0]] + Insert(x, s[1..])
  }

  /** `sorted`. */
  function Sort(s: seq<Bytes>): (r: seq<Bytes>)
    ensures multiset(r) == multiset(s)
    decreases |s|
  {
    if s == [] then []
    else
      assert s == [s[0]] + s[1..];
      Insert(s[0], Sort(s[1..]))
  }

  lemma {:induction false} InsertAscending(x: Bytes, s: seq<Bytes>)
    requires Ascending(s)
    ensures Ascending(Insert(x, s))
    decreases |s|
  {
    if s != [] {
      if Lex(x, s[0]) {
        forall j | 0 <= j < |s| ensures Lex(x, s[j]) {
          if j > 0 { LexTransitive(x, s[0], s[j]); }
        }
      } else {
        LexTotal(x, s[0]);
        var tail := Insert(x, s[1..]);
        InsertAscending(x, s[1..]);
        forall j | 0 <= j < |tail| ensures Lex(s[0], tail[j]) {
          assert tail[j] in multiset(tail);
          if tail[j] != x { assert tail[j] in s[1..]; }
        }
      }
    }
  }

  lemma {:induction false} SortAscending(s: seq<Bytes>)
    ensures Ascending(Sort(s))
    decreases |s|
  {
    if s != [] {
      SortAscending(s[1..]);
      InsertAscending(s[0], Sort(s[1..]));
    }
  }

  /** An ascending list is determined by what is in it. */
  lemma {:induction false} AscendingUnique(a: seq<Bytes>, b: seq<Bytes>)
    requires Ascending(a) && Ascending(b) && multiset(a) == multiset(b)
    ensures a == b
    decreases |a|
  {
    SameLength(a, b);
    if a != [] {
      LeastFirst(a, b);
      LeastFirst(b, a);
      LexAntisymmetric(a[0], b[0]);
      assert multiset(a[1..]) == multiset(b[1..]) by {
        Without(a, 0);
        Without(b, 0);
      }
      AscendingUnique(a[1..], b[1..]);
      assert a == [a[0]] + a[1..] && b == [b[0]] + b[1..];
    }
  }

  lemma LeastFirst(a: seq<Bytes>, b: seq<Bytes>)
    requires Ascending(a) && a != [] && b != [] && multiset(a) == multiset(b)
    ensures Lex(a[0], b[0])
  {
    assert b[0] in multiset(a);
    var j :| 0 <= j < |a| && a[j] == b[0];
    LexTotal(a[0], a[0]);
  }

  lemma SameLength<T>(a: seq<T>, b: seq<T>)
    requires multiset(a) == multiset(b)
    ensures |a| == |b|
  {
    assert |a| == |multiset(a)| && |b| == |multiset(b)|;
  }

  lemma SortIsCanonical(a: seq<Bytes>, b: seq<Bytes>)
    ensures multiset(a) == multiset(b) <==> Sort(a) == Sort(b)
  {
    SortAscending(a);
    SortAscending(b);
    if multiset(a) == multiset(b) { AscendingUnique(Sort(a), Sort(b)); }
  }

  // ---------- mapping and multisets ----------

  lemma {:induction false} MapMultiset<A, B>(f: A -> B, a: seq<A>, b: seq<A>)
    requires multiset(a) == multiset(b)
    ensures multiset(Map(f, a)) == multiset(Map(f, b))
    decreases |a|
  {
    SameLength(a, b);
    if a == [] {
      assert Map(f, a) == Map(f, b);
    } else {
      assert a[0] in multiset(b);
      var j :| 0 <= j < |b| && b[j] == a[0];
      var rest := b[..j] + b[j + 1..];
      assert multiset(a[1..]) == multiset(rest) by {
        Without(a, 0);
        Without(b, j);
      }
      MapMultiset(f, a[1..], rest);
      MapHead(f, a);
      MapWithout(f, b, j);
    }
  }

  lemma Cancel<A>(m: multiset<A>, n: multiset<A>, x: A)
    requires m + multiset{x} == n + multiset{x}
    ensures m == n
  {
    assert m == (m + multiset{x}) - multiset{x};
  }

  lemma MapHead<A, B>(f: A -> B, s: seq<A>)
    requires s != []
    ensures multiset(Map(f, s)) == multiset(Map(f, s[1..])) + multiset{f(s[0])}
  {
    assert Map(f, s) == [f(s[0])] + Map(f, s[1..]);
  }

  lemma Without<A>(s: seq<A>, j: nat)
    requires j < |s|
    ensures multiset(s[..j] + s[j + 1..]) == multiset(s) - multiset{s[j]}
    ensures multiset(s) == multiset(s[..j] + s[j + 1..]) + multiset{s[j]}
    ensures j == 0 ==> s[..j] + s[j + 1..] == s[1..]
  {
    assert s == s[..j] + ([s[j]] + s[j + 1..]);
  }

  lemma MapWithout<A, B>(f: A -> B, s: seq<A>, j: nat)
    requires j < |s|
    ensures multiset(Map(f, s)) == multiset(Map(f, s[..j] + s[j + 1..])) + multiset{f(s[j])}
  {
    var m := Map(f, s);
    Without(m, j);
    assert m[..j] + m[j + 1..] == Map(f, s[..j] + s[j + 1..]);
  }

  /** Where `f` confuses nothing in `a` with anything else in `b`, it loses nothing. */
  lemma {:induction false} InjectiveMapMultiset<A, B>(f: A -> B, a: seq<A>, b: seq<A>)
    requires forall x, y :: x in a && y in b && f(x) == f(y) ==> x == y
    requires multiset(Map(f, a)) == multiset(Map(f, b))
    ensures multiset(a) == multiset(b)
    decreases |a|
  {
    SameLength(Map(f, a), Map(f, b));
    if a == [] {
      assert a == b;
    } else {
      assert Map(f, a)[0] in multiset(Map(f, b));
      var j :| 0 <= j < |b| && Map(f, b)[j] == f(a[0]);
      assert a[0] in a && b[j] in b;
      var rest := b[..j] + b[j + 1..];
      assert multiset(Map(f, a[1..])) == multiset(Map(f, rest)) by {
        MapHead(f, a);
        MapWithout(f, b, j);
        Cancel(multiset(Map(f, a[1..])), multiset(Map(f, rest)), f(a[0]));
      }
      forall x, y | x in a[1..] && y in rest && f(x) == f(y) ensures x == y {
        assert x in a && y in b;
      }
      InjectiveMapMultiset(f, a[1..], rest);
      Without(a, 0);
      Without(b, j);
    }
  }

  // ---------- the sorted digest ----------

  function Concat(parts: seq<Bytes>): Bytes {
    Join((p: Bytes) => p, parts)
  }

  predicate AllHashes(parts: seq<Bytes>) {
    forall p :: p in parts ==> |p| == HASH_LENGTH
  }

  lemma {:induction false} ConcatLength(parts: seq<Bytes>)
    requires AllHashes(parts)
    ensures |Concat(parts)| == HASH_LENGTH * |parts|
  {
    if parts != [] { ConcatLength(parts[1..]); }
  }

  lemma {:induction false} ConcatInjective(a: seq<Bytes>, b: seq<Bytes>)
    requires AllHashes(a) && AllHashes(b) && Concat(a) == Concat(b)
    ensures a == b
    decreases |a|
  {
    ConcatLength(a);
    ConcatLength(b);
    if a != [] {
      assert a[0] == Concat(a)[..HASH_LENGTH] && b[0] == Concat(b)[..HASH_LENGTH];
      assert Concat(a[1..]) == Concat(a)[HASH_LENGTH..] && Concat(b[1..]) == Concat(b)[HASH_LENGTH..];
      ConcatInjective(a[1..], b[1..]);
      assert a == [a[0]] + a[1..] && b == [b[0]] + b[1..];
    }
  }

  /** What the outer hash is taken over, for rows with these encodings. */
  function SortedMessage(h: Hash, header: Bytes, encodings: seq<Bytes>): Bytes {
    header + BigEndian(|encodings|, 8) + Concat(Sort(Map(h, encodings)))
  }

  function SortedDigest(h: Hash, header: Bytes, encodings: seq<Bytes>): Bytes {
    h(SortedMessage(h, header, encodings))
  }

  lemma SortedHashes(h: Hash, encodings: seq<Bytes>)
    ensures AllHashes(Sort(Map(h, encodings)))
  {
    forall p | p in Sort(Map(h, encodings)) ensures |p| == HASH_LENGTH {
      assert p in multiset(Map(h, encodings));
    }
  }

  /** Equal messages exactly for equal multisets of row hashes. */
  lemma SortedMessageIs(h: Hash, header: Bytes, a: seq<Bytes>, b: seq<Bytes>)
    ensures (SortedMessage(h, header, a) == SortedMessage(h, header, b))
              <==> (multiset(Map(h, a)) == multiset(Map(h, b)))
  {
    var sa, sb := Sort(Map(h, a)), Sort(Map(h, b));
    SortIsCanonical(Map(h, a), Map(h, b));
    SortedHashes(h, a);
    SortedHashes(h, b);
    if SortedMessage(h, header, a) == SortedMessage(h, header, b) {
      assert Concat(sa) == SortedMessage(h, header, a)[|header| + 8..];
      assert Concat(sb) == SortedMessage(h, header, b)[|header| + 8..];
      ConcatInjective(sa, sb);
    } else if sa == sb {
      SameLength(Map(h, a), Map(h, b));
    }
  }

  lemma HashesDetermine(h: Hash, a: seq<Bytes>, b: seq<Bytes>)
    requires Apart(h, a, b)
    ensures multiset(Map(h, a)) == multiset(Map(h, b)) <==> multiset(a) == multiset(b)
  {
    if multiset(a) == multiset(b) {
      MapMultiset(h, a, b);
    } else if multiset(Map(h, a)) == multiset(Map(h, b)) {
      InjectiveMapMultiset(h, a, b);
    }
  }

  /** The digests are equal exactly when the multisets of encodings are, provided the hash
      does not collide on the messages it was actually given. */
  lemma SortedDigestIs(h: Hash, header: Bytes, a: seq<Bytes>, b: seq<Bytes>)
    requires Apart(h, a, b)
    requires NoClash(h, SortedMessage(h, header, a), SortedMessage(h, header, b))
    ensures SortedDigest(h, header, a) == SortedDigest(h, header, b) <==> multiset(a) == multiset(b)
  {
    SortedMessageIs(h, header, a, b);
    HashesDetermine(h, a, b);
  }

  /** Without any assumption on the hash, the order of the rows never matters. */
  lemma SortedDigestIgnoresOrder(h: Hash, header: Bytes, a: seq<Bytes>, b: seq<Bytes>)
    requires multiset(a) == multiset(b)
    ensures SortedDigest(h, header, a) == SortedDigest(h, header, b)
  {
    MapMultiset(h, a, b);
    SortedMessageIs(h, header, a, b);
  }
}
