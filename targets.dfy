/**
 * Target types, their labels, and the ranking rule both analyzers apply to
 * their result table: sort by the target_type label descending, then by a
 * score descending.
 */
module Targets {

  datatype TargetType = Up | Down | Reverse

  /** The label written in the target_type column. */
  function Name(t: TargetType): string
  {
    match t
    case Up => "Up"
    case Down => "Down"
    case Reverse => "Reverse"
  }

  /** Python's `<` on str: code point by code point, a proper prefix first. */
  predicate LexLess(a: string, b: string)
    decreases |a|
  {
    if |a| == 0 then |b| > 0
    else if |b| == 0 then false
    else if a[0] != b[0] then a[0] < b[0]
    else LexLess(a[1..], b[1..])
  }

  /** Position of a type when labels are sorted descending: higher comes first. */
  function Rank(t: TargetType): nat
  {
    match t
    case Down => 0
    case Reverse => 1
    case Up => 2
  }

  /** Rank orders the types exactly as their labels compare as strings. */
  lemma RankFollowsLabels(a: TargetType, b: TargetType)
    ensures Rank(a) < Rank(b) <==> LexLess(Name(a), Name(b))
  {
    assert Name(Up)[0] == 'U' && Name(Down)[0] == 'D' && Name(Reverse)[0] == 'R';
  }

  function Abs(x: real): (r: real)
    ensures r >= 0.0
    ensures r == x || r == -x
  {
    if x < 0.0 then -x else x
  }

  /** The two sort columns of a row: its type and its score. */
  datatype SortKey = SortKey(targetType: TargetType, score: real)

  /** `a` may stand before `b` in a table sorted by (type label, score), both descending. */
  predicate Precedes(a: SortKey, b: SortKey)
  {
    Rank(a.targetType) > Rank(b.targetType) ||
    (a.targetType == b.targetType && a.score >= b.score)
  }

  ghost predicate SortedBy<T>(s: seq<T>, key: T -> SortKey)
  {
    forall i, j :: 0 <= i < j < |s| ==> Precedes(key(s[i]), key(s[j]))
  }

  lemma PrecedesTotal(a: SortKey, b: SortKey)
    ensures Precedes(a, b) || Precedes(b, a)
  {
    if Rank(a.targetType) == Rank(b.targetType) {
      assert a.targetType == b.targetType;
    }
  }

  /** The tail of a sorted sequence is sorted. */
  lemma SortedTail<T>(s: seq<T>, key: T -> SortKey)
    requires |s| > 0 && SortedBy(s, key)
    ensures SortedBy(s[1..], key)
  {
    forall i, j | 0 <= i < j < |s| - 1 ensures Precedes(key(s[1..][i]), key(s[1..][j])) {
      assert s[1..][i] == s[i + 1] && s[1..][j] == s[j + 1];
    }
  }

  /** A row that precedes the head of a sorted sequence precedes all of it. */
  lemma PrecedesHead<T>(x: T, s: seq<T>, key: T -> SortKey)
    requires |s| > 0 && SortedBy(s, key)
    requires Precedes(key(x), key(s[0]))
    ensures SortedBy([x] + s, key)
  {
    assert forall j :: 0 < j < |s| ==> Precedes(key(s[0]), key(s[j]));
  }

  /**
   * When `x` does not precede the head of a sorted sequence, the head precedes
   * every row of the tail with `x` inserted.
   */
  lemma HeadPrecedesInserted<T>(x: T, s: seq<T>, key: T -> SortKey, rest: seq<T>)
    requires |s| > 0 && SortedBy(s, key)
    requires !Precedes(key(x), key(s[0]))
    requires multiset(rest) == multiset(s[1..]) + multiset{x}
    requires SortedBy(rest, key)
    ensures SortedBy([s[0]] + rest, key)
  {
    PrecedesTotal(key(x), key(s[0]));
    forall j | 0 <= j < |rest| ensures Precedes(key(s[0]), key(rest[j])) {
      var y := rest[j];
      assert y in multiset(rest);
      if y != x {
        assert y in multiset(s[1..]);
        var k :| 0 <= k < |s[1..]| && s[1..][k] == y;
        assert s[k + 1] == y;
      }
    }
    var r := [s[0]] + rest;
    forall i, j | 0 <= i < j < |r| ensures Precedes(key(r[i]), key(r[j])) {
      if i > 0 {
        assert r[i] == rest[i - 1] && r[j] == rest[j - 1];
      } else {
        assert r[j] == rest[j - 1];
      }
    }
  }

  /** Insert `x` into a sorted sequence, before the first row it may precede. */
  function Insert<T(==)>(x: T, s: seq<T>, key: T -> SortKey): (r: seq<T>)
    requires SortedBy(s, key)
    ensures multiset(r) == multiset(s) + multiset{x}
    ensures SortedBy(r, key)
  {
    if |s| == 0 then [x]
    else if Precedes(key(x), key(s[0])) then
      PrecedesHead(x, s, key);
      [x] + s
    else
      SortedTail(s, key);
      var rest := Insert(x, s[1..], key);
      HeadPrecedesInserted(x, s, key, rest);
      assert s == [s[0]] + s[1..];
      [s[0]] + rest
  }

  /** The ranking of a result table: a permutation of `s`, sorted by `key`. */
  function SortByKey<T(==)>(s: seq<T>, key: T -> SortKey): (r: seq<T>)
    ensures multiset(r) == multiset(s)
    ensures SortedBy(r, key)
  {
    if |s| == 0 then []
    else
      assert s == [s[0]] + s[1..];
      Insert(s[0], SortByKey(s[1..], key), key)
  }

  /** No two elements of `s` share an id. */
  predicate IdsDistinct<T>(s: seq<T>, id: T -> string)
  {
    forall i, j :: 0 <= i < j < |s| ==> id(s[i]) != id(s[j])
  }

  /** Ranking a table whose rows have distinct ids leaves the ids distinct. */
  lemma RankingKeepsIdsDistinct<T>(rows: seq<T>, out: seq<T>, id: T -> string)
    requires multiset(out) == multiset(rows)
    requires IdsDistinct(rows, id)
    ensures IdsDistinct(out, id)
  {
    forall i, j | 0 <= i < j < |out| ensures id(out[i]) != id(out[j]) {
      assert out[i] in multiset(rows) && out[j] in multiset(rows);
      var a :| 0 <= a < |rows| && rows[a] == out[i];
      var b :| 0 <= b < |rows| && rows[b] == out[j];
      if a == b {
        TwiceCounted(out, i, j);
        OnlyOnce(rows, id, a);
        assert false;
      }
    }
  }

  /** A value at two positions is counted at least twice. */
  lemma TwiceCounted<T>(s: seq<T>, i: nat, j: nat)
    requires i < j < |s| && s[i] == s[j]
    ensures multiset(s)[s[i]] >= 2
  {
    assert s == s[..j] + [s[j]] + s[j + 1..];
    assert s[..j][i] == s[i];
  }

  /** An element whose id no other element has occurs once. */
  lemma {:induction false} OnlyOnce<T>(s: seq<T>, id: T -> string, a: nat)
    requires a < |s|
    requires IdsDistinct(s, id)
    ensures multiset(s)[s[a]] == 1
  {
    var before := s[..a];
    var after := s[a + 1..];
    assert s == before + [s[a]] + after;
    forall x | 0 <= x < |before| ensures before[x] != s[a] {
      assert before[x] == s[x];
    }
    forall y | 0 <= y < |after| ensures after[y] != s[a] {
      assert after[y] == s[a + 1 + y];
    }
    assert s[a] !in before && s[a] !in after;
    assert multiset(s) == multiset(before) + multiset{s[a]} + multiset(after);
  }
}
