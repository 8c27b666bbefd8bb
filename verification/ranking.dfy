/** Python's `sorted`, in the two ways the pages call it: playlists ranked by
    score from high to low (a stable sort, so equal scores keep the order in
    which the playlists were declared), and plain strings in ascending
    code-point order. */
module Ranking {

  // ---------- sorted(scores.items(), key=score, reverse=True) ----------

  /** Positions into a score table, all in range. */
  predicate InRange(score: seq<int>, s: seq<nat>) {
    forall i :: 0 <= i < |s| ==> s[i] < |score|
  }

  /** Position `a` comes before position `b` in a stable descending ranking:
      a higher score first, and on equal scores the earlier position first. */
  predicate Before(score: seq<int>, a: nat, b: nat)
    requires a < |score| && b < |score|
  {
    score[a] > score[b] || (score[a] == score[b] && a < b)
  }

  predicate RankedOrder(score: seq<int>, s: seq<nat>)
    requires InRange(score, s)
  {
    forall i, j :: 0 <= i < j < |s| ==> Before(score, s[i], s[j])
  }

  predicate Increasing(s: seq<nat>) {
    forall i, j :: 0 <= i < j < |s| ==> s[i] < s[j]
  }

  /** The positions 0, 1, ..., n - 1, as `dict.items()` lists them. */
  function Range(n: nat): (r: seq<nat>)
    ensures |r| == n && Increasing(r)
    ensures forall i :: 0 <= i < n ==> r[i] == i
  {
    seq(n, i requires 0 <= i < n => i)
  }

  lemma InsertCons(score: seq<int>, p: nat, s: seq<nat>, rest: seq<nat>)
    requires p < |score| && s != [] && InRange(score, s) && RankedOrder(score, s)
    requires (forall i :: 0 <= i < |s| ==> s[i] < p) && score[s[0]] >= score[p]
    requires InRange(score, rest) && RankedOrder(score, rest)
    requires multiset(rest) == multiset(s[1..]) + multiset{p}
    ensures InRange(score, [s[0]] + rest) && RankedOrder(score, [s[0]] + rest)
    ensures multiset([s[0]] + rest) == multiset(s) + multiset{p}
  {
    forall j | 0 <= j < |rest| ensures Before(score, s[0], rest[j]) {
      assert rest[j] in multiset(s[1..]) + multiset{p};
      if rest[j] != p {
        assert rest[j] in s[1..];
      }
    }
    assert s == [s[0]] + s[1..];
  }

  /** Inserts position `p`, which comes after every position already
      ranked, behind every entry whose score is at least its own. */
  function Insert(score: seq<int>, p: nat, s: seq<nat>): (r: seq<nat>)
    requires p < |score| && InRange(score, s) && RankedOrder(score, s)
    requires forall i :: 0 <= i < |s| ==> s[i] < p
    ensures InRange(score, r) && RankedOrder(score, r)
    ensures multiset(r) == multiset(s) + multiset{p}
  {
    if s == [] then [p]
    else if score[s[0]] >= score[p] then
      var rest := Insert(score, p, s[1..]);
      InsertCons(score, p, s, rest);
      [s[0]] + rest
    else [p] + s
  }

  /** The positions before the last, in any order, are all below it. */
  lemma BelowLast(s: seq<nat>, rest: seq<nat>)
    requires Increasing(s) && s != [] && multiset(rest) == multiset(s[..|s| - 1])
    ensures forall i :: 0 <= i < |rest| ==> rest[i] < s[|s| - 1]
    ensures multiset(s) == multiset(s[..|s| - 1]) + multiset{s[|s| - 1]}
  {
    forall i | 0 <= i < |rest| ensures rest[i] < s[|s| - 1] {
      assert rest[i] in multiset(s[..|s| - 1]);
    }
    assert s == s[..|s| - 1] + [s[|s| - 1]];
  }

  /** Insertion sort of the positions `s` (given in increasing order):
      the result is a permutation of `s` in which every entry comes
      `Before` every later one, that is scores never increase and equal
      scores keep their original order. */
  function SortDesc(score: seq<int>, s: seq<nat>): (r: seq<nat>)
    requires InRange(score, s) && Increasing(s)
    ensures InRange(score, r) && RankedOrder(score, r)
    ensures multiset(r) == multiset(s)
  {
    if s == [] then []
    else
      var init := s[..|s| - 1];
      var rest := SortDesc(score, init);
      BelowLast(s, rest);
      Insert(score, s[|s| - 1], rest)
  }

  /** A position scoring no higher than any already ranked goes last. */
  lemma {:induction false} InsertLast(score: seq<int>, p: nat, s: seq<nat>)
    requires p < |score| && InRange(score, s) && RankedOrder(score, s)
    requires forall i :: 0 <= i < |s| ==> s[i] < p && score[s[i]] >= score[p]
    ensures Insert(score, p, s) == s + [p]
  {
    if s != [] {
      InsertLast(score, p, s[1..]);
      assert s == [s[0]] + s[1..];
    }
  }

  lemma SortDescSnoc(score: seq<int>, init: seq<nat>, last: nat)
    requires InRange(score, init + [last]) && Increasing(init + [last])
    requires InRange(score, init) && Increasing(init) && RankedOrder(score, init)
    requires SortDesc(score, init) == init
    requires last < |score| && forall i :: 0 <= i < |init| ==> init[i] < last
    ensures SortDesc(score, init + [last]) == Insert(score, last, init)
  {
    assert (init + [last])[..|init|] == init;
  }

  /** Sorting positions that are already in ranked order changes nothing:
      the sort is stable. */
  lemma {:induction false} SortDescRanked(score: seq<int>, s: seq<nat>)
    requires InRange(score, s) && Increasing(s) && RankedOrder(score, s)
    ensures SortDesc(score, s) == s
  {
    if s != [] {
      var init, last := s[..|s| - 1], s[|s| - 1];
      assert s == init + [last];
      assert InRange(score, init) && Increasing(init) && RankedOrder(score, init);
      SortDescRanked(score, init);
      assert forall i :: 0 <= i < |init| ==> init[i] < last && score[init[i]] >= score[last] by {
        forall i | 0 <= i < |init| ensures init[i] < last && score[init[i]] >= score[last] {
          assert init[i] == s[i];
          assert Before(score, s[i], s[|s| - 1]);
        }
      }
      InsertLast(score, last, init);
      SortDescSnoc(score, init, last);
    }
  }

  /** In a ranking of all the positions of `score`, the positions are
      distinct and each of the first `k` comes `Before` every position not
      among them. */
  lemma RankedPrefix(score: seq<int>, ranked: seq<nat>, k: nat)
    requires InRange(score, ranked) && RankedOrder(score, ranked)
    requires multiset(ranked) == multiset(Range(|score|)) && k <= |ranked|
    ensures |ranked| == |score|
    ensures forall i, j :: 0 <= i < j < |ranked| ==> ranked[i] != ranked[j]
    ensures forall i, n :: 0 <= i < k && 0 <= n < |score| && n !in ranked[..k] ==> Before(score, ranked[i], n)
  {
    assert |multiset(ranked)| == |multiset(Range(|score|))|;
    forall i, n | 0 <= i < k && 0 <= n < |score| && n !in ranked[..k]
      ensures Before(score, ranked[i], n)
    {
      assert Range(|score|)[n] == n;
      assert n in multiset(ranked);
      var j :| 0 <= j < |ranked| && ranked[j] == n;
      assert j >= k;
    }
  }

  // ---------- sorted(keys) on strings ----------

  /** Python's `<` on strings: code point by code point, a proper prefix
      first. */
  predicate LexLess(a: string, b: string)
    decreases |a|
  {
    b != [] && (a == [] || a[0] < b[0] || (a[0] == b[0] && LexLess(a[1..], b[1..])))
  }

  lemma {:induction false} LexLessTransitive(a: string, b: string, c: string)
    requires LexLess(a, b) && LexLess(b, c)
    ensures LexLess(a, c)
  {
    if a != [] && a[0] == b[0] && b[0] == c[0] {
      LexLessTransitive(a[1..], b[1..], c[1..]);
    }
  }

  lemma {:induction false} LexLessTotal(a: string, b: string)
    requires a != b
    ensures LexLess(a, b) || LexLess(b, a)
  {
    if a != [] && b != [] && a[0] == b[0] {
      assert a == [a[0]] + a[1..] && b == [b[0]] + b[1..];
      LexLessTotal(a[1..], b[1..]);
    }
  }

  predicate StrictlyAscending(s: seq<string>) {
    forall i, j :: 0 <= i < j < |s| ==> LexLess(s[i], s[j])
  }

  predicate Distinct<T(==)>(s: seq<T>) {
    forall i, j :: 0 <= i < j < |s| ==> s[i] != s[j]
  }

  lemma InsertStringCons(x: string, s: seq<string>, rest: seq<string>)
    requires StrictlyAscending(s) && s != [] && LexLess(s[0], x)
    requires StrictlyAscending(rest) && multiset(rest) == multiset(s[1..]) + multiset{x}
    ensures StrictlyAscending([s[0]] + rest)
    ensures multiset([s[0]] + rest) == multiset(s) + multiset{x}
  {
    forall j | 0 <= j < |rest| ensures LexLess(s[0], rest[j]) {
      assert rest[j] in multiset(s[1..]) + multiset{x};
      if rest[j] != x {
        assert rest[j] in s[1..];
      }
    }
    assert s == [s[0]] + s[1..];
  }

  function InsertString(x: string, s: seq<string>): (r: seq<string>)
    requires StrictlyAscending(s) && x !in s
    ensures StrictlyAscending(r)
    ensures multiset(r) == multiset(s) + multiset{x}
  {
    if s == [] then [x]
    else if LexLess(x, s[0]) then
      assert forall j :: 0 < j < |s| ==> LexLess(x, s[j]) by {
        forall j | 0 < j < |s| ensures LexLess(x, s[j]) {
          LexLessTransitive(x, s[0], s[j]);
        }
      }
      [x] + s
    else
      LexLessTotal(x, s[0]);
      var rest := InsertString(x, s[1..]);
      InsertStringCons(x, s, rest);
      [s[0]] + rest
  }

  /** `sorted(keys)` for distinct keys: a permutation in strictly ascending
      order. */
  function SortStrings(s: seq<string>): (r: seq<string>)
    requires Distinct(s)
    ensures StrictlyAscending(r)
    ensures multiset(r) == multiset(s)
  {
    if s == [] then []
    else
      var init := s[..|s| - 1];
      var rest := SortStrings(init);
      assert s == init + [s[|s| - 1]];
      assert s[|s| - 1] !in init;
      assert s[|s| - 1] !in multiset(rest);
      InsertString(s[|s| - 1], rest)
  }
}
