/**
 * A Redis sorted set, kept as its entries in Redis's own order: ascending score,
 * equal scores ordered by member bytes. Scores are whole numbers here because the
 * server only ever adds 1 to them (Redis stores them as doubles, exact up to 2^53).
 */
module Ranking {
  import opened Wrappers
  import opened Strings

  datatype Entry = Entry(member: string, score: int)

  type ZSet = seq<Entry>

  /** The order Redis keeps the entries of a sorted set in. */
  predicate Before(a: Entry, b: Entry) {
    a.score < b.score || (a.score == b.score && LexLess(a.member, b.member))
  }

  lemma BeforeTransitive(a: Entry, b: Entry, c: Entry)
    requires Before(a, b) && Before(b, c)
    ensures Before(a, c)
  {
    if a.score == b.score && b.score == c.score {
      LexLessTransitive(a.member, b.member, c.member);
    }
  }

  lemma BeforeTotal(a: Entry, b: Entry)
    requires a.member != b.member
    ensures Before(a, b) || Before(b, a)
  {
    LexLessTotal(a.member, b.member);
  }

  /** Each entry precedes every later one and no member appears twice. */
  ghost predicate Sorted(z: ZSet)
    decreases |z|
  {
    |z| == 0 ||
    ((forall e :: e in z[1..] ==> Before(z[0], e) && e.member != z[0].member) && Sorted(z[1..]))
  }

  /** The pairwise reading of Sorted. */
  lemma {:induction false} SortedPairwise(z: ZSet)
    requires Sorted(z)
    ensures forall i, j :: 0 <= i < j < |z| ==> Before(z[i], z[j]) && z[i].member != z[j].member
    decreases |z|
  {
    if |z| > 0 {
      SortedPairwise(z[1..]);
      forall i, j | 0 <= i < j < |z|
        ensures Before(z[i], z[j]) && z[i].member != z[j].member
      {
        if i == 0 {
          assert z[j] in z[1..];
        } else {
          assert z[i] == z[1..][i - 1] && z[j] == z[1..][j - 1];
        }
      }
    }
  }

  ghost function Members(z: ZSet): set<string> {
    set e | e in z :: e.member
  }

  /** `ZSCORE`: the score of `m`, None when it is not a member. */
  function ScoreOf(z: ZSet, m: string): (r: Option<int>)
    ensures r.None? <==> m !in Members(z)
    ensures r.Some? ==> Entry(m, r.value) in z
    decreases |z|
  {
    if |z| == 0 then None
    else if z[0].member == m then Some(z[0].score)
    else
      assert forall e :: e in z ==> e == z[0] || e in z[1..];
      ScoreOf(z[1..], m)
  }

  /** In a well-ordered set each entry's score is what `ZSCORE` reports for its member. */
  lemma ScoreAt(z: ZSet, i: nat)
    requires Sorted(z) && i < |z|
    ensures ScoreOf(z, z[i].member) == Some(z[i].score)
  {
    SortedPairwise(z);
    var m := z[i].member;
    assert m in Members(z);
    var v := ScoreOf(z, m).value;
    var j :| 0 <= j < |z| && z[j] == Entry(m, v);
    assert j == i;
  }

  /** The score as `ZINCRBY` sees it: an absent member counts as 0. */
  function ScoreOrZero(z: ZSet, m: string): int {
    match ScoreOf(z, m)
    case Some(s) => s
    case None => 0
  }

  /** The entries other than `m`'s, in order. */
  function Remove(z: ZSet, m: string): (r: ZSet)
    ensures forall e :: e in r <==> e in z && e.member != m
    decreases |z|
  {
    if |z| == 0 then []
    else (if z[0].member == m then [] else [z[0]]) + Remove(z[1..], m)
  }

  /** Places `e` at its position in Redis order. */
  function Insert(z: ZSet, e: Entry): (r: ZSet)
    ensures |r| == |z| + 1
    ensures forall x :: x in r <==> x in z || x == e
    decreases |z|
  {
    if |z| == 0 || Before(e, z[0]) then [e] + z
    else [z[0]] + Insert(z[1..], e)
  }

  lemma {:induction false} RemoveKeepsSorted(z: ZSet, m: string)
    requires Sorted(z)
    ensures Sorted(Remove(z, m))
    decreases |z|
  {
    if |z| > 0 {
      RemoveKeepsSorted(z[1..], m);
      var tail := Remove(z[1..], m);
      if z[0].member != m {
        assert ([z[0]] + tail)[1..] == tail;
      } else {
        assert [] + tail == tail;
      }
    }
  }

  lemma {:induction false} InsertKeepsSorted(z: ZSet, e: Entry)
    requires Sorted(z)
    requires forall x :: x in z ==> x.member != e.member
    ensures Sorted(Insert(z, e))
    decreases |z|
  {
    if |z| > 0 {
      if Before(e, z[0]) {
        forall x | x in z ensures Before(e, x) {
          if x != z[0] {
            assert x in z[1..];
            BeforeTransitive(e, z[0], x);
          }
        }
        assert ([e] + z)[1..] == z;
      } else {
        BeforeTotal(e, z[0]);
        assert forall x :: x in z[1..] ==> x in z;
        InsertKeepsSorted(z[1..], e);
        assert ([z[0]] + Insert(z[1..], e))[1..] == Insert(z[1..], e);
      }
    }
  }

  lemma {:induction false} ScoreOfRemove(z: ZSet, m: string, x: string)
    ensures ScoreOf(Remove(z, m), x) == if x == m then None else ScoreOf(z, x)
    decreases |z|
  {
    if |z| > 0 {
      ScoreOfRemove(z[1..], m, x);
      if z[0].member != m {
        assert ([z[0]] + Remove(z[1..], m))[1..] == Remove(z[1..], m);
      } else {
        assert ([] + Remove(z[1..], m)) == Remove(z[1..], m);
      }
    }
  }

  lemma {:induction false} ScoreOfInsert(z: ZSet, e: Entry, x: string)
    requires forall y :: y in z ==> y.member != e.member
    ensures ScoreOf(Insert(z, e), x) == if x == e.member then Some(e.score) else ScoreOf(z, x)
    decreases |z|
  {
    if |z| > 0 && !Before(e, z[0]) {
      assert forall y :: y in z[1..] ==> y in z;
      ScoreOfInsert(z[1..], e, x);
      assert ([z[0]] + Insert(z[1..], e))[1..] == Insert(z[1..], e);
    } else if |z| > 0 {
      assert ([e] + z)[1..] == z;
    }
  }

  /**
   * `ZINCRBY key delta m`: adds `delta` to the score of `m`, creating it at `delta`
   * when absent; every other member keeps its score and the set stays in order.
   */
  function ZIncrBy(z: ZSet, m: string, delta: int): (r: ZSet)
    ensures ScoreOf(r, m) == Some(ScoreOrZero(z, m) + delta)
    ensures forall x :: x != m ==> ScoreOf(r, x) == ScoreOf(z, x)
    ensures Sorted(z) ==> Sorted(r)
  {
    var rest := Remove(z, m);
    var e := Entry(m, ScoreOrZero(z, m) + delta);
    ScoreOfRemove(z, m, m);
    assert forall x :: ScoreOf(Insert(rest, e), x) == if x == m then Some(e.score) else ScoreOf(z, x) by {
      forall x ensures ScoreOf(Insert(rest, e), x) == if x == m then Some(e.score) else ScoreOf(z, x) {
        ScoreOfInsert(rest, e, x);
        ScoreOfRemove(z, m, x);
      }
    }
    ReplaceKeepsSorted(z, m, e.score);
    Insert(rest, e)
  }

  lemma ReplaceKeepsSorted(z: ZSet, m: string, s: int)
    ensures Sorted(z) ==> Sorted(Insert(Remove(z, m), Entry(m, s)))
  {
    if Sorted(z) {
      RemoveKeepsSorted(z, m);
      InsertKeepsSorted(Remove(z, m), Entry(m, s));
    }
  }

  function Min(a: int, b: int): int {
    if a <= b then a else b
  }

  /** `ZRANGE key start stop` with non-negative indices: ranks start..stop, lowest score first. */
  function Range(z: ZSet, start: nat, stop: nat): (r: seq<string>)
    ensures |r| == if start <= stop && start < |z| then Min(stop + 1, |z|) - start else 0
    ensures forall k :: 0 <= k < |r| ==> r[k] == z[start + k].member
    ensures forall j :: start <= j < start + |r| ==> z[j].member in r
  {
    var hi := Min(stop + 1, |z|);
    if start >= hi then []
    else
      var r := seq(hi - start, k requires 0 <= k < hi - start => z[start + k].member);
      assert forall j :: start <= j < start + |r| ==> r[j - start] == z[j].member;
      r
  }

  /** `ZREVRANGE key 0 n-1`: the `n` members of highest score, highest first. */
  function Top(z: ZSet, n: nat): (r: seq<string>)
    ensures |r| == Min(n, |z|)
    ensures forall k :: 0 <= k < |r| ==> r[k] == z[|z| - 1 - k].member
    ensures forall j :: |z| - |r| <= j < |z| ==> z[j].member in r
  {
    var r := seq(Min(n, |z|), k requires 0 <= k < Min(n, |z|) => z[|z| - 1 - k].member);
    assert forall j :: |z| - |r| <= j < |z| ==> r[|z| - 1 - j] == z[j].member;
    r
  }

  /**
   * In a well-ordered set the range from rank 0 lists the lowest scores, lowest
   * first: every member it leaves out scores at least as much as every member it lists.
   */
  lemma RangeFromZeroIsColdest(z: ZSet, stop: nat)
    requires Sorted(z)
    ensures var r := Range(z, 0, stop);
      (forall k, l :: 0 <= k < l < |r| ==> z[k].score <= z[l].score) &&
      (forall k, j :: 0 <= k < |r| <= j < |z| ==> z[k].score <= z[j].score)
  {
    SortedPairwise(z);
  }

  /**
   * The top `n` come from the end of the set (listed from the last entry back, so
   * highest score first), and every member left out scores no more than every
   * member listed.
   */
  lemma TopIsHottest(z: ZSet, n: nat)
    requires Sorted(z)
    ensures var cut := |z| - |Top(z, n)|;
      (forall i, j :: cut <= i < j < |z| ==> z[i].score <= z[j].score) &&
      (forall i, j :: 0 <= j < cut <= i < |z| ==> z[j].score <= z[i].score)
  {
    SortedPairwise(z);
  }

  /**
   * The same by member: a member outside the top `n` scores no more than a member
   * inside it.
   */
  lemma TopMemberOutscores(z: ZSet, n: nat, inside: string, outside: string)
    requires Sorted(z)
    requires inside in Top(z, n) && outside !in Top(z, n) && ScoreOf(z, outside).Some?
    ensures ScoreOrZero(z, outside) <= ScoreOrZero(z, inside)
  {
    var top := Top(z, n);
    var cut := |z| - |top|;
    var k :| 0 <= k < |top| && top[k] == inside;
    var i := |z| - 1 - k;
    assert z[i].member == inside && cut <= i;
    var j :| 0 <= j < |z| && z[j] == Entry(outside, ScoreOf(z, outside).value);
    assert j < cut;
    ScoreAt(z, i);
    SortedPairwise(z);
    assert Before(z[j], z[i]);
  }

  /**
   * The same for the range from rank 0, by member: a member the range lists scores
   * no more than a ranked member it leaves out.
   */
  lemma RangeMemberUnderscores(z: ZSet, stop: nat, inside: string, outside: string)
    requires Sorted(z)
    requires inside in Range(z, 0, stop) && outside !in Range(z, 0, stop) && ScoreOf(z, outside).Some?
    ensures ScoreOrZero(z, inside) <= ScoreOrZero(z, outside)
  {
    var r := Range(z, 0, stop);
    var i :| 0 <= i < |r| && r[i] == inside;
    assert z[i].member == inside;
    var j :| 0 <= j < |z| && z[j] == Entry(outside, ScoreOf(z, outside).value);
    assert |r| <= j;
    ScoreAt(z, i);
    SortedPairwise(z);
    assert Before(z[i], z[j]);
  }
}
