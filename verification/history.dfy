/**
 * The templates a user has built portfolios from (controller/portfolio.go,
 * `GetHistoricalUsageTemplates`): one entry per template uid, taken from the first
 * portfolio that uses it, in portfolio order.
 */
module History {
  import opened Entities

  /** Portfolio `i` is the first of `ps` with its template uid. */
  predicate FirstUse(ps: seq<Portfolio>, i: nat)
    requires i < |ps|
  {
    forall j :: 0 <= j < i ==> ps[j].templateUid != ps[i].templateUid
  }

  /**
   * The positions of the first uses, ascending: exactly the portfolios that are the
   * first with their template uid.
   */
  function FirstUses(ps: seq<Portfolio>): (r: seq<nat>)
    ensures forall k :: 0 <= k < |r| ==> r[k] < |ps| && FirstUse(ps, r[k])
    ensures forall i :: 0 <= i < |ps| && FirstUse(ps, i) ==> i in r
    ensures forall k, l :: 0 <= k < l < |r| ==> r[k] < r[l]
    decreases |ps|
  {
    if |ps| == 0 then []
    else
      var n := |ps| - 1;
      var init := ps[..n];
      var front := FirstUses(init);
      assert forall i :: 0 <= i < n ==> (FirstUse(init, i) <==> FirstUse(ps, i)) by {
        forall i | 0 <= i < n ensures FirstUse(init, i) <==> FirstUse(ps, i) {
          assert forall j :: 0 <= j <= i ==> init[j] == ps[j];
        }
      }
      front + (if FirstUse(ps, n) then [n] else [])
  }

  /** The historical templates: the template of each first use, in order. */
  function Historical(ps: seq<Portfolio>): (r: seq<Template>)
    ensures |r| == |FirstUses(ps)| <= |ps|
    ensures forall k :: 0 <= k < |r| ==> r[k] == ps[FirstUses(ps)[k]].template
  {
    var idx := FirstUses(ps);
    IncreasingIsShort(idx, |ps|);
    seq(|idx|, k requires 0 <= k < |idx| => ps[idx[k]].template)
  }

  /** A strictly increasing list of positions below `n` has at most `n` entries. */
  lemma {:induction false} IncreasingIsShort(idx: seq<nat>, n: nat)
    requires forall k :: 0 <= k < |idx| ==> idx[k] < n
    requires forall k, l :: 0 <= k < l < |idx| ==> idx[k] < idx[l]
    ensures |idx| <= n
    decreases n
  {
    if |idx| > 0 {
      var m := idx[|idx| - 1];
      var init := idx[..|idx| - 1];
      assert forall k :: 0 <= k < |init| ==> init[k] < m;
      IncreasingIsShort(init, m);
    }
  }

  /** No template uid is listed twice. */
  lemma HistoricalDistinct(ps: seq<Portfolio>)
    ensures var idx := FirstUses(ps);
      forall k, l :: 0 <= k < l < |idx| ==> ps[idx[k]].templateUid != ps[idx[l]].templateUid
  {
  }

  /**
   * Every template uid the user has used is listed, at position `k`, which is the
   * position of its first use.
   */
  lemma HistoricalCovers(ps: seq<Portfolio>, i: nat) returns (k: nat)
    requires i < |ps|
    ensures k < |FirstUses(ps)|
    ensures ps[FirstUses(ps)[k]].templateUid == ps[i].templateUid && FirstUses(ps)[k] <= i
  {
    var idx := FirstUses(ps);
    var f := FirstOf(ps, i);
    assert f in idx;
    k :| 0 <= k < |idx| && idx[k] == f;
  }

  /** The first portfolio sharing portfolio `i`'s template uid. */
  function FirstOf(ps: seq<Portfolio>, i: nat): (f: nat)
    requires i < |ps|
    ensures f <= i && ps[f].templateUid == ps[i].templateUid && FirstUse(ps, f)
    decreases i
  {
    if FirstUse(ps, i) then i
    else
      var j :| 0 <= j < i && ps[j].templateUid == ps[i].templateUid;
      FirstOf(ps, j)
  }

  /** The loop with a `seen` set that the handler runs; it builds exactly Historical. */
  method CollectHistorical(ps: seq<Portfolio>) returns (templates: seq<Template>)
    ensures templates == Historical(ps)
  {
    templates := [];
    var seen: set<string> := {};
    var i := 0;
    while i < |ps|
      invariant 0 <= i <= |ps|
      invariant seen == set j | 0 <= j < i :: ps[j].templateUid
      invariant templates == Historical(ps[..i])
    {
      var p := ps[i];
      HistoricalSnoc(ps, i);
      if p.templateUid !in seen {
        templates := templates + [p.template];
        seen := seen + {p.templateUid};
      }
      i := i + 1;
    }
    assert ps[..|ps|] == ps;
  }

  /** One more portfolio adds its template exactly when its uid is new. */
  lemma HistoricalSnoc(ps: seq<Portfolio>, i: nat)
    requires i < |ps|
    ensures Historical(ps[..i + 1]) == Historical(ps[..i]) +
      (if ps[i].templateUid in (set j | 0 <= j < i :: ps[j].templateUid) then [] else [ps[i].template])
  {
    var a := ps[..i + 1];
    assert a[..i] == ps[..i];
    assert FirstUse(a, i) <==> ps[i].templateUid !in (set j | 0 <= j < i :: ps[j].templateUid) by {
      if !FirstUse(a, i) {
        var j :| 0 <= j < i && a[j].templateUid == a[i].templateUid;
        assert ps[j].templateUid in (set j | 0 <= j < i :: ps[j].templateUid);
      }
    }
    var idx := FirstUses(ps[..i]);
    assert forall k :: 0 <= k < |idx| ==> a[idx[k]] == ps[..i][idx[k]];
  }

  function Uses(uid: string, title: string): Portfolio {
    Portfolio(title, "u", title, [], uid, Template(uid, "", "", []))
  }

  /** Portfolios on templates A, B, A, C, in that order. */
  function ExampleUses(): seq<Portfolio> {
    [Uses("A", "1"), Uses("B", "2"), Uses("A", "3"), Uses("C", "4")]
  }

  lemma ExamplePrefix2()
    ensures FirstUses(ExampleUses()[..2]) == [0, 1]
  {
    var a := ExampleUses()[..2];
    assert a[..1][..0] == [];
    assert FirstUse(a[..1], 0);
    assert FirstUses(a[..1]) == [0];
    assert FirstUse(a, 1);
  }

  lemma ExamplePrefix3()
    ensures FirstUses(ExampleUses()[..3]) == [0, 1]
  {
    var a := ExampleUses()[..3];
    assert a[..2] == ExampleUses()[..2];
    ExamplePrefix2();
    assert a[0].templateUid == a[2].templateUid;
  }

  /** Portfolios on templates A, B, A, C give the templates A, B, C. */
  lemma HistoricalExample()
    ensures Historical(ExampleUses())
         == [Template("A", "", "", []), Template("B", "", "", []), Template("C", "", "", [])]
  {
    var ps := ExampleUses();
    assert ps[..3] == ExampleUses()[..3];
    ExamplePrefix3();
    assert FirstUse(ps, 3);
    assert FirstUses(ps) == [0, 1, 3];
  }
}
