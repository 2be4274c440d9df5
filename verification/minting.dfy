/**
 * The uid minting of the save handler (server/internal/controller/portfolio.go):
 * every project sent without a uid gets a fresh one from the uuid source and is
 * attached to the portfolio being saved. The uuid source is an oracle numbered by
 * draw: `uuid(k)` is the k-th uuid the request draws.
 */
module Minting {
  import opened Entities

  /** How many of the projects arrive without a uid. */
  function Blanks(ps: seq<Project>): (n: nat)
    ensures n <= |ps|
    decreases |ps|
  {
    if |ps| == 0 then 0
    else
      var n := |ps| - 1;
      Blanks(ps[..n]) + (if ps[n].uid == "" then 1 else 0)
  }

  /**
   * The projects after the handler's uid loop: a project with a uid is left as it
   * came; a project without one gets the next fresh uid, counting draws from `next`,
   * and is attached to the portfolio `puid`.
   */
  function MintProjects(ps: seq<Project>, puid: string, uuid: nat -> string, next: nat): (r: seq<Project>)
    ensures |r| == |ps|
    decreases |ps|
  {
    if |ps| == 0 then []
    else
      var n := |ps| - 1;
      var last := if ps[n].uid == "" then ps[n].(uid := uuid(next + Blanks(ps[..n])), portfolioUid := puid) else ps[n];
      MintProjects(ps[..n], puid, uuid, next) + [last]
  }

  /**
   * Position `i` of the minted list: the project as sent when it has a uid,
   * otherwise the project with the draw that follows the blanks before it.
   */
  lemma {:induction false} MintAt(ps: seq<Project>, puid: string, uuid: nat -> string, next: nat, i: nat)
    requires i < |ps|
    ensures ps[i].uid != "" ==> MintProjects(ps, puid, uuid, next)[i] == ps[i]
    ensures ps[i].uid == "" ==>
      MintProjects(ps, puid, uuid, next)[i] == ps[i].(uid := uuid(next + Blanks(ps[..i])), portfolioUid := puid)
    decreases |ps|
  {
    var n := |ps| - 1;
    if i < n {
      MintAt(ps[..n], puid, uuid, next, i);
      assert ps[..n][..i] == ps[..i];
    }
  }

  /**
   * The loop of the handler, drawing one uid per project without one. The handler
   * rewrites the list in place; here the rewritten prefix is built up instead.
   */
  method MintLoop(ps: seq<Project>, puid: string, uuid: nat -> string, next: nat) returns (out: seq<Project>, drawn: nat)
    ensures out == MintProjects(ps, puid, uuid, next)
    ensures drawn == next + Blanks(ps)
  {
    out := [];
    drawn := next;
    var i := 0;
    while i < |ps|
      invariant 0 <= i <= |ps|
      invariant drawn == next + Blanks(ps[..i])
      invariant out == MintProjects(ps[..i], puid, uuid, next)
    {
      MintSnoc(ps, puid, uuid, next, i);
      var p := ps[i];
      if p.uid == "" {
        p := p.(uid := uuid(drawn), portfolioUid := puid);
        drawn := drawn + 1;
      }
      out := out + [p];
      i := i + 1;
    }
    assert ps[..|ps|] == ps;
  }

  /**
   * One more project extends the minted list by that project, minted with the
   * draws before it, and adds one to the count exactly when it has no uid.
   */
  lemma MintSnoc(ps: seq<Project>, puid: string, uuid: nat -> string, next: nat, i: nat)
    requires i < |ps|
    ensures var last := if ps[i].uid == "" then ps[i].(uid := uuid(next + Blanks(ps[..i])), portfolioUid := puid) else ps[i];
      MintProjects(ps[..i + 1], puid, uuid, next) == MintProjects(ps[..i], puid, uuid, next) + [last]
    ensures Blanks(ps[..i + 1]) == Blanks(ps[..i]) + (if ps[i].uid == "" then 1 else 0)
  {
    assert ps[..i + 1][..i] == ps[..i];
  }

  /** Blank projects earlier in the list have drawn strictly fewer uids before them. */
  lemma {:induction false} BlanksBefore(ps: seq<Project>, i: nat, j: nat)
    requires i < j <= |ps| && ps[i].uid == ""
    ensures Blanks(ps[..i]) < Blanks(ps[..j])
    decreases j
  {
    assert ps[..j][..j - 1] == ps[..j - 1];
    if j > i + 1 {
      BlanksBefore(ps, i, j - 1);
    }
  }

  /**
   * With an injective uuid source, the minted project uids differ from each other
   * and from every draw made before the loop (the portfolio's own uid).
   */
  lemma MintedUidsAreFresh(ps: seq<Project>, puid: string, uuid: nat -> string, next: nat)
    requires forall a: nat, b: nat :: a != b ==> uuid(a) != uuid(b)
    ensures var r := MintProjects(ps, puid, uuid, next);
      (forall i, j :: 0 <= i < j < |ps| && ps[i].uid == "" && ps[j].uid == "" ==> r[i].uid != r[j].uid) &&
      (forall i, k: nat :: 0 <= i < |ps| && ps[i].uid == "" && k < next ==> r[i].uid != uuid(k))
  {
    var r := MintProjects(ps, puid, uuid, next);
    forall i, j | 0 <= i < j < |ps| && ps[i].uid == "" && ps[j].uid == ""
      ensures r[i].uid != r[j].uid
    {
      BlanksBefore(ps, i, j);
      MintAt(ps, puid, uuid, next, i);
      MintAt(ps, puid, uuid, next, j);
    }
    forall i, k: nat | 0 <= i < |ps| && ps[i].uid == "" && k < next
      ensures r[i].uid != uuid(k)
    {
      MintAt(ps, puid, uuid, next, i);
    }
  }
}
