/** Sequences of indices below a bound, and the slots of a ring. */
module Indices {

  predicate Ids(n: nat, ids: seq<nat>) { forall i :: 0 <= i < |ids| ==> ids[i] < n }

  ghost predicate Distinct(ids: seq<nat>) { forall i, j :: 0 <= i < j < |ids| ==> ids[i] != ids[j] }

  // Different indices below n.
  ghost predicate Members(n: nat, ids: seq<nat>) { Ids(n, ids) && Distinct(ids) }

  lemma {:induction false} MembersFit(n: nat, ids: seq<nat>)
    requires Members(n, ids)
    ensures |ids| <= n
  {
    if ids == [] {
    } else if i :| 0 <= i < |ids| && ids[i] == n - 1 {
      MembersFit(n - 1, ids[..i] + ids[i + 1..]);
    } else {
      assert ids[0] < n;
      MembersFit(n - 1, ids);
    }
  }

  // As many different indices as there are leave none out.
  lemma MembersAll(n: nat, ids: seq<nat>, o: nat)
    requires Members(n, ids) && |ids| >= n && o < n
    ensures o in ids
  {
    if o !in ids {
      MembersFit(n, ids + [o]);
    }
  }

  function Iota(n: nat): (r: seq<nat>)
    ensures |r| == n && forall i :: 0 <= i < n ==> r[i] == i
  {
    seq(n, i => i)
  }

  // The k-th slot of a ring of n, counting from hd.
  function Slot(n: nat, hd: nat, k: nat): (r: nat)
    requires hd < n && k <= n
    ensures r < n
  {
    if hd + k < n then hd + k else hd + k - n
  }
}
