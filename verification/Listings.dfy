/** The blocks of a map that fall in a window, in ascending order of their numbers. */
module Listings {
  import opened Types

  function Listing(m: map<nat, Block>, lo: nat, hi: nat): seq<Block>
    decreases hi
  {
    if hi <= lo then []
    else Listing(m, lo, hi - 1) + (if hi - 1 in m then [m[hi - 1]] else [])
  }

  ghost predicate Keyed(m: map<nat, Block>) {
    forall n :: n in m ==> m[n].number == n
  }

  ghost predicate Ascending(blocks: seq<Block>) {
    forall i, j :: 0 <= i < j < |blocks| ==> blocks[i].number < blocks[j].number
  }

  lemma {:induction false} ListingMembers(m: map<nat, Block>, lo: nat, hi: nat)
    ensures forall n :: lo <= n < hi && n in m ==> m[n] in Listing(m, lo, hi)
    ensures forall b :: b in Listing(m, lo, hi) ==> exists n :: lo <= n < hi && n in m && m[n] == b
    decreases hi
  {
    if lo < hi {
      ListingMembers(m, lo, hi - 1);
    }
  }

  lemma {:induction false} ListingAscends(m: map<nat, Block>, lo: nat, hi: nat)
    requires Keyed(m)
    ensures Ascending(Listing(m, lo, hi))
    ensures forall b :: b in Listing(m, lo, hi) ==> lo <= b.number < hi && b.number in m && m[b.number] == b
    decreases hi
  {
    if lo < hi {
      ListingAscends(m, lo, hi - 1);
    }
  }

  lemma {:induction false} ListingAgrees(m: map<nat, Block>, m': map<nat, Block>, lo: nat, hi: nat)
    requires forall n :: lo <= n < hi ==> (n in m <==> n in m') && (n in m ==> m[n] == m'[n])
    ensures Listing(m, lo, hi) == Listing(m', lo, hi)
    decreases hi
  {
    if lo < hi {
      ListingAgrees(m, m', lo, hi - 1);
    }
  }

  /** The blocks that hold at least one log. */
  function WithLogs(blocks: seq<Block>): seq<Block> {
    if blocks == [] then []
    else
      var last := blocks[|blocks| - 1];
      WithLogs(blocks[..|blocks| - 1]) + (if last.logs != [] then [last] else [])
  }

  function Logged(m: map<nat, Block>): map<nat, Block> {
    map n | n in m && m[n].logs != [] :: m[n]
  }

  lemma {:induction false} WithLogsOfListing(m: map<nat, Block>, lo: nat, hi: nat)
    ensures WithLogs(Listing(m, lo, hi)) == Listing(Logged(m), lo, hi)
    decreases hi
  {
    if lo < hi {
      WithLogsOfListing(m, lo, hi - 1);
      var all := Listing(m, lo, hi);
      if hi - 1 in m {
        assert all[..|all| - 1] == Listing(m, lo, hi - 1);
      } else {
        assert all == Listing(m, lo, hi - 1);
      }
    }
  }
}
