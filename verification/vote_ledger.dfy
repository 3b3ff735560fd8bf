/**
 The toggle vote ledger behind both `scam_votes` and `tutorial_votes`.

 The table is seen as a finite map from a (target id, user id) pair to the
 stored `vote_type`; a map holds at most one value per key, which is the
 table's `UNIQUE(target_id, user_id)` constraint. The row-level table and the
 proof that its SQL statements implement this map are in `VoteTable`.
 */
module VoteLedger {

  /** A (target id, user id) pair. */
  type Key = (int, int)

  /** The vote table: (target, user) to `vote_type`. */
  type Ledger = map<Key, int>

  /** The string a vote call returns: "added", "removed" or "updated". */
  datatype Outcome = Added | Removed | Updated

  const Like: int := 1
  const Dislike: int := -1

  /** The two ledgers agree on every key except possibly `key`. */
  ghost predicate SameExcept(a: Ledger, b: Ledger, key: Key)
  {
    forall k :: k != key ==> (k in a <==> k in b) && (k in a && k in b ==> a[k] == b[k])
  }

  /**
   `get_user_*_vote`: the vote a user holds on a target, 0 when there is no
   row. On a ledger of likes and dislikes, 0 means exactly "no vote".
   */
  function UserVote(l: Ledger, target: int, user: int): (r: int)
    ensures r != 0 ==> (target, user) in l && l[(target, user)] == r
    ensures Polar(l) ==> (r == 0 <==> (target, user) !in l)
  {
    if (target, user) in l then l[(target, user)] else 0
  }

  /**
   One vote call: insert when there is no row, delete when the row holds the
   same polarity, overwrite when it holds another one.
   */
  function ApplyVote(l: Ledger, target: int, user: int, v: int): (r: (Ledger, Outcome))
    ensures r.1 == Added <==> (target, user) !in l
    ensures r.1 == Removed <==> (target, user) in l && l[(target, user)] == v
    ensures r.1 == Updated <==> (target, user) in l && l[(target, user)] != v
    ensures UserVote(r.0, target, user) == (if r.1 == Removed then 0 else v)
    ensures (target, user) in r.0 <==> r.1 != Removed
    ensures SameExcept(l, r.0, (target, user))
  {
    var k := (target, user);
    if k !in l then (l[k := v], Added)
    else if l[k] == v then (l - {k}, Removed)
    else (l[k := v], Updated)
  }

  /** The rows a `COUNT(*) ... WHERE target = t AND vote_type = v` sees. */
  function VotesWith(l: Ledger, target: int, v: int): set<Key>
  {
    set k | k in l && k.0 == target && l[k] == v
  }

  /** Every row on a target, whatever its value. */
  function VotesOn(l: Ledger, target: int): set<Key>
  {
    set k | k in l && k.0 == target
  }

  /**
   The number of rows on a target holding `v`: at most the target's voters,
   and 0 exactly when no voter on the target holds `v`.
   */
  function Count(l: Ledger, target: int, v: int): (r: nat)
    ensures r <= |VotesOn(l, target)|
    ensures r == 0 <==> forall k :: k in l && k.0 == target ==> l[k] != v
  {
    var counted := VotesWith(l, target, v);
    var all := VotesOn(l, target);
    assert all == counted + (all - counted);
    assert forall k :: k in l && k.0 == target && l[k] == v ==> k in counted;
    |counted|
  }

  /**
   `get_*_likes_count`: rows on the target with `vote_type = 1`. Likes and
   dislikes are disjoint rows, so together they never exceed the voters.
   */
  function Likes(l: Ledger, target: int): (r: nat)
    ensures r == 0 <==> forall k :: k in l && k.0 == target ==> l[k] != Like
    ensures r + Dislikes(l, target) <= |VotesOn(l, target)|
  {
    var likes := VotesWith(l, target, Like);
    var dislikes := VotesWith(l, target, Dislike);
    var all := VotesOn(l, target);
    assert likes * dislikes == {};
    assert all == (likes + dislikes) + (all - (likes + dislikes));
    Count(l, target, Like)
  }

  /** `get_*_dislikes_count`: rows on the target with `vote_type = -1`. */
  function Dislikes(l: Ledger, target: int): (r: nat)
    ensures r == 0 <==> forall k :: k in l && k.0 == target ==> l[k] != Dislike
    ensures r <= |VotesOn(l, target)|
  {
    Count(l, target, Dislike)
  }

  /** Every stored vote is a like or a dislike. */
  ghost predicate Polar(l: Ledger)
  {
    forall k :: k in l ==> l[k] == Like || l[k] == Dislike
  }

  /** `DELETE FROM ..._votes WHERE target_id = t`. */
  function ClearTarget(l: Ledger, target: int): (r: Ledger)
    ensures forall k :: k in r <==> k in l && k.0 != target
    ensures forall k :: k in r ==> r[k] == l[k]
  {
    map k | k in l && k.0 != target :: l[k]
  }

  // ---------------------------------------------------------------------
  // How a single-key change moves the counts.

  /** The rows counted after writing one key: the old ones minus that key, plus it when it now matches. */
  lemma VotesWithAfterSet(l: Ledger, k: Key, v: int, x: int)
    ensures VotesWith(l[k := v], k.0, x) == (VotesWith(l, k.0, x) - {k}) + (if v == x then {k} else {})
  {
  }

  /** Writing one key adds it to its target's voters. */
  lemma VotesOnAfterSet(l: Ledger, k: Key, v: int)
    ensures VotesOn(l[k := v], k.0) == VotesOn(l, k.0) + {k}
  {
  }

  /** Deleting one key takes it out of its target's voters. */
  lemma VotesOnAfterRemove(l: Ledger, k: Key)
    ensures VotesOn(l - {k}, k.0) == VotesOn(l, k.0) - {k}
  {
  }

  /** Writing one key moves its target's count for `x` by the old and new values. */
  lemma CountSet(l: Ledger, k: Key, v: int, x: int)
    ensures Count(l[k := v], k.0, x)
         == Count(l, k.0, x) - (if k in l && l[k] == x then 1 else 0) + (if v == x then 1 else 0)
  {
    VotesWithAfterSet(l, k, v, x);
    var before := VotesWith(l, k.0, x);
    var rest := before - {k};
    assert |rest| == |before| - (if k in before then 1 else 0);
    assert k in before <==> k in l && l[k] == x;
  }

  /** Deleting one key lowers its target's count for `x` by the old value only. */
  lemma CountRemove(l: Ledger, k: Key, x: int)
    ensures Count(l - {k}, k.0, x) == Count(l, k.0, x) - (if k in l && l[k] == x then 1 else 0)
  {
    var before := VotesWith(l, k.0, x);
    var after := VotesWith(l - {k}, k.0, x);
    assert after == before - {k};
    if k in l && l[k] == x {
      assert before == after + {k};
    }
  }

  /** A change to one target's key does not move another target's counts. */
  lemma CountOtherTarget(l: Ledger, l': Ledger, k: Key, t: int, x: int)
    requires k.0 != t
    requires SameExcept(l, l', k)
    ensures Count(l', t, x) == Count(l, t, x)
    ensures VotesOn(l', t) == VotesOn(l, t)
  {
    assert VotesWith(l', t, x) == VotesWith(l, t, x);
  }

  // ---------------------------------------------------------------------
  // Properties of one vote call.

  /** A first vote is recorded and reads back as the value voted. */
  lemma FirstVoteReadsBack(l: Ledger, t: int, u: int, v: int)
    requires (t, u) !in l
    ensures ApplyVote(l, t, u, v) == (l[(t, u) := v], Added)
    ensures UserVote(ApplyVote(l, t, u, v).0, t, u) == v
  {
  }

  /** The count for the polarity voted rises by one and no other count moves. */
  lemma {:induction false} AddedCounts(l: Ledger, t: int, u: int, v: int, x: int)
    requires (t, u) !in l
    ensures Count(ApplyVote(l, t, u, v).0, t, x) == Count(l, t, x) + (if x == v then 1 else 0)
    ensures |VotesOn(ApplyVote(l, t, u, v).0, t)| == |VotesOn(l, t)| + 1
  {
    assert ApplyVote(l, t, u, v).0 == l[(t, u) := v];
    CountSet(l, (t, u), v, x);
    VotesOnAfterSet(l, (t, u), v);
  }

  /** Repeating a vote deletes it: the count for that polarity falls by one. */
  lemma {:induction false} RemovedCounts(l: Ledger, t: int, u: int, v: int, x: int)
    requires (t, u) in l && l[(t, u)] == v
    ensures ApplyVote(l, t, u, v).1 == Removed
    ensures Count(ApplyVote(l, t, u, v).0, t, x) == Count(l, t, x) - (if x == v then 1 else 0)
    ensures |VotesOn(ApplyVote(l, t, u, v).0, t)| == |VotesOn(l, t)| - 1
  {
    assert ApplyVote(l, t, u, v).0 == l - {(t, u)};
    CountRemove(l, (t, u), x);
    VotesOnAfterRemove(l, (t, u));
  }

  /**
   Switching polarity keeps the number of rows on the target and moves the
   old polarity's count down by one and the new one's up by one.
   */
  lemma {:induction false} UpdatedCounts(l: Ledger, t: int, u: int, v: int, x: int)
    requires (t, u) in l && l[(t, u)] != v
    ensures ApplyVote(l, t, u, v).1 == Updated
    ensures Count(ApplyVote(l, t, u, v).0, t, x)
         == Count(l, t, x) - (if x == l[(t, u)] then 1 else 0) + (if x == v then 1 else 0)
    ensures VotesOn(ApplyVote(l, t, u, v).0, t) == VotesOn(l, t)
  {
    assert ApplyVote(l, t, u, v).0 == l[(t, u) := v];
    CountSet(l, (t, u), v, x);
    VotesOnAfterSet(l, (t, u), v);
  }

  /** Flipping a like to a dislike (or back) moves each count by exactly one. */
  lemma {:induction false} FlipMovesBothCounts(l: Ledger, t: int, u: int, v: int)
    requires v == Like || v == Dislike
    requires (t, u) in l && l[(t, u)] == -v
    ensures Count(ApplyVote(l, t, u, v).0, t, v) == Count(l, t, v) + 1
    ensures Count(ApplyVote(l, t, u, v).0, t, -v) == Count(l, t, -v) - 1
    ensures Likes(ApplyVote(l, t, u, v).0, t) + Dislikes(ApplyVote(l, t, u, v).0, t)
         == Likes(l, t) + Dislikes(l, t)
  {
    UpdatedCounts(l, t, u, v, v);
    UpdatedCounts(l, t, u, v, -v);
  }

  /** A vote on one target leaves every other target's counts unchanged. */
  lemma {:induction false} OtherTargetsUnchanged(l: Ledger, t: int, u: int, v: int, t': int, x: int)
    requires t' != t
    ensures Count(ApplyVote(l, t, u, v).0, t', x) == Count(l, t', x)
    ensures VotesOn(ApplyVote(l, t, u, v).0, t') == VotesOn(l, t')
  {
    CountOtherTarget(l, ApplyVote(l, t, u, v).0, (t, u), t', x);
  }

  /** Casting a like or a dislike keeps a ledger of likes and dislikes. */
  lemma ApplyVoteKeepsPolar(l: Ledger, t: int, u: int, v: int)
    requires Polar(l)
    requires v == Like || v == Dislike
    ensures Polar(ApplyVote(l, t, u, v).0)
  {
  }

  // ---------------------------------------------------------------------
  // Round trips.

  /** Voting the same polarity twice from no vote restores the ledger. */
  lemma ToggleTwiceRestores(l: Ledger, t: int, u: int, v: int)
    requires (t, u) !in l
    ensures ApplyVote(ApplyVote(l, t, u, v).0, t, u, v) == (l, Removed)
  {
    assert l[(t, u) := v] - {(t, u)} == l;
  }

  /** Switching to another polarity and back restores the ledger. */
  lemma SwitchBackRestores(l: Ledger, t: int, u: int, v: int)
    requires (t, u) in l && l[(t, u)] != v
    ensures ApplyVote(ApplyVote(l, t, u, v).0, t, u, l[(t, u)]) == (l, Updated)
  {
    assert l[(t, u) := v][(t, u) := l[(t, u)]] == l;
  }

  /** Undoing a removal: voting again after a removal reinstates the vote. */
  lemma RevoteAfterRemoveRestores(l: Ledger, t: int, u: int, v: int)
    requires (t, u) in l && l[(t, u)] == v
    ensures ApplyVote(ApplyVote(l, t, u, v).0, t, u, v) == (l, Added)
  {
    assert (l - {(t, u)})[(t, u) := v] == l;
  }

  // ---------------------------------------------------------------------
  // Aggregates.

  /** On a ledger of likes and dislikes, the two counts add up to the voters. */
  lemma {:induction false} LikesPlusDislikes(l: Ledger, t: int)
    requires Polar(l)
    ensures Likes(l, t) + Dislikes(l, t) == |VotesOn(l, t)|
  {
    var likes := VotesWith(l, t, Like);
    var dislikes := VotesWith(l, t, Dislike);
    assert likes * dislikes == {};
    assert VotesOn(l, t) == likes + dislikes;
  }

  /** After clearing a target no user holds a vote on it and its counts are 0. */
  lemma ClearTargetEmpties(l: Ledger, t: int, x: int, u: int)
    ensures Count(ClearTarget(l, t), t, x) == 0
    ensures UserVote(ClearTarget(l, t), t, u) == 0
    ensures VotesOn(ClearTarget(l, t), t) == {}
  {
  }

  /** Clearing a target leaves every other target's counts and votes as they were. */
  lemma {:induction false} ClearTargetKeepsOthers(l: Ledger, t: int, t': int, x: int, u: int)
    requires t' != t
    ensures Count(ClearTarget(l, t), t', x) == Count(l, t', x)
    ensures UserVote(ClearTarget(l, t), t', u) == UserVote(l, t', u)
  {
    assert VotesWith(ClearTarget(l, t), t', x) == VotesWith(l, t', x);
  }
}
