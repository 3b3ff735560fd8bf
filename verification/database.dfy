/**
 The part of the `Database` class that votes, reads votes and removes a
 scam or a tutorial with its votes. Scam votes and tutorial votes live in two
 separate ledgers and follow the same rule, `VoteLedger.ApplyVote`.
 */
module Database {
  import opened Wrappers
  import opened VoteLedger

  /** A row of `comments`; the serial id and timestamp are left out. */
  datatype Comment = Comment(scamId: int, userId: int, text: string)

  /** The tables the vote and delete operations touch, with the ids of existing users, scams and tutorials. */
  datatype Db = Db(
    users: set<int>,
    scams: set<int>,
    tutorials: set<int>,
    scamVotes: Ledger,
    tutorialVotes: Ledger,
    comments: seq<Comment>)

  /** A value the `INTEGER` column type can hold. */
  predicate IsInt32(v: int)
  {
    -0x8000_0000 <= v < 0x8000_0000
  }

  /**
   The column types and foreign keys of the vote and comment tables: every
   stored vote is an `INTEGER`, and every vote and comment refers to an
   existing user and an existing scam or tutorial.
   */
  ghost predicate Consistent(db: Db)
  {
    VotesConsistent(db.scamVotes, db.scams, db.users)
    && VotesConsistent(db.tutorialVotes, db.tutorials, db.users)
    && (forall c :: c in db.comments ==> c.scamId in db.scams && c.userId in db.users)
  }

  /** One vote table's constraints: `INTEGER` values on existing targets and users. */
  ghost predicate VotesConsistent(votes: Ledger, targets: set<int>, users: set<int>)
  {
    forall k :: k in votes ==> k.0 in targets && k.1 in users && IsInt32(votes[k])
  }

  /**
   One vote call on a vote table whose target and user columns reference
   `targets` and `users` and whose `vote_type` is an `INTEGER`. Deleting an
   existing row always succeeds. The `INSERT` of a new row is rejected when
   the target or the user does not exist or the value is out of range; the
   `UPDATE` of an existing row is rejected when the value is out of range. A
   rejected statement rolls the call back, and it returns `None`.
   */
  function CastVote(votes: Ledger, targets: set<int>, users: set<int>, target: int, user: int, v: int)
    : (r: (Ledger, Option<Outcome>))
    ensures r.1.None? <==>
      ((target, user) !in votes && (target !in targets || user !in users))
      || (!IsInt32(v) && !((target, user) in votes && votes[(target, user)] == v))
    ensures r.1.None? ==> r.0 == votes
    ensures r.1.Some? ==> (r.0, r.1.value) == ApplyVote(votes, target, user, v)
  {
    var k := (target, user);
    if k !in votes && (target !in targets || user !in users || !IsInt32(v)) then (votes, None)
    else if k in votes && votes[k] != v && !IsInt32(v) then (votes, None)
    else
      var (after, outcome) := ApplyVote(votes, target, user, v);
      (after, Some(outcome))
  }

  /** `add_scam_vote`: the vote call on the scam ledger; nothing else changes. */
  function AddScamVote(db: Db, scamId: int, userId: int, v: int): (r: (Db, Option<Outcome>))
    ensures (r.0.scamVotes, r.1) == CastVote(db.scamVotes, db.scams, db.users, scamId, userId, v)
    ensures r.0.tutorialVotes == db.tutorialVotes && r.0.comments == db.comments
    ensures r.0.users == db.users && r.0.scams == db.scams && r.0.tutorials == db.tutorials
  {
    var (votes, outcome) := CastVote(db.scamVotes, db.scams, db.users, scamId, userId, v);
    (db.(scamVotes := votes), outcome)
  }

  /** `add_tutorial_vote`: the same call on the tutorial ledger; nothing else changes. */
  function AddTutorialVote(db: Db, tutorialId: int, userId: int, v: int): (r: (Db, Option<Outcome>))
    ensures (r.0.tutorialVotes, r.1) == CastVote(db.tutorialVotes, db.tutorials, db.users, tutorialId, userId, v)
    ensures r.0.scamVotes == db.scamVotes && r.0.comments == db.comments
    ensures r.0.users == db.users && r.0.scams == db.scams && r.0.tutorials == db.tutorials
  {
    var (votes, outcome) := CastVote(db.tutorialVotes, db.tutorials, db.users, tutorialId, userId, v);
    (db.(tutorialVotes := votes), outcome)
  }

  /** `get_scam_likes_count`: the scam's rows with `vote_type = 1`. */
  function GetScamLikesCount(db: Db, scamId: int): (n: nat)
    ensures n == 0 <==> forall k :: k in db.scamVotes && k.0 == scamId ==> db.scamVotes[k] != Like
    ensures n + GetScamDislikesCount(db, scamId) <= |VotesOn(db.scamVotes, scamId)|
  {
    Likes(db.scamVotes, scamId)
  }

  /** `get_scam_dislikes_count`: the scam's rows with `vote_type = -1`. */
  function GetScamDislikesCount(db: Db, scamId: int): (n: nat)
    ensures n == 0 <==> forall k :: k in db.scamVotes && k.0 == scamId ==> db.scamVotes[k] != Dislike
    ensures n <= |VotesOn(db.scamVotes, scamId)|
  {
    Dislikes(db.scamVotes, scamId)
  }

  /** `get_user_scam_vote`: the user's stored vote on the scam, or 0. */
  function GetUserScamVote(db: Db, scamId: int, userId: int): (r: int)
    ensures r != 0 ==> (scamId, userId) in db.scamVotes && db.scamVotes[(scamId, userId)] == r
    ensures Polar(db.scamVotes) ==> (r == 0 <==> (scamId, userId) !in db.scamVotes)
  {
    UserVote(db.scamVotes, scamId, userId)
  }

  /** `get_tutorial_likes_count`: the tutorial's rows with `vote_type = 1`. */
  function GetTutorialLikesCount(db: Db, tutorialId: int): (n: nat)
    ensures n == 0 <==> forall k :: k in db.tutorialVotes && k.0 == tutorialId ==> db.tutorialVotes[k] != Like
    ensures n + GetTutorialDislikesCount(db, tutorialId) <= |VotesOn(db.tutorialVotes, tutorialId)|
  {
    Likes(db.tutorialVotes, tutorialId)
  }

  /** `get_tutorial_dislikes_count`: the tutorial's rows with `vote_type = -1`. */
  function GetTutorialDislikesCount(db: Db, tutorialId: int): (n: nat)
    ensures n == 0 <==> forall k :: k in db.tutorialVotes && k.0 == tutorialId ==> db.tutorialVotes[k] != Dislike
    ensures n <= |VotesOn(db.tutorialVotes, tutorialId)|
  {
    Dislikes(db.tutorialVotes, tutorialId)
  }

  /** `get_user_tutorial_vote`: the user's stored vote on the tutorial, or 0. */
  function GetUserTutorialVote(db: Db, tutorialId: int, userId: int): (r: int)
    ensures r != 0 ==> (tutorialId, userId) in db.tutorialVotes && db.tutorialVotes[(tutorialId, userId)] == r
    ensures Polar(db.tutorialVotes) ==> (r == 0 <==> (tutorialId, userId) !in db.tutorialVotes)
  {
    UserVote(db.tutorialVotes, tutorialId, userId)
  }

  /** `DELETE FROM comments WHERE scam_id = s`: every other comment, as often as it occurred. */
  function DeleteComments(cs: seq<Comment>, scamId: int): (r: seq<Comment>)
    ensures forall c :: multiset(r)[c] == (if c.scamId == scamId then 0 else multiset(cs)[c])
    ensures forall c :: c in r <==> c in cs && c.scamId != scamId
    ensures |r| <= |cs|
  {
    if |cs| == 0 then []
    else
      assert cs == [cs[0]] + cs[1..];
      if cs[0].scamId == scamId then DeleteComments(cs[1..], scamId)
      else [cs[0]] + DeleteComments(cs[1..], scamId)
  }

  /** `delete_scam`: its comments, then its votes, then the scam itself. */
  function DeleteScam(db: Db, scamId: int): (r: Db)
    ensures scamId !in r.scams && r.scams == db.scams - {scamId}
    ensures forall c :: c in r.comments ==> c.scamId != scamId
    ensures forall c :: c in db.comments && c.scamId != scamId ==> c in r.comments
    ensures forall c :: multiset(r.comments)[c] == (if c.scamId == scamId then 0 else multiset(db.comments)[c])
    ensures forall k :: k in r.scamVotes ==> k.0 != scamId
    ensures forall k :: k in db.scamVotes && k.0 != scamId ==> k in r.scamVotes && r.scamVotes[k] == db.scamVotes[k]
    ensures r.scamVotes == ClearTarget(db.scamVotes, scamId)
    ensures r.tutorialVotes == db.tutorialVotes && r.tutorials == db.tutorials && r.users == db.users
  {
    var comments := DeleteComments(db.comments, scamId);
    var votes := ClearTarget(db.scamVotes, scamId);
    db.(comments := comments, scamVotes := votes, scams := db.scams - {scamId})
  }

  /** `delete_tutorial`: its votes, then the tutorial itself. */
  function DeleteTutorial(db: Db, tutorialId: int): (r: Db)
    ensures tutorialId !in r.tutorials && r.tutorials == db.tutorials - {tutorialId}
    ensures forall k :: k in r.tutorialVotes ==> k.0 != tutorialId
    ensures forall k :: k in db.tutorialVotes && k.0 != tutorialId ==> k in r.tutorialVotes && r.tutorialVotes[k] == db.tutorialVotes[k]
    ensures r.tutorialVotes == ClearTarget(db.tutorialVotes, tutorialId)
    ensures r.scamVotes == db.scamVotes && r.comments == db.comments && r.scams == db.scams && r.users == db.users
  {
    db.(tutorialVotes := ClearTarget(db.tutorialVotes, tutorialId), tutorials := db.tutorials - {tutorialId})
  }

  // ---------------------------------------------------------------------

  /** After `delete_scam` the scam reads as having no likes, dislikes or user votes. */
  lemma DeleteScamClearsReads(db: Db, scamId: int, userId: int)
    ensures GetScamLikesCount(DeleteScam(db, scamId), scamId) == 0
    ensures GetScamDislikesCount(DeleteScam(db, scamId), scamId) == 0
    ensures GetUserScamVote(DeleteScam(db, scamId), scamId, userId) == 0
  {
  }

  /** After `delete_tutorial` the tutorial reads as having no likes, dislikes or user votes. */
  lemma DeleteTutorialClearsReads(db: Db, tutorialId: int, userId: int)
    ensures GetTutorialLikesCount(DeleteTutorial(db, tutorialId), tutorialId) == 0
    ensures GetTutorialDislikesCount(DeleteTutorial(db, tutorialId), tutorialId) == 0
    ensures GetUserTutorialVote(DeleteTutorial(db, tutorialId), tutorialId, userId) == 0
  {
  }

  /** Deleting one scam leaves every other scam's reads as they were. */
  lemma {:induction false} DeleteScamKeepsOtherReads(db: Db, scamId: int, other: int, userId: int)
    requires other != scamId
    ensures GetScamLikesCount(DeleteScam(db, scamId), other) == GetScamLikesCount(db, other)
    ensures GetScamDislikesCount(DeleteScam(db, scamId), other) == GetScamDislikesCount(db, other)
    ensures GetUserScamVote(DeleteScam(db, scamId), other, userId) == GetUserScamVote(db, other, userId)
  {
    ClearTargetKeepsOthers(db.scamVotes, scamId, other, Like, userId);
    ClearTargetKeepsOthers(db.scamVotes, scamId, other, Dislike, userId);
  }

  /** Deleting one tutorial leaves every other tutorial's reads as they were. */
  lemma {:induction false} DeleteTutorialKeepsOtherReads(db: Db, tutorialId: int, other: int, userId: int)
    requires other != tutorialId
    ensures GetTutorialLikesCount(DeleteTutorial(db, tutorialId), other) == GetTutorialLikesCount(db, other)
    ensures GetTutorialDislikesCount(DeleteTutorial(db, tutorialId), other) == GetTutorialDislikesCount(db, other)
    ensures GetUserTutorialVote(DeleteTutorial(db, tutorialId), other, userId) == GetUserTutorialVote(db, other, userId)
  {
    ClearTargetKeepsOthers(db.tutorialVotes, tutorialId, other, Like, userId);
    ClearTargetKeepsOthers(db.tutorialVotes, tutorialId, other, Dislike, userId);
  }

  lemma CastVoteKeepsConsistent(votes: Ledger, targets: set<int>, users: set<int>, target: int, user: int, v: int)
    requires VotesConsistent(votes, targets, users)
    ensures VotesConsistent(CastVote(votes, targets, users, target, user, v).0, targets, users)
  {
  }

  lemma ClearTargetKeepsConsistent(votes: Ledger, targets: set<int>, users: set<int>, target: int)
    requires VotesConsistent(votes, targets, users)
    ensures VotesConsistent(ClearTarget(votes, target), targets - {target}, users)
  {
  }

  /** Both vote calls and both deletes keep every column type and foreign key satisfied. */
  lemma {:induction false} OperationsKeepConsistent(db: Db, target: int, userId: int, v: int)
    requires Consistent(db)
    ensures Consistent(AddScamVote(db, target, userId, v).0)
    ensures Consistent(AddTutorialVote(db, target, userId, v).0)
    ensures Consistent(DeleteScam(db, target))
    ensures Consistent(DeleteTutorial(db, target))
  {
    CastVoteKeepsConsistent(db.scamVotes, db.scams, db.users, target, userId, v);
    CastVoteKeepsConsistent(db.tutorialVotes, db.tutorials, db.users, target, userId, v);
    ClearTargetKeepsConsistent(db.scamVotes, db.scams, db.users, target);
    ClearTargetKeepsConsistent(db.tutorialVotes, db.tutorials, db.users, target);
  }

  /** Once a scam is deleted, a vote on it is refused and changes nothing. */
  lemma VoteOnDeletedScamRefused(db: Db, scamId: int, userId: int, v: int)
    ensures AddScamVote(DeleteScam(db, scamId), scamId, userId, v) == (DeleteScam(db, scamId), None)
  {
  }

  /** Once a tutorial is deleted, a vote on it is refused and changes nothing. */
  lemma VoteOnDeletedTutorialRefused(db: Db, tutorialId: int, userId: int, v: int)
    ensures AddTutorialVote(DeleteTutorial(db, tutorialId), tutorialId, userId, v) == (DeleteTutorial(db, tutorialId), None)
  {
  }

  /**
   Tutorial voting is scam voting on the other ledger: started from the same
   ledger contents and the same existing targets and users, both calls return
   the same outcome and leave the same ledger.
   */
  lemma TutorialVoteMirrorsScamVote(db: Db, db': Db, target: int, userId: int, v: int)
    requires db'.scamVotes == db.tutorialVotes && db'.scams == db.tutorials && db'.users == db.users
    ensures AddTutorialVote(db, target, userId, v).1 == AddScamVote(db', target, userId, v).1
    ensures AddTutorialVote(db, target, userId, v).0.tutorialVotes == AddScamVote(db', target, userId, v).0.scamVotes
  {
  }

  /** The worked example: like, like again, then dislike, read after each call. */
  lemma {:induction false} LikeUnlikeDislikeExample(db: Db, r: int, b: int)
    requires db.scamVotes == map[]
    requires r in db.scams && b in db.users
    ensures var (db1, o1) := AddScamVote(db, r, b, Like);
      o1 == Some(Added) && GetScamLikesCount(db1, r) == 1 && GetScamDislikesCount(db1, r) == 0
      && GetUserScamVote(db1, r, b) == 1
    ensures var db1 := AddScamVote(db, r, b, Like).0;
      var (db2, o2) := AddScamVote(db1, r, b, Like);
      o2 == Some(Removed) && GetScamLikesCount(db2, r) == 0 && GetScamDislikesCount(db2, r) == 0
      && GetUserScamVote(db2, r, b) == 0
    ensures var db2 := AddScamVote(AddScamVote(db, r, b, Like).0, r, b, Like).0;
      var (db3, o3) := AddScamVote(db2, r, b, Dislike);
      o3 == Some(Added) && GetScamLikesCount(db3, r) == 0 && GetScamDislikesCount(db3, r) == 1
      && GetUserScamVote(db3, r, b) == -1
  {
    var l0: Ledger := map[];
    assert VotesWith(l0, r, Like) == {} && VotesWith(l0, r, Dislike) == {};
    AddedCounts(l0, r, b, Like, Like);
    AddedCounts(l0, r, b, Like, Dislike);
    var l1 := ApplyVote(l0, r, b, Like).0;
    RemovedCounts(l1, r, b, Like, Like);
    RemovedCounts(l1, r, b, Like, Dislike);
    var l2 := ApplyVote(l1, r, b, Like).0;
    AddedCounts(l2, r, b, Dislike, Like);
    AddedCounts(l2, r, b, Dislike, Dislike);
  }
}
