# Anti-Scam-Site: vote ledger and permission ladder in Dafny

This project models the two pieces of the Anti-Scam-Site web application
that carry real behaviour, and proves properties of them.

- **Toggle vote ledger** (`database.py`). Users vote on scam reports and on
  tutorials. A first vote is inserted ("added"). The same vote again deletes
  it ("removed"). A different vote overwrites it ("updated"). Like and
  dislike counts are always counted live from the rows. The model has two
  levels:
  - `VoteLedger` sees a vote table as a map from (target, user) to
    `vote_type`. `ApplyVote` is the toggle rule, and the count functions
    are the `COUNT(*)` queries.
  - `VoteTable` sees the same table as a sequence of rows, with each SQL
    statement of the vote call as a function. It proves that the vote call
    keeps the `UNIQUE(target_id, user_id)` constraint and does to the map
    view what `ApplyVote` does. It also proves that counting rows gives the
    same number as counting the map.
  - `Database` holds the scam ledger, the tutorial ledger and the comments,
    together with the ids of existing users, scams and tutorials. It has the
    two vote calls, the getters, and the vote- and comment-clearing parts of
    `delete_scam` and `delete_tutorial`. The vote tables' foreign keys and
    their `INTEGER` `vote_type` column are modelled. A vote is rejected,
    rolled back, and returns no outcome in two cases. One is an insert of a
    row for a missing scam, tutorial or user. The other is an insert or
    update with a value outside the 32-bit range.
- **Confidence-gated permissions** (`classes.py`). `Accounts` holds the
  user record and the threshold table. `permissions_set` turns confidence
  into four capabilities at 1.0, 2.0 and 3.0. `report_scam` refuses users
  who may not register scams. `UserNoob`, `UserExpert` and `Admin` fix the
  confidence. `get_id` renders the id as decimal text; `Decimal` proves this
  text reads back as the id, which a Flask-Login user loader that calls
  `int(user_id)` relies on. `Sites` holds `validate_url`.

Confidence is a `NUMERIC(3,1)` column (`database.py:57`), so it is held as
an integer number of tenths: 1.0 is 10. Every stored value is k/10 with
|k| <= 999. For such values the source's float comparison against 1.0, 2.0
or 3.0 agrees with comparing k against 10, 20 or 30. Impact and risk scores
use the same tenths scale.

Some behaviour a reader might expect is not in the code, and the model
follows the code:
- The code has no ownership override and no admin-on-admin or self-demotion
  guard, so neither is modelled.
- A vote call returns "added", "removed" or "updated", not a final polarity.
  The final polarity is stated separately as the user's vote read back
  afterwards.
- The code has no check that a `vote_type` is 1 or -1. It stores any value
  the `INTEGER` column accepts. The model keeps that. Facts that need likes
  and dislikes only require `Polar`.

## Model

| member | source | states |
|---|---|---|
| VoteLedger.ApplyVote | database.py:679-700 | "added" exactly when the user had no vote on the target, "removed" exactly when the stored vote equals the new one, "updated" exactly when it differs; afterwards the user's vote reads back as the new value, or 0 after a removal; every other (target, user) entry is unchanged |
| VoteLedger.FirstVoteReadsBack | database.py:685-700 | with no prior vote, the call inserts exactly (target, user, v), returns "added", and `get_user_scam_vote` then reads v |
| VoteLedger.AddedCounts | database.py:660-700 | an added vote raises the count for its polarity by one, leaves the other polarities' counts alone, and adds one voter to the target |
| VoteLedger.RemovedCounts | database.py:660-692 | repeating a vote returns "removed", lowers the count for that polarity by one, leaves the others, and removes one voter |
| VoteLedger.UpdatedCounts | database.py:660-696 | switching polarity returns "updated", keeps the set of voters on the target, lowers the old polarity's count by one and raises the new one's by one |
| VoteLedger.FlipMovesBothCounts | database.py:660-696 | flipping a like to a dislike (or back) moves each count by exactly one, and likes + dislikes is unchanged |
| VoteLedger.OtherTargetsUnchanged | database.py:685-698 | a vote on one target changes no count and no voter set of any other target |
| VoteLedger.ApplyVoteKeepsPolar | database.py:93-100 | casting 1 or -1 on a ledger of 1s and -1s keeps it a ledger of 1s and -1s |
| VoteLedger.ToggleTwiceRestores | database.py:688-692 | from no vote, voting the same polarity twice returns "removed" the second time and restores the original ledger |
| VoteLedger.SwitchBackRestores | database.py:693-696 | switching to another polarity and then back to the original restores the original ledger |
| VoteLedger.RevoteAfterRemoveRestores | database.py:685-700 | removing a vote by repeating it and then casting it again returns "added" and restores the ledger |
| VoteLedger.Count | database.py:660-670 | the number of rows on a target with a given value is at most the target's voters, and 0 exactly when no voter on the target holds that value |
| VoteLedger.Likes | database.py:660-664 | the like count is 0 exactly when no voter on the target holds 1, and likes plus dislikes never exceed the target's voters |
| VoteLedger.Dislikes | database.py:666-670 | the dislike count is 0 exactly when no voter on the target holds -1, and never exceeds the target's voters |
| VoteLedger.UserVote | database.py:672-677 | a non-zero read is the stored row's value; on a ledger of 1s and -1s, 0 is read exactly when the user has no row |
| VoteLedger.LikesPlusDislikes | database.py:660-670 | on a ledger of 1s and -1s, likes + dislikes equals the number of users with a vote on the target |
| VoteLedger.ClearTarget | database.py:651 | deleting a target's votes keeps exactly the entries of other targets, with their values |
| VoteLedger.ClearTargetEmpties | database.py:651 | after clearing a target every count on it is 0, no user has a vote on it, and it has no voters |
| VoteLedger.ClearTargetKeepsOthers | database.py:651 | clearing a target leaves every other target's counts and user votes as they were |
| VoteTable.SelectVote | database.py:685-686 | the select finds nothing exactly when no row is on (target, user); a found vote is the vote of a row on that pair |
| VoteTable.DeleteVote | database.py:690 | the delete leaves no row on (target, user) and keeps every other row |
| VoteTable.UpdateVote | database.py:694 | the update keeps the number of rows and their keys, and sets the vote of exactly the rows on (target, user) |
| VoteTable.AddVote | database.py:679-700 | the vote call on rows keeps the table free of duplicate (target, user) pairs |
| VoteTable.UniqueIsPairwise | database.py:93-100 | the row-at-a-time uniqueness predicate is the schema constraint: no two rows share a (target, user) pair |
| VoteTable.InsertView | database.py:698 | inserting a row for an absent pair adds exactly that entry to the map view |
| VoteTable.DeleteView | database.py:690 | the delete removes exactly that pair from the map view |
| VoteTable.UpdateView | database.py:694 | the update overwrites exactly that pair in the map view, and changes nothing when the pair is absent |
| VoteTable.SelectReadsView | database.py:685-686 | the select returns the map view's entry for the pair, or nothing when the view has none |
| VoteTable.AddVoteRefinesLedger | database.py:685-700 | on a table without duplicates, the vote call on rows returns the same outcome as `ApplyVote` and leaves a table whose map view is `ApplyVote`'s ledger |
| VoteTable.CountRows | database.py:663 | the row count is at most the table's length, and 0 exactly when no row on the target holds the value |
| VoteTable.CountRowsIsLedgerCount | database.py:660-670 | on a table without duplicates, counting matching rows gives the map-level count |
| VoteTable.UserVoteReadsRows | database.py:672-677 | `get_user_scam_vote` is the selected vote, or 0 when no row is found |
| Database.CastVote | database.py:679-706 | no outcome, and the ledger unchanged, in exactly two cases: there is no row for the pair and the target or the user does not exist; or the value is outside the 32-bit `INTEGER` range and the call is not removing an equal stored vote. The rejected statement is rolled back. Otherwise the outcome and ledger of the toggle rule |
| Database.GetScamLikesCount | database.py:660-664 | 0 exactly when no vote on the scam is 1; with the dislike count, at most the scam's voters |
| Database.GetScamDislikesCount | database.py:666-670 | 0 exactly when no vote on the scam is -1; at most the scam's voters |
| Database.GetUserScamVote | database.py:672-677 | a non-zero read is the user's stored vote on the scam; on a ledger of 1s and -1s, 0 exactly when the user has not voted |
| Database.GetTutorialLikesCount | database.py:494-498 | 0 exactly when no vote on the tutorial is 1; with the dislike count, at most the tutorial's voters |
| Database.GetTutorialDislikesCount | database.py:500-504 | 0 exactly when no vote on the tutorial is -1; at most the tutorial's voters |
| Database.GetUserTutorialVote | database.py:506-511 | a non-zero read is the user's stored vote on the tutorial; on a ledger of 1s and -1s, 0 exactly when the user has not voted |
| Database.AddScamVote | database.py:679-706 | the vote call runs on the scam ledger against the existing scams and users; the tutorial ledger, comments, users, scams and tutorials are unchanged |
| Database.AddTutorialVote | database.py:513-540 | the same call runs on the tutorial ledger against the existing tutorials and users; the scam ledger, comments, users, scams and tutorials are unchanged |
| Database.TutorialVoteMirrorsScamVote | database.py:513-540 | from equal ledger contents and equal existing targets and users, a tutorial vote and a scam vote give the same outcome and the same resulting ledger |
| Database.OperationsKeepConsistent | database.py:74-108 | both vote calls and both deletes keep every stored vote a 32-bit `INTEGER`, and every vote and comment pointing at an existing user and an existing scam or tutorial, as the `REFERENCES` clauses demand |
| Database.CastVoteKeepsConsistent | database.py:74-100 | a vote call keeps a vote table's values in range and its targets and users existing |
| Database.ClearTargetKeepsConsistent | database.py:74-100 | clearing a target keeps the remaining votes consistent with the target's removal |
| Database.VoteOnDeletedScamRefused | database.py:646-706 | after `delete_scam`, a vote on that scam returns no outcome and changes nothing |
| Database.VoteOnDeletedTutorialRefused | database.py:481-540 | after `delete_tutorial`, a vote on that tutorial returns no outcome and changes nothing |
| Database.DeleteComments | database.py:650 | every comment on another scam is kept as many times as it occurred, and no comment on the deleted scam remains |
| Database.DeleteScam | database.py:646-658 | removes the scam, every comment on it and every vote on it; the scam ledger is exactly the old one with that scam cleared; the other comments are kept with their multiplicities and nothing is added; users and tutorial data are unchanged |
| Database.DeleteTutorial | database.py:481-492 | removes the tutorial and every vote on it; the tutorial ledger is exactly the old one with that tutorial cleared; users, scam votes, comments and scams are unchanged |
| Database.DeleteScamClearsReads | database.py:646-677 | after `delete_scam` the scam's likes and dislikes are 0 and every user's vote on it reads 0 |
| Database.DeleteTutorialClearsReads | database.py:481-511 | after `delete_tutorial` the tutorial's likes and dislikes are 0 and every user's vote on it reads 0 |
| Database.DeleteScamKeepsOtherReads | database.py:646-677 | deleting one scam leaves every other scam's counts and user votes as they were |
| Database.DeleteTutorialKeepsOtherReads | database.py:481-511 | deleting one tutorial leaves every other tutorial's counts and user votes as they were |
| Database.LikeUnlikeDislikeExample | database.py:660-700 | for an existing scam and user on an empty ledger, like, then like again, then dislike give (likes, dislikes, vote) of (1, 0, 1), then (0, 0, 0), then (0, 1, -1) |
| Accounts.PermissionsFor | classes.py:65-69 | a capability is granted exactly when confidence reaches its threshold in the table (1.0 check/register, 2.0 approve, 3.0 manage) |
| Accounts.PermissionsSet | classes.py:65-69 | after `permissions_set` the capabilities are defined and follow the threshold table for the user's confidence; no other field changes |
| Accounts.PermissionLadder | classes.py:65-69 | manage implies approve, approve implies register, and register holds exactly when check-tutorials holds |
| Accounts.PermissionsMonotone | classes.py:65-69 | raising confidence never revokes a capability |
| Accounts.ReportScam | classes.py:71-74 | fails with a permission error exactly when the user may not register scams; otherwise returns a scam with impact 0, risk 0, the given fields and the caller as reporter |
| Accounts.ReportScamNeedsConfidence | classes.py:65-74 | once permissions are set, a report succeeds exactly when confidence is at least 1.0 |
| Accounts.NewUser | classes.py:48-59 | the constructor keeps all ten given values (id, name, email, hash, type, confidence, age, city, state, civil state) and leaves capabilities unset |
| Accounts.NewUserNoob | classes.py:80-83 | a `UserNoob` has type "noob" and confidence 1.0, and keeps every other given value |
| Accounts.NewUserExpert | classes.py:85-88 | a `UserExpert` has type "expert" and confidence 2.0, and keeps every other given value |
| Accounts.NewAdmin | classes.py:90-93 | an `Admin` has type "admin" and confidence 3.0, and keeps every other given value |
| Accounts.AdminGetsEverything | classes.py:65-93 | an `Admin` with permissions set holds every capability |
| Accounts.ExpertGrants | classes.py:65-88 | a `UserExpert` with permissions set holds every capability except managing tutorials |
| Accounts.NoobGrants | classes.py:65-83 | a `UserNoob` with permissions set holds only check-tutorials and register-scam |
| Accounts.GetId | classes.py:61-63 | the id text parses back to the user's id |
| Accounts.GetIdInjective | classes.py:61-63 | users with the same id text have the same id |
| Decimal.NatToDecimal | classes.py:63 | the rendering of a natural number is a non-empty digit string without leading zeros, of length 1 exactly below 10 |
| Decimal.IntToDecimal | classes.py:63 | a negative number renders as "-" followed by canonical digits; others render as canonical digits |
| Decimal.NatRoundTrip | classes.py:63 | the digits of a rendered natural number evaluate back to it |
| Decimal.IntRoundTrip | classes.py:63 | parsing a rendered integer gives the integer back |
| Decimal.IntToDecimalInjective | classes.py:63 | distinct integers render as distinct strings |
| Sites.StartsWith | classes.py:43 | true exactly when the prefix fits in the string and its first characters equal the prefix |
| Sites.ValidateUrl | classes.py:41-43 | true exactly when the URL's first 7 characters are "http://" or its first 8 are "https://" |
| Sites.ValidUrlExtends | classes.py:41-43 | appending text to a valid URL keeps it valid |

## Left out

- Connection handling, cursors, autocommit switching and printed errors (`database.py:19-42`, `679-706`) are not modelled. These are I/O and transaction plumbing. A missing connection makes the source return `None`, 0 or `False`; the model always has a connection. The statement failures the schema causes in a vote call are modelled, with their rollback. These are a foreign-key rejection of the `INSERT`, and an out-of-range `vote_type` in the `INSERT` or `UPDATE`.
- Concurrent votes are not modelled. The source leaves them to the database's row locks and the unique constraint.
- Serial ids and `created_at` timestamps of vote and comment rows are not modelled. They play no part in voting or deleting.
- Deleting a user, and the `ON DELETE CASCADE` it would trigger on votes and comments, is not modelled. The set of existing users is an input that the modelled operations never change.
- The plain CRUD for users, scams, tutorials and comments is not modelled, nor is the `ORDER BY created_at` listing. These are pass-through SQL with no invariant beyond whether a row exists. The deletion of the scam or tutorial row itself is modelled only as removing its id from a set.
- The second copy of the tutorial block (`database.py:231-385` repeats `387-541`) is modelled once, citing the later copy.
- `Tutorial.extract_youtube_id` is not modelled. Its behaviour is set by Python regular-expression search over alternations with an empty branch.
- `ClassUtils.is_valid_email` is not modelled. It calls `re.match` without the string argument, so it raises instead of returning.
- The `ClassUtils` attribute helpers are not modelled. They are dynamic `getattr`/`setattr` reflection.
- Password hashing and `check_password` are not modelled. They are foreign library calls.
- `app.py` (routes, sessions, an in-memory demo user store), `create_adm.py` (an interactive script), `auth.py` (commented out) and `Documentation.py` (prose) are not part of this model.
- Accounts.ReportScam: requires that `permissions_set` has run. Without that, the source raises `AttributeError`, and the model does not represent this case.
- Accounts.GetId: the id is an integer. The source would render any Python object with `str`, but ids come from a `SERIAL` column.
- Decimal.IntRoundTrip: the parser accepts only the canonical text `str` produces. It is not a model of Python's `int`, which also accepts signs, spaces and underscores.
- Accounts.PermissionsFor: confidence is an exact number of tenths. A float confidence that is not a multiple of 0.1 (possible through the constructor, impossible from the `NUMERIC(3,1)` column) is not represented.
