/**
 The vote tables at the level of rows and SQL statements.

 A table is the sequence of its rows; each statement of the vote call
 (`SELECT ... fetchone()`, `DELETE ... WHERE`, `UPDATE ... WHERE`, `INSERT`)
 is a function on it. `View` reads a table as a `VoteLedger.Ledger`, and the
 lemmas below show that the vote call on rows keeps the uniqueness
 constraint and does to the view exactly what `VoteLedger.ApplyVote` does.
 */
module VoteTable {
  import opened Wrappers
  import VoteLedger

  /** One vote row; the serial id and `created_at` play no part in voting. */
  datatype Row = Row(target: int, user: int, vote: int)

  type Table = seq<Row>

  predicate Matches(r: Row, target: int, user: int)
  {
    r.target == target && r.user == user
  }

  /** No row of the table is on (target, user). */
  predicate Absent(t: Table, target: int, user: int)
  {
    forall i :: 0 <= i < |t| ==> !Matches(t[i], target, user)
  }

  /** The `UNIQUE(target_id, user_id)` constraint, one row at a time. */
  predicate Unique(t: Table)
  {
    |t| == 0 || (Absent(t[1..], t[0].target, t[0].user) && Unique(t[1..]))
  }

  /** The table as a ledger; an earlier row wins over a later one on the same key. */
  function View(t: Table): VoteLedger.Ledger
  {
    if |t| == 0 then map[] else View(t[1..])[(t[0].target, t[0].user) := t[0].vote]
  }

  /** `SELECT vote_type ... WHERE target AND user` then `fetchone()`. */
  function SelectVote(t: Table, target: int, user: int): (r: Option<int>)
    ensures r.None? <==> Absent(t, target, user)
    ensures r.Some? ==> exists i :: 0 <= i < |t| && Matches(t[i], target, user) && t[i].vote == r.value
  {
    if |t| == 0 then None
    else if Matches(t[0], target, user) then Some(t[0].vote)
    else
      var r := SelectVote(t[1..], target, user);
      assert r.Some? ==> exists i :: 1 <= i < |t| && Matches(t[i], target, user) && t[i].vote == r.value;
      r
  }

  /** `DELETE ... WHERE target AND user`: keeps every other row, in order. */
  function DeleteVote(t: Table, target: int, user: int): (r: Table)
    ensures Absent(r, target, user)
    ensures forall x :: x in r <==> x in t && !Matches(x, target, user)
  {
    if |t| == 0 then []
    else if Matches(t[0], target, user) then DeleteVote(t[1..], target, user)
    else [t[0]] + DeleteVote(t[1..], target, user)
  }

  /** `UPDATE ... SET vote_type = v WHERE target AND user`. */
  function UpdateVote(t: Table, target: int, user: int, v: int): (r: Table)
    ensures |r| == |t|
    ensures forall i :: 0 <= i < |t| ==> r[i].target == t[i].target && r[i].user == t[i].user
    ensures forall i :: 0 <= i < |t| ==> r[i].vote == (if Matches(t[i], target, user) then v else t[i].vote)
  {
    if |t| == 0 then []
    else
      var head := if Matches(t[0], target, user) then t[0].(vote := v) else t[0];
      [head] + UpdateVote(t[1..], target, user, v)
  }

  /** `add_scam_vote` / `add_tutorial_vote` on rows. */
  function AddVote(t: Table, target: int, user: int, v: int): (r: (Table, VoteLedger.Outcome))
    requires Unique(t)
    ensures Unique(r.0)
  {
    match SelectVote(t, target, user)
    case None =>
      UniqueAppend(t, Row(target, user, v));
      (t + [Row(target, user, v)], VoteLedger.Added)
    case Some(w) =>
      if w == v then
        DeleteKeepsUnique(t, target, user);
        (DeleteVote(t, target, user), VoteLedger.Removed)
      else
        UpdateKeepsUnique(t, target, user, v);
        (UpdateVote(t, target, user, v), VoteLedger.Updated)
  }

  /** `COUNT(*) ... WHERE target_id = target AND vote_type = x` on rows. */
  function CountRows(t: Table, target: int, x: int): (n: nat)
    ensures n <= |t|
    ensures n == 0 <==> forall i :: 0 <= i < |t| ==> !(t[i].target == target && t[i].vote == x)
  {
    if |t| == 0 then 0
    else (if t[0].target == target && t[0].vote == x then 1 else 0) + CountRows(t[1..], target, x)
  }

  // ---------------------------------------------------------------------
  // The statements keep the constraint.

  /** The row-at-a-time constraint is the schema's: no two rows share a (target, user) pair. */
  lemma {:induction false} UniqueIsPairwise(t: Table)
    ensures Unique(t) <==> forall i, j :: 0 <= i < j < |t| ==> !Matches(t[j], t[i].target, t[i].user)
    decreases |t|
  {
    if |t| > 0 {
      UniqueIsPairwise(t[1..]);
      if Unique(t) {
        forall i, j | 0 <= i < j < |t|
          ensures !Matches(t[j], t[i].target, t[i].user)
        {
          if i == 0 {
            assert t[j] == t[1..][j - 1];
          } else {
            assert t[i] == t[1..][i - 1] && t[j] == t[1..][j - 1];
          }
        }
      }
      if forall i, j :: 0 <= i < j < |t| ==> !Matches(t[j], t[i].target, t[i].user) {
        forall i, j | 0 <= i < j < |t[1..]|
          ensures !Matches(t[1..][j], t[1..][i].target, t[1..][i].user)
        {
          assert t[1..][i] == t[i + 1] && t[1..][j] == t[j + 1];
        }
        forall j | 0 <= j < |t[1..]|
          ensures !Matches(t[1..][j], t[0].target, t[0].user)
        {
          assert t[1..][j] == t[j + 1];
        }
      }
    }
  }

  lemma {:induction false} AbsentSub(t: Table, r: Table, target: int, user: int)
    requires Absent(t, target, user)
    requires forall x :: x in r ==> x in t
    ensures Absent(r, target, user)
  {
    forall i | 0 <= i < |r|
      ensures !Matches(r[i], target, user)
    {
      assert r[i] in t;
    }
  }

  lemma {:induction false} UniqueAppend(t: Table, row: Row)
    requires Unique(t)
    requires Absent(t, row.target, row.user)
    ensures Unique(t + [row])
    decreases |t|
  {
    if |t| > 0 {
      assert (t + [row])[1..] == t[1..] + [row];
      UniqueAppend(t[1..], row);
    }
  }

  lemma {:induction false} DeleteKeepsUnique(t: Table, target: int, user: int)
    requires Unique(t)
    ensures Unique(DeleteVote(t, target, user))
    decreases |t|
  {
    if |t| > 0 {
      DeleteKeepsUnique(t[1..], target, user);
      if !Matches(t[0], target, user) {
        var rest := DeleteVote(t[1..], target, user);
        AbsentSub(t[1..], rest, t[0].target, t[0].user);
        assert ([t[0]] + rest)[1..] == rest;
      }
    }
  }

  lemma {:induction false} UpdateKeepsUnique(t: Table, target: int, user: int, v: int)
    requires Unique(t)
    ensures Unique(UpdateVote(t, target, user, v))
    decreases |t|
  {
    if |t| > 0 {
      var r := UpdateVote(t, target, user, v);
      assert r[1..] == UpdateVote(t[1..], target, user, v);
      UpdateKeepsUnique(t[1..], target, user, v);
    }
  }

  // ---------------------------------------------------------------------
  // The statements do to the view what the ledger operations do.

  /** A key is in the view exactly when some row is on it. */
  lemma {:induction false} ViewKeys(t: Table, target: int, user: int)
    ensures (target, user) in View(t) <==> !Absent(t, target, user)
    decreases |t|
  {
    if |t| > 0 {
      ViewKeys(t[1..], target, user);
      if !Absent(t[1..], target, user) {
        var i :| 0 <= i < |t[1..]| && Matches(t[1..][i], target, user);
        assert Matches(t[i + 1], target, user);
      }
      if !Absent(t, target, user) && !Matches(t[0], target, user) {
        var i :| 0 <= i < |t| && Matches(t[i], target, user);
        assert Matches(t[1..][i - 1], target, user);
      }
    }
  }

  /** The `SELECT ... fetchone()` reads the view. */
  lemma {:induction false} SelectReadsView(t: Table, target: int, user: int)
    ensures SelectVote(t, target, user)
         == if (target, user) in View(t) then Some(View(t)[(target, user)]) else None
    decreases |t|
  {
    ViewKeys(t, target, user);
    if |t| > 0 {
      SelectReadsView(t[1..], target, user);
    }
  }

  lemma {:induction false} InsertView(t: Table, row: Row)
    requires Absent(t, row.target, row.user)
    ensures View(t + [row]) == View(t)[(row.target, row.user) := row.vote]
    decreases |t|
  {
    if |t| > 0 {
      assert (t + [row])[1..] == t[1..] + [row];
      InsertView(t[1..], row);
      assert !Matches(t[0], row.target, row.user);
    }
  }

  lemma {:induction false} DeleteView(t: Table, target: int, user: int)
    ensures View(DeleteVote(t, target, user)) == View(t) - {(target, user)}
    decreases |t|
  {
    if |t| > 0 {
      DeleteView(t[1..], target, user);
      if !Matches(t[0], target, user) {
        var rest := DeleteVote(t[1..], target, user);
        assert ([t[0]] + rest)[1..] == rest;
      }
    }
  }

  lemma {:induction false} UpdateView(t: Table, target: int, user: int, v: int)
    ensures View(UpdateVote(t, target, user, v))
         == if (target, user) in View(t) then View(t)[(target, user) := v] else View(t)
    decreases |t|
  {
    if |t| > 0 {
      var r := UpdateVote(t, target, user, v);
      assert r[1..] == UpdateVote(t[1..], target, user, v);
      UpdateView(t[1..], target, user, v);
    }
  }

  /**
   The vote call on rows returns what the ledger rule returns and leaves the
   table whose view is the ledger rule's result.
   */
  lemma {:induction false} AddVoteRefinesLedger(t: Table, target: int, user: int, v: int)
    requires Unique(t)
    ensures AddVote(t, target, user, v).1 == VoteLedger.ApplyVote(View(t), target, user, v).1
    ensures View(AddVote(t, target, user, v).0) == VoteLedger.ApplyVote(View(t), target, user, v).0
  {
    SelectReadsView(t, target, user);
    ViewKeys(t, target, user);
    if Absent(t, target, user) {
      InsertView(t, Row(target, user, v));
    } else {
      DeleteView(t, target, user);
      UpdateView(t, target, user, v);
    }
  }

  /** On a table that keeps the constraint, counting rows counts the view. */
  lemma {:induction false} CountRowsIsLedgerCount(t: Table, target: int, x: int)
    requires Unique(t)
    ensures CountRows(t, target, x) == VoteLedger.Count(View(t), target, x)
    decreases |t|
  {
    if |t| > 0 {
      CountRowsIsLedgerCount(t[1..], target, x);
      var k := (t[0].target, t[0].user);
      ViewKeys(t[1..], k.0, k.1);
      var l := View(t[1..]);
      if k.0 == target {
        VoteLedger.CountSet(l, k, t[0].vote, x);
      } else {
        VoteLedger.CountOtherTarget(l, l[k := t[0].vote], k, target, x);
      }
    }
  }

  /** `get_user_*_vote`: the selected vote, or 0 when there is no row. */
  lemma {:induction false} UserVoteReadsRows(t: Table, target: int, user: int)
    ensures VoteLedger.UserVote(View(t), target, user)
         == match SelectVote(t, target, user) case None => 0 case Some(w) => w
  {
    SelectReadsView(t, target, user);
  }
}
