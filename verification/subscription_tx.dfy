/**
 * The plan-replacement transaction of the data layer
 * (SQLStore.SubscribeUserToPlan with handleExistingPlan and
 * createNewSubscription).
 *
 * The `user_plans` table is the field `rows` of a `UserPlanTable` object.
 * The three generated queries are methods on it that may fail; whether each
 * one fails, and which error value the driver reports for an empty result,
 * are given by a `Driver` value. The transaction wrapper commits when the
 * closure returns no error and otherwise restores the snapshot taken at its
 * start.
 */
module SubscriptionTx {
  import opened GoTypes

  /** A row of `user_plans`: the columns the transaction reads and writes. */
  datatype UserPlan = UserPlan(userID: Int4, planID: Int4)

  /** The zero value of a UserPlan: both columns NULL. */
  const ZeroUserPlan := UserPlan(NullInt4, NullInt4)

  datatype SubscribeUserToPlanParams = SubscribeUserToPlanParams(userID: Int32, planID: Int32)

  datatype SubscribeUserToPlanResult = SubscribeUserToPlanResult(userPlan: UserPlan)

  const ZeroResult := SubscribeUserToPlanResult(ZeroUserPlan)

  /**
   * Errors: database/sql's `ErrNoRows` sentinel, an error raised by the
   * driver, and an error wrapped with a context by `fmt.Errorf("...: %w")`.
   */
  datatype Error = ErrNoRows | DriverError(msg: string) | Wrapped(context: string, cause: Error)
  {
    /** The text Go's `Error()` gives for this error. */
    function Text(): string
    {
      match this
      case ErrNoRows => "sql: no rows in result set"
      case DriverError(m) => m
      case Wrapped(c, e) => c + ": " + e.Text()
    }
  }

  const HandlingExistingPlan := "handling existing plan"
  const CreatingNewSubscription := "creating new subscription"

  /**
   * What the database does on this call: `noRows` is the error value the
   * driver returns when the lookup finds no row (compared by the code against
   * database/sql's sentinel), and each `...Fault` is the message of a failure
   * of that statement, if it fails.
   */
  datatype Driver = Driver(
    noRows: Error,
    lookupFault: Option<string>,
    deleteFault: Option<string>,
    insertFault: Option<string>)

  /** The key the queries use for a user: a non-NULL Int4. */
  function UserKey(userID: Int32): (k: Int4)
    ensures k.valid && k.int32 == userID
  {
    Int4(userID, true)
  }

  /** The row the insert writes for `arg`. */
  function NewUserPlan(arg: SubscribeUserToPlanParams): (up: UserPlan)
    ensures up.userID == UserKey(arg.userID)
    ensures up.planID.valid && up.planID.int32 == arg.planID
  {
    UserPlan(UserKey(arg.userID), Int4(arg.planID, true))
  }

  /** The rows of `rows` that belong to `key`, in table order. */
  function RowsOf(rows: seq<UserPlan>, key: Int4): (r: seq<UserPlan>)
    ensures |r| <= |rows|
    ensures forall up :: up in r <==> up in rows && up.userID == key
  {
    if rows == [] then []
    else if rows[0].userID == key then [rows[0]] + RowsOf(rows[1..], key)
    else RowsOf(rows[1..], key)
  }

  /** The rows of `rows` that do not belong to `key`, in table order. */
  function WithoutUser(rows: seq<UserPlan>, key: Int4): (r: seq<UserPlan>)
    ensures |r| <= |rows|
    ensures forall up :: up in r <==> up in rows && up.userID != key
  {
    if rows == [] then []
    else if rows[0].userID == key then WithoutUser(rows[1..], key)
    else [rows[0]] + WithoutUser(rows[1..], key)
  }

  /** The first row of `key`, as `SELECT ... WHERE user_id = $1 LIMIT 1` finds it. */
  function FirstRowOf(rows: seq<UserPlan>, key: Int4): (r: Option<UserPlan>)
    ensures r.Some? ==> r.value in rows && r.value.userID == key
    ensures r.None? <==> RowsOf(rows, key) == []
  {
    if rows == [] then None
    else if rows[0].userID == key then Some(rows[0])
    else FirstRowOf(rows[1..], key)
  }

  /** The table's invariant: no user has more than one row. */
  ghost predicate AtMostOnePerUser(rows: seq<UserPlan>)
  {
    forall i, j :: 0 <= i < j < |rows| ==> rows[i].userID != rows[j].userID
  }

  /** The three ways the lookup of handleExistingPlan can end. */
  datatype LookupOutcome = Found(row: UserPlan) | NoRows | Failed(err: Error)

  /**
   * How handleExistingPlan classifies the lookup: a row was found, the error
   * equals database/sql's `ErrNoRows`, or any other error.
   */
  function Lookup(rows: seq<UserPlan>, key: Int4, drv: Driver): (o: LookupOutcome)
    ensures o.Found? ==> drv.lookupFault.None? && o.row in rows && o.row.userID == key
    ensures o.NoRows? <==> drv.lookupFault.None? && RowsOf(rows, key) == [] && drv.noRows == ErrNoRows
    ensures o.Failed? ==> o.err != ErrNoRows
  {
    if drv.lookupFault.Some? then Failed(DriverError(drv.lookupFault.value))
    else match FirstRowOf(rows, key)
      case Some(up) => Found(up)
      case None => if drv.noRows == ErrNoRows then NoRows else Failed(drv.noRows)
  }

  /** The error the insert step reports, wrapped as the closure wraps it. */
  function InsertError(drv: Driver): (e: Option<Error>)
    ensures e.Some? <==> drv.insertFault.Some?
  {
    if drv.insertFault.Some? then Some(Wrapped(CreatingNewSubscription, DriverError(drv.insertFault.value)))
    else None
  }

  /** The error SubscribeUserToPlan returns, step by step through the closure. */
  function TxError(rows: seq<UserPlan>, arg: SubscribeUserToPlanParams, drv: Driver): Option<Error>
  {
    match Lookup(rows, UserKey(arg.userID), drv)
    case Failed(e) => Some(Wrapped(HandlingExistingPlan, e))
    case Found(_) =>
      if drv.deleteFault.Some? then Some(Wrapped(HandlingExistingPlan, DriverError(drv.deleteFault.value)))
      else InsertError(drv)
    case NoRows => InsertError(drv)
  }

  /** The table after a committed subscription: the user's rows replaced by the new one. */
  function Subscribed(rows: seq<UserPlan>, arg: SubscribeUserToPlanParams): seq<UserPlan>
  {
    WithoutUser(rows, UserKey(arg.userID)) + [NewUserPlan(arg)]
  }

  /** The `user_plans` table and the queries the transaction issues on it. */
  class UserPlanTable {
    var rows: seq<UserPlan>

    constructor (initial: seq<UserPlan>)
      ensures rows == initial
    {
      rows := initial;
    }

    /** GetOneUserPlan: the first row of the user, or the error the driver reports. */
    method GetOneUserPlan(key: Int4, drv: Driver) returns (up: UserPlan, err: Option<Error>)
      ensures err.None? <==> drv.lookupFault.None? && RowsOf(rows, key) != []
      ensures err.None? ==> up in rows && up.userID == key
      ensures err.Some? ==> up == ZeroUserPlan
      ensures drv.lookupFault.Some? ==> err == Some(DriverError(drv.lookupFault.value))
      ensures drv.lookupFault.None? && RowsOf(rows, key) == [] ==> err == Some(drv.noRows)
    {
      if drv.lookupFault.Some? {
        return ZeroUserPlan, Some(DriverError(drv.lookupFault.value));
      }
      var first := FirstRowOf(rows, key);
      if first.Some? {
        up, err := first.value, None;
      } else {
        up, err := ZeroUserPlan, Some(drv.noRows);
      }
    }

    /** DeleteUserPlan: removes every row of the user, unless the statement fails. */
    method DeleteUserPlan(key: Int4, drv: Driver) returns (err: Option<Error>)
      modifies this
      ensures drv.deleteFault.None? ==> err.None? && rows == WithoutUser(old(rows), key)
      ensures drv.deleteFault.Some? ==> err == Some(DriverError(drv.deleteFault.value)) && rows == old(rows)
    {
      if drv.deleteFault.Some? {
        return Some(DriverError(drv.deleteFault.value));
      }
      rows := WithoutUser(rows, key);
      err := None;
    }

    /** InsertUserPlan: appends the row and returns it, unless the statement fails. */
    method InsertUserPlan(params: UserPlan, drv: Driver) returns (up: UserPlan, err: Option<Error>)
      modifies this
      ensures drv.insertFault.None? ==> err.None? && up == params && rows == old(rows) + [params]
      ensures drv.insertFault.Some? ==>
        err == Some(DriverError(drv.insertFault.value)) && up == ZeroUserPlan && rows == old(rows)
    {
      if drv.insertFault.Some? {
        return ZeroUserPlan, Some(DriverError(drv.insertFault.value));
      }
      rows := rows + [params];
      up, err := params, None;
    }

    /**
     * handleExistingPlan: look the user's plan up; "no rows" is not an error
     * and issues no delete; any other lookup error is returned before any
     * delete; a found plan is deleted by the found row's user.
     */
    method HandleExistingPlan(userID: Int32, drv: Driver) returns (err: Option<Error>)
      modifies this
      ensures match Lookup(old(rows), UserKey(userID), drv)
        case Failed(e) => err == Some(e) && rows == old(rows)
        case NoRows => err.None? && rows == old(rows)
        case Found(_) =>
          if drv.deleteFault.Some? then err == Some(DriverError(drv.deleteFault.value)) && rows == old(rows)
          else err.None? && rows == WithoutUser(old(rows), UserKey(userID))
    {
      var up, lookupErr := GetOneUserPlan(UserKey(userID), drv);
      if lookupErr == Some(ErrNoRows) {
        return None;
      }
      if lookupErr.Some? {
        return lookupErr;
      }
      err := DeleteUserPlan(up.userID, drv);
    }

    /** createNewSubscription: inserts the (user, plan) row with both columns non-NULL. */
    method CreateNewSubscription(arg: SubscribeUserToPlanParams, drv: Driver) returns (up: UserPlan, err: Option<Error>)
      modifies this
      ensures drv.insertFault.None? ==> err.None? && up == NewUserPlan(arg) && rows == old(rows) + [up]
      ensures drv.insertFault.Some? ==>
        err == Some(DriverError(drv.insertFault.value)) && up == ZeroUserPlan && rows == old(rows)
    {
      var params := UserPlan(Int4(arg.userID, true), Int4(arg.planID, true));
      up, err := InsertUserPlan(params, drv);
    }

    /**
     * SubscribeUserToPlan: runs handleExistingPlan and createNewSubscription in
     * one transaction. On success the user's rows are replaced by the new row,
     * which is returned; on any error the table is as before the call and the
     * result is the zero value.
     */
    method SubscribeUserToPlan(arg: SubscribeUserToPlanParams, drv: Driver)
      returns (result: SubscribeUserToPlanResult, err: Option<Error>)
      modifies this
      ensures err == TxError(old(rows), arg, drv)
      ensures err.None? ==> rows == Subscribed(old(rows), arg) && result.userPlan == NewUserPlan(arg)
      ensures err.Some? ==> rows == old(rows) && result == ZeroResult
    {
      result := ZeroResult;
      // execTx: begin, keeping the state to return to on rollback
      var snapshot := rows;
      var txErr: Option<Error>;
      // the closure passed to execTx
      var existingErr := HandleExistingPlan(arg.userID, drv);
      if existingErr.Some? {
        txErr := Some(Wrapped(HandlingExistingPlan, existingErr.value));
      } else {
        var userPlan, insertErr := CreateNewSubscription(arg, drv);
        if insertErr.Some? {
          txErr := Some(Wrapped(CreatingNewSubscription, insertErr.value));
        } else {
          result := SubscribeUserToPlanResult(userPlan);
          txErr := None;
        }
      }
      // execTx: commit on nil, otherwise roll back
      if txErr.Some? {
        rows := snapshot;
      } else if RowsOf(snapshot, UserKey(arg.userID)) == [] {
        NoRowsKeepsTable(snapshot, UserKey(arg.userID));
      }
      err := txErr;
    }
  }

  /** With no row for the user, deleting the user's rows changes nothing. */
  lemma {:induction false} NoRowsKeepsTable(rows: seq<UserPlan>, key: Int4)
    requires RowsOf(rows, key) == []
    ensures WithoutUser(rows, key) == rows
  {
    if rows != [] {
      assert rows[0] in rows;
      assert RowsOf(rows[1..], key) == [] by {
        forall up | up in rows[1..] ensures up.userID != key {
          assert up in rows;
        }
      }
      NoRowsKeepsTable(rows[1..], key);
    }
  }

  /** Filtering out a user and then selecting another user's rows is selecting them directly. */
  lemma {:induction false} RowsOfWithoutOther(rows: seq<UserPlan>, key: Int4, other: Int4)
    requires other != key
    ensures RowsOf(WithoutUser(rows, key), other) == RowsOf(rows, other)
  {
    if rows != [] {
      RowsOfWithoutOther(rows[1..], key, other);
    }
  }

  lemma {:induction false} RowsOfAppend(a: seq<UserPlan>, b: seq<UserPlan>, key: Int4)
    ensures RowsOf(a + b, key) == RowsOf(a, key) + RowsOf(b, key)
  {
    if a != [] {
      assert (a + b)[1..] == a[1..] + b;
      RowsOfAppend(a[1..], b, key);
    } else {
      assert a + b == b;
    }
  }

  /** Once a user's rows are filtered out, selecting that user's rows finds none. */
  lemma {:induction false} NoRowsOfRemoved(rows: seq<UserPlan>, key: Int4)
    ensures RowsOf(WithoutUser(rows, key), key) == []
  {
    if rows != [] {
      NoRowsOfRemoved(rows[1..], key);
    }
  }

  /** After a committed subscription the user has exactly one row, for the new plan. */
  lemma SubscribedUserHasOneRow(rows: seq<UserPlan>, arg: SubscribeUserToPlanParams)
    ensures RowsOf(Subscribed(rows, arg), UserKey(arg.userID)) == [NewUserPlan(arg)]
  {
    var key := UserKey(arg.userID);
    RowsOfAppend(WithoutUser(rows, key), [NewUserPlan(arg)], key);
    NoRowsOfRemoved(rows, key);
  }

  /** A committed subscription leaves every other user's rows exactly as they were, in order. */
  lemma SubscribedOthersUnchanged(rows: seq<UserPlan>, arg: SubscribeUserToPlanParams, other: Int4)
    requires other != UserKey(arg.userID)
    ensures RowsOf(Subscribed(rows, arg), other) == RowsOf(rows, other)
  {
    var key := UserKey(arg.userID);
    RowsOfAppend(WithoutUser(rows, key), [NewUserPlan(arg)], other);
    RowsOfWithoutOther(rows, key, other);
  }

  /** A committed subscription keeps the at-most-one-row-per-user invariant. */
  lemma SubscribedKeepsInvariant(rows: seq<UserPlan>, arg: SubscribeUserToPlanParams)
    requires AtMostOnePerUser(rows)
    ensures AtMostOnePerUser(Subscribed(rows, arg))
  {
    var key := UserKey(arg.userID);
    var kept := WithoutUser(rows, key);
    var s := Subscribed(rows, arg);
    SubsequenceDistinct(rows, key);
    forall i, j | 0 <= i < j < |s| ensures s[i].userID != s[j].userID {
      if j == |s| - 1 {
        assert s[i] in kept;
      } else {
        assert s[i] == kept[i] && s[j] == kept[j];
      }
    }
  }

  lemma {:induction false} SubsequenceDistinct(rows: seq<UserPlan>, key: Int4)
    requires AtMostOnePerUser(rows)
    ensures AtMostOnePerUser(WithoutUser(rows, key))
  {
    if rows != [] {
      assert AtMostOnePerUser(rows[1..]) by {
        forall i, j | 0 <= i < j < |rows[1..]| ensures rows[1..][i].userID != rows[1..][j].userID {
          assert rows[1..][i] == rows[i + 1] && rows[1..][j] == rows[j + 1];
        }
      }
      SubsequenceDistinct(rows[1..], key);
      var tail := WithoutUser(rows[1..], key);
      if rows[0].userID != key {
        var s := [rows[0]] + tail;
        forall j | 0 < j < |s| ensures s[0].userID != s[j].userID {
          assert s[j] in tail;
          assert s[j] in rows[1..];
          var k :| 0 <= k < |rows[1..]| && rows[1..][k] == s[j];
          assert rows[k + 1] == s[j];
        }
      }
    }
  }

  /** Subscribing a user to p1 and then to p2 leaves exactly one row for the user, for p2. */
  lemma SubscribeTwice(rows: seq<UserPlan>, userID: Int32, p1: Int32, p2: Int32)
    ensures RowsOf(Subscribed(Subscribed(rows, SubscribeUserToPlanParams(userID, p1)),
                              SubscribeUserToPlanParams(userID, p2)), UserKey(userID))
         == [UserPlan(UserKey(userID), Int4(p2, true))]
  {
    SubscribedUserHasOneRow(Subscribed(rows, SubscribeUserToPlanParams(userID, p1)), SubscribeUserToPlanParams(userID, p2));
  }

  /** The transaction succeeds exactly when no step fails. */
  lemma TxSucceedsIffNoStepFails(rows: seq<UserPlan>, arg: SubscribeUserToPlanParams, drv: Driver)
    ensures TxError(rows, arg, drv).None? <==>
      drv.lookupFault.None? && drv.insertFault.None? &&
      (RowsOf(rows, UserKey(arg.userID)) == [] ==> drv.noRows == ErrNoRows) &&
      (RowsOf(rows, UserKey(arg.userID)) != [] ==> drv.deleteFault.None?)
  {
    var key := UserKey(arg.userID);
    if drv.lookupFault.None? && RowsOf(rows, key) != [] {
      assert FirstRowOf(rows, key).Some?;
    }
  }

  /**
   * A lookup failure aborts before the delete and the insert: the error comes
   * back wrapped as "handling existing plan: ...".
   */
  lemma LookupFailureAborts(rows: seq<UserPlan>, arg: SubscribeUserToPlanParams, drv: Driver)
    requires drv.lookupFault.Some?
    ensures TxError(rows, arg, drv) == Some(Wrapped(HandlingExistingPlan, DriverError(drv.lookupFault.value)))
    ensures TxError(rows, arg, drv).value.Text() == "handling existing plan: " + drv.lookupFault.value
  {
  }

  /**
   * For a user without a plan, a driver whose empty-result error is not
   * database/sql's `ErrNoRows` makes the subscription fail with that error
   * wrapped as "handling existing plan: ...", even though no step failed.
   */
  lemma FirstSubscriptionNeedsSentinel(rows: seq<UserPlan>, arg: SubscribeUserToPlanParams, drv: Driver)
    requires RowsOf(rows, UserKey(arg.userID)) == []
    requires drv.lookupFault.None? && drv.noRows != ErrNoRows
    ensures TxError(rows, arg, drv) == Some(Wrapped(HandlingExistingPlan, drv.noRows))
  {
  }

  /**
   * An insert failure is returned wrapped as "creating new subscription: ...",
   * whenever the insert is reached: the user's row was found and deleted, or
   * the user had none and the lookup ended in `ErrNoRows`.
   */
  lemma InsertFailureWrapped(rows: seq<UserPlan>, arg: SubscribeUserToPlanParams, drv: Driver)
    requires drv.lookupFault.None?
    requires (RowsOf(rows, UserKey(arg.userID)) != [] && drv.deleteFault.None?) ||
             (RowsOf(rows, UserKey(arg.userID)) == [] && drv.noRows == ErrNoRows)
    requires drv.insertFault.Some?
    ensures TxError(rows, arg, drv) == Some(Wrapped(CreatingNewSubscription, DriverError(drv.insertFault.value)))
    ensures TxError(rows, arg, drv).value.Text() == "creating new subscription: " + drv.insertFault.value
  {
    if RowsOf(rows, UserKey(arg.userID)) != [] {
      assert FirstRowOf(rows, UserKey(arg.userID)).Some?;
    }
  }

  /**
   * A found plan whose delete fails aborts before the insert: the error comes
   * back wrapped as "handling existing plan: ...".
   */
  lemma DeleteFailureAborts(rows: seq<UserPlan>, arg: SubscribeUserToPlanParams, drv: Driver)
    requires drv.lookupFault.None? && RowsOf(rows, UserKey(arg.userID)) != []
    requires drv.deleteFault.Some?
    ensures TxError(rows, arg, drv) == Some(Wrapped(HandlingExistingPlan, DriverError(drv.deleteFault.value)))
    ensures TxError(rows, arg, drv).value.Text() == "handling existing plan: " + drv.deleteFault.value
  {
    assert FirstRowOf(rows, UserKey(arg.userID)).Some?;
  }

  /** User 42 with plan 1 subscribes to plan 7: the call returns (42, 7) and 42 has only plan 7. */
  method SubscribeScenario(others: seq<UserPlan>)
    requires RowsOf(others, UserKey(42)) == []
  {
    var table := new UserPlanTable(others + [UserPlan(UserKey(42), Int4(1, true))]);
    var drv := Driver(ErrNoRows, None, None, None);
    TxSucceedsIffNoStepFails(table.rows, SubscribeUserToPlanParams(42, 7), drv);
    RowsOfAppend(others, [UserPlan(UserKey(42), Int4(1, true))], UserKey(42));
    var before := table.rows;
    var result, err := table.SubscribeUserToPlan(SubscribeUserToPlanParams(42, 7), drv);
    assert err.None?;
    assert result.userPlan == UserPlan(Int4(42, true), Int4(7, true));
    SubscribedUserHasOneRow(before, SubscribeUserToPlanParams(42, 7));
    assert RowsOf(table.rows, UserKey(42)) == [UserPlan(Int4(42, true), Int4(7, true))];
  }
}
