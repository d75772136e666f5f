/** `HeadersModel` and `QueryModel` (src/models): two-column lists that notify their views of every
    change. Both hold rows of two texts, a first (name or key) and a second (value). */
module ListModels {
  datatype Row = Row(first: string, second: string)

  datatype Role = FirstRole | SecondRole

  /** The notifications of a list model; insertions and removals concern one row each. */
  datatype Notification =
    | RowInserted(at: nat)
    | RowRemoved(at: nat)
    | DataChanged(at: nat, roles: seq<Role>)
    | ModelReset

  /** The calls on the headers model. In `setData` a role other than the two, and an invalid index,
      are refused. */
  datatype HeadersCall =
    | Append(name: string, value: string)
    | Remove(index: int)
    | UpdateValue(index: int, name: string, value: string)
    | SetData(index: int, value: string, role: RoleArgument)
    | ClearHeaders

  datatype RoleArgument = Known(role: Role) | OtherRole

  datatype QueryCall =
    | AddQuery
    | RemoveQuery(index: int)
    | SetKey(index: int, key: string)
    | SetValue(index: int, value: string)
    | ClearQueries

  /** The rows after a call, and the notification it sends, if any. */
  datatype Change = Change(rows: seq<Row>, notes: seq<Notification>)

  predicate InRange(rows: seq<Row>, index: int) {
    0 <= index < |rows|
  }

  function WithRole(row: Row, role: Role, value: string): Row {
    match role
    case FirstRole => row.(first := value)
    case SecondRole => row.(second := value)
  }

  function AppendRow(rows: seq<Row>, row: Row): Change {
    Change(rows + [row], [RowInserted(|rows|)])
  }

  function RemoveRow(rows: seq<Row>, index: int): Change {
    if InRange(rows, index)
    then Change(rows[..index] + rows[index + 1..], [RowRemoved(index)])
    else Change(rows, [])
  }

  function ReplaceRow(rows: seq<Row>, index: int, row: Row, roles: seq<Role>): Change {
    if InRange(rows, index)
    then Change(rows[index := row], [DataChanged(index, roles)])
    else Change(rows, [])
  }

  /** `setKey` and `setValue` notify only if the text differs. */
  function ReplaceIfChanged(rows: seq<Row>, index: int, role: Role, value: string): Change {
    if InRange(rows, index) && WithRole(rows[index], role, value) != rows[index]
    then ReplaceRow(rows, index, WithRole(rows[index], role, value), [role])
    else Change(rows, [])
  }

  function CallHeaders(rows: seq<Row>, call: HeadersCall): Change {
    match call
    case Append(name, value) => AppendRow(rows, Row(name, value))
    case Remove(index) => RemoveRow(rows, index)
    case UpdateValue(index, name, value) => ReplaceRow(rows, index, Row(name, value), [FirstRole, SecondRole])
    case SetData(index, value, Known(role)) =>
      if InRange(rows, index) then ReplaceRow(rows, index, WithRole(rows[index], role, value), [role])
      else Change(rows, [])
    case SetData(_, _, OtherRole) => Change(rows, [])
    case ClearHeaders => Change([], [ModelReset])
  }

  function CallQuery(rows: seq<Row>, call: QueryCall): Change {
    match call
    case AddQuery => AppendRow(rows, Row("", ""))
    case RemoveQuery(index) => RemoveRow(rows, index)
    case SetKey(index, key) => ReplaceIfChanged(rows, index, FirstRole, key)
    case SetValue(index, value) => ReplaceIfChanged(rows, index, SecondRole, value)
    case ClearQueries => Change([], [ModelReset])
  }

  /** The change with the notifications sent before in front of its own. */
  function Sent(before: seq<Notification>, change: Change): Change {
    change.(notes := before + change.notes)
  }

  class HeadersModel {
    var rows: seq<Row>
    var notes: seq<Notification>

    constructor ()
      ensures rows == [] && notes == []
    {
      rows, notes := [], [];
    }

    method Append(name: string, value: string)
      modifies this
      ensures Change(rows, notes) == Sent(old(notes), CallHeaders(old(rows), HeadersCall.Append(name, value)))
      ensures rows == old(rows) + [Row(name, value)] && notes == old(notes) + [RowInserted(|old(rows)|)]
    {
      var at := |rows|;
      rows := rows + [Row(name, value)];
      notes := notes + [RowInserted(at)];
    }

    method Remove(index: int)
      modifies this
      ensures Change(rows, notes) == Sent(old(notes), CallHeaders(old(rows), HeadersCall.Remove(index)))
      ensures 0 <= index < |old(rows)| ==>
                && |rows| == |old(rows)| - 1 && notes == old(notes) + [RowRemoved(index)]
                && (forall i | 0 <= i < index :: rows[i] == old(rows)[i])
                && forall i | index <= i < |rows| :: rows[i] == old(rows)[i + 1]
      ensures !(0 <= index < |old(rows)|) ==> unchanged(this)
    {
      if index < 0 || index >= |rows| {
        return;
      }
      rows := rows[..index] + rows[index + 1..];
      notes := notes + [RowRemoved(index)];
    }

    method UpdateValue(index: int, name: string, value: string)
      modifies this
      ensures Change(rows, notes) ==
              Sent(old(notes), CallHeaders(old(rows), HeadersCall.UpdateValue(index, name, value)))
      ensures 0 <= index < |old(rows)| ==>
                && rows == old(rows)[index := Row(name, value)]
                && notes == old(notes) + [DataChanged(index, [FirstRole, SecondRole])]
      ensures !(0 <= index < |old(rows)|) ==> unchanged(this)
    {
      if index < 0 || index >= |rows| {
        return;
      }
      rows := rows[index := rows[index].(first := name)];
      rows := rows[index := rows[index].(second := value)];
      notes := notes + [DataChanged(index, [FirstRole, SecondRole])];
    }

    method SetData(index: int, value: string, role: RoleArgument) returns (accepted: bool)
      modifies this
      ensures accepted <==> InRange(old(rows), index) && role.Known?
      ensures Change(rows, notes) == Sent(old(notes), CallHeaders(old(rows), HeadersCall.SetData(index, value, role)))
      ensures accepted && role.role.FirstRole? ==>
                && rows == old(rows)[index := Row(value, old(rows)[index].second)]
                && notes == old(notes) + [DataChanged(index, [FirstRole])]
      ensures accepted && role.role.SecondRole? ==>
                && rows == old(rows)[index := Row(old(rows)[index].first, value)]
                && notes == old(notes) + [DataChanged(index, [SecondRole])]
      ensures !accepted ==> unchanged(this)
    {
      if index < 0 || index >= |rows| {
        return false;
      }
      match role {
        case Known(FirstRole) => rows := rows[index := rows[index].(first := value)];
        case Known(SecondRole) => rows := rows[index := rows[index].(second := value)];
        case OtherRole => return false;
      }
      notes := notes + [DataChanged(index, [role.role])];
      return true;
    }

    method Clear()
      modifies this
      ensures Change(rows, notes) == Sent(old(notes), CallHeaders(old(rows), ClearHeaders))
      ensures rows == [] && notes == old(notes) + [ModelReset]
    {
      rows := [];
      notes := notes + [ModelReset];
    }
  }

  class QueryModel {
    var rows: seq<Row>
    var notes: seq<Notification>

    constructor ()
      ensures rows == [] && notes == []
    {
      rows, notes := [], [];
    }

    method AddQuery()
      modifies this
      ensures Change(rows, notes) == Sent(old(notes), CallQuery(old(rows), QueryCall.AddQuery))
      ensures rows == old(rows) + [Row("", "")] && notes == old(notes) + [RowInserted(|old(rows)|)]
    {
      var at := |rows|;
      rows := rows + [Row("", "")];
      notes := notes + [RowInserted(at)];
    }

    method RemoveQuery(index: int)
      modifies this
      ensures Change(rows, notes) == Sent(old(notes), CallQuery(old(rows), QueryCall.RemoveQuery(index)))
      ensures 0 <= index < |old(rows)| ==>
                && |rows| == |old(rows)| - 1 && notes == old(notes) + [RowRemoved(index)]
                && (forall i | 0 <= i < index :: rows[i] == old(rows)[i])
                && forall i | index <= i < |rows| :: rows[i] == old(rows)[i + 1]
      ensures !(0 <= index < |old(rows)|) ==> unchanged(this)
    {
      if index < 0 || index >= |rows| {
        return;
      }
      rows := rows[..index] + rows[index + 1..];
      notes := notes + [RowRemoved(index)];
    }

    method SetKey(index: int, key: string)
      modifies this
      ensures Change(rows, notes) == Sent(old(notes), CallQuery(old(rows), QueryCall.SetKey(index, key)))
      ensures 0 <= index < |old(rows)| && old(rows)[index].first != key ==>
                && rows == old(rows)[index := Row(key, old(rows)[index].second)]
                && notes == old(notes) + [DataChanged(index, [FirstRole])]
      ensures !(0 <= index < |old(rows)| && old(rows)[index].first != key) ==> unchanged(this)
    {
      if index < 0 || index >= |rows| {
        return;
      }
      if rows[index].first != key {
        rows := rows[index := rows[index].(first := key)];
        notes := notes + [DataChanged(index, [FirstRole])];
      }
    }

    method SetValue(index: int, value: string)
      modifies this
      ensures Change(rows, notes) == Sent(old(notes), CallQuery(old(rows), QueryCall.SetValue(index, value)))
      ensures 0 <= index < |old(rows)| && old(rows)[index].second != value ==>
                && rows == old(rows)[index := Row(old(rows)[index].first, value)]
                && notes == old(notes) + [DataChanged(index, [SecondRole])]
      ensures !(0 <= index < |old(rows)| && old(rows)[index].second != value) ==> unchanged(this)
    {
      if index < 0 || index >= |rows| {
        return;
      }
      if rows[index].second != value {
        rows := rows[index := rows[index].(second := value)];
        notes := notes + [DataChanged(index, [SecondRole])];
      }
    }

    method Clear()
      modifies this
      ensures Change(rows, notes) == Sent(old(notes), CallQuery(old(rows), ClearQueries))
      ensures rows == [] && notes == old(notes) + [ModelReset]
    {
      rows := [];
      notes := notes + [ModelReset];
    }
  }

  // ----- a view that follows the notifications

  /** Re-reads from `now` the named columns of one row. */
  function Reread(row: Row, now: Row, roles: seq<Role>): Row {
    Row(if FirstRole in roles then now.first else row.first,
        if SecondRole in roles then now.second else row.second)
  }

  /** What a view shows after one notification; `now` is the model as it then is. A notification
      that does not fit what the view shows leaves it behind. */
  function Follow(view: seq<Row>, note: Notification, now: seq<Row>): seq<Row> {
    match note
    case RowInserted(at) => if at <= |view| && at < |now| then view[..at] + [now[at]] + view[at..] else view
    case RowRemoved(at) => if at < |view| then view[..at] + view[at + 1..] else view
    case DataChanged(at, roles) =>
      if at < |view| && at < |now| then view[at := Reread(view[at], now[at], roles)] else view
    case ModelReset => now
  }

  function FollowAll(view: seq<Row>, change: Change): seq<Row> {
    if change.notes == [] then view else Follow(view, change.notes[0], change.rows)
  }

  /** The model's rows and the view's after a series of calls. */
  datatype Pair = Pair(rows: seq<Row>, view: seq<Row>)

  function RunHeaders(calls: seq<HeadersCall>): Pair {
    if calls == [] then Pair([], [])
    else
      var before := RunHeaders(calls[..|calls| - 1]);
      var change := CallHeaders(before.rows, calls[|calls| - 1]);
      Pair(change.rows, FollowAll(before.view, change))
  }

  function RunQuery(calls: seq<QueryCall>): Pair {
    if calls == [] then Pair([], [])
    else
      var before := RunQuery(calls[..|calls| - 1]);
      var change := CallQuery(before.rows, calls[|calls| - 1]);
      Pair(change.rows, FollowAll(before.view, change))
  }

  lemma HeadersFollowed(rows: seq<Row>, call: HeadersCall)
    ensures FollowAll(rows, CallHeaders(rows, call)) == CallHeaders(rows, call).rows
    ensures |CallHeaders(rows, call).notes| <= 1
  {
  }

  lemma QueryFollowed(rows: seq<Row>, call: QueryCall)
    ensures FollowAll(rows, CallQuery(rows, call)) == CallQuery(rows, call).rows
    ensures |CallQuery(rows, call).notes| <= 1
  {
  }

  /** A view that applies only the notifications shows the headers model's contents after every
      series of calls. */
  lemma {:induction false} HeadersViewIsCurrent(calls: seq<HeadersCall>)
    ensures RunHeaders(calls).view == RunHeaders(calls).rows
  {
    if calls == [] {
    } else {
      HeadersViewIsCurrent(calls[..|calls| - 1]);
      HeadersFollowed(RunHeaders(calls[..|calls| - 1]).rows, calls[|calls| - 1]);
    }
  }

  lemma {:induction false} QueryViewIsCurrent(calls: seq<QueryCall>)
    ensures RunQuery(calls).view == RunQuery(calls).rows
  {
    if calls == [] {
    } else {
      QueryViewIsCurrent(calls[..|calls| - 1]);
      QueryFollowed(RunQuery(calls[..|calls| - 1]).rows, calls[|calls| - 1]);
    }
  }

  /** A call on the query model is announced exactly when it changes the rows, except that clearing
      is announced even if there was nothing to clear. */
  lemma QueryNotifiesChanges(rows: seq<Row>, call: QueryCall)
    ensures CallQuery(rows, call).notes != [] <==>
            CallQuery(rows, call).rows != rows || call == ClearQueries
  {
  }
}
