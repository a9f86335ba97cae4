/** The `containers` table of the manager (`container_db_manager.ts`) as an
    in-memory table: rows in insertion order, an AUTOINCREMENT counter, and
    the module-level handle `db` as a flag. */
module ContainerDb {
  import opened Wrappers
  import opened Js
  import opened Tables

  /** A row of the `containers` table, with the table's column names. */
  datatype Row = Row(id: int, container_id: string, port: int, ws_port: int, user_id: int, name: string)

  /** The `Container` class the module hands out. */
  datatype Container = Container(id: int, containerId: string, port: int, wsPort: int, userId: int, name: string)

  /** `Container.fromRow`: each column to the field of the same meaning. */
  function FromRow(row: Row): (c: Container)
    ensures c.id == row.id && c.containerId == row.container_id && c.name == row.name
    ensures c.port == row.port && c.wsPort == row.ws_port && c.userId == row.user_id
  {
    Container(row.id, row.container_id, row.port, row.ws_port, row.user_id, row.name)
  }

  /** `fromRow` loses nothing: distinct rows give distinct containers. */
  lemma FromRowInjective(a: Row, b: Row)
    requires FromRow(a) == FromRow(b)
    ensures a == b
  {
  }

  /** `rows.map((row) => Container.fromRow(row))`. */
  function Containers(rows: seq<Row>): (cs: seq<Container>)
    ensures |cs| == |rows| && forall i :: 0 <= i < |rows| ==> cs[i] == FromRow(rows[i])
  {
    seq(|rows|, i requires 0 <= i < |rows| => FromRow(rows[i]))
  }

  /** Ids strictly increase along the table, as AUTOINCREMENT hands them out. */
  ghost predicate IdsIncreasing(rows: seq<Row>) {
    forall i, j :: 0 <= i < j < |rows| ==> rows[i].id < rows[j].id
  }

  lemma {:induction false} FilterKeepsIdsIncreasing(rows: seq<Row>, keep: Row -> bool)
    requires IdsIncreasing(rows)
    ensures IdsIncreasing(Filter(rows, keep))
  {
    if rows != [] {
      FilterKeepsIdsIncreasing(rows[1..], keep);
      var rest := Filter(rows[1..], keep);
      forall x | x in rest ensures rows[0].id < x.id {
        var j :| 0 <= j < |rows[1..]| && rows[1..][j] == x;
        assert rows[j + 1] == x;
      }
    }
  }

  /** `DELETE FROM containers WHERE container_id NOT IN (running)`: keeps
      exactly the rows whose container is running. */
  function Reconciled(rows: seq<Row>, running: seq<string>): (kept: seq<Row>)
    ensures forall r :: r in kept <==> r in rows && r.container_id in running
  {
    Filter(rows, (r: Row) => r.container_id in running)
  }

  /** Reconciling twice against the same running list changes nothing more. */
  lemma ReconcileIdempotent(rows: seq<Row>, running: seq<string>)
    ensures Reconciled(Reconciled(rows, running), running) == Reconciled(rows, running)
  {
    FilterIdempotent(rows, (r: Row) => r.container_id in running);
  }

  /** `DELETE FROM containers WHERE id = ?`. */
  function WithoutId(rows: seq<Row>, id: int): (kept: seq<Row>)
    ensures forall r :: r in kept <==> r in rows && r.id != id
  {
    Filter(rows, (r: Row) => r.id != id)
  }

  /** Deleting an id no row has is a no-op. */
  lemma DeleteAbsentIsNoOp(rows: seq<Row>, id: int)
    requires forall r :: r in rows ==> r.id != id
    ensures WithoutId(rows, id) == rows
  {
    FilterKeepsAll(rows, (r: Row) => r.id != id);
  }

  /** Deleting the id just handed out undoes the insert. */
  lemma DeleteUndoesInsert(rows: seq<Row>, row: Row)
    requires forall r :: r in rows ==> r.id < row.id
    ensures WithoutId(rows + [row], row.id) == rows
  {
    FilterAppend(rows, [row], (r: Row) => r.id != row.id);
    DeleteAbsentIsNoOp(rows, row.id);
    assert Filter([row], (r: Row) => r.id != row.id) == [];
  }

  /** The rows left after `DELETE FROM containers WHERE id = ?` for each of
      `ids`. */
  function WithoutIds(rows: seq<Row>, ids: set<int>): (kept: seq<Row>)
    ensures forall r :: r in kept <==> r in rows && r.id !in ids
  {
    Filter(rows, (r: Row) => r.id !in ids)
  }

  /** An empty batch deletes nothing. */
  lemma {:induction false} WithoutNoIds(rows: seq<Row>)
    ensures WithoutIds(rows, {}) == rows
  {
    if rows != [] {
      WithoutNoIds(rows[1..]);
      assert rows == [rows[0]] + rows[1..];
    }
  }

  /** Deleting one more id after a batch of deletions is deleting the
      larger batch, row order included. */
  lemma {:induction false} WithoutIdsStep(rows: seq<Row>, ids: set<int>, id: int)
    ensures WithoutId(WithoutIds(rows, ids), id) == WithoutIds(rows, ids + {id})
  {
    if rows != [] {
      WithoutIdsStep(rows[1..], ids, id);
      var inner := WithoutIds(rows, ids);
      var rest := WithoutIds(rows[1..], ids);
      if rows[0].id !in ids {
        assert inner == [rows[0]] + rest;
        assert inner[0] == rows[0] && inner[1..] == rest;
        assert WithoutId(inner, id) == (if rows[0].id != id then [rows[0]] else []) + WithoutId(rest, id);
      } else {
        assert inner == rest;
        assert rows[0].id in ids + {id};
        assert WithoutIds(rows, ids + {id}) == WithoutIds(rows[1..], ids + {id});
        assert WithoutId(inner, id) == WithoutId(rest, id);
      }
    }
  }

  /** With increasing ids an id names at most one row. */
  lemma IdsIncreasingUnique(rows: seq<Row>, a: Row, b: Row)
    requires IdsIncreasing(rows) && a in rows && b in rows && a.id == b.id
    ensures a == b
  {
    var i :| 0 <= i < |rows| && rows[i] == a;
    var j :| 0 <= j < |rows| && rows[j] == b;
    if i < j {
      assert rows[i].id < rows[j].id;
    } else if j < i {
      assert rows[j].id < rows[i].id;
    }
  }

  /** `SELECT * FROM containers WHERE user_id = ?`. */
  function RowsOfUser(rows: seq<Row>, userId: int): (mine: seq<Row>)
    ensures forall r :: r in mine <==> r in rows && r.user_id == userId
  {
    Filter(rows, (r: Row) => r.user_id == userId)
  }

  /** The numeric columns `getAllColumnValues` is called with. */
  datatype NumericColumn = PortColumn | WsPortColumn

  function ColumnName(column: NumericColumn): string {
    match column
    case PortColumn => "port"
    case WsPortColumn => "ws_port"
  }

  function ColumnOf(row: Row, column: NumericColumn): int {
    match column
    case PortColumn => row.port
    case WsPortColumn => row.ws_port
  }

  /** `SELECT <column> FROM containers` as the driver returns it: one
      one-column row object per row, not the bare numbers. */
  function ColumnValues(rows: seq<Row>, column: NumericColumn): (values: seq<JsValue>)
    ensures |values| == |rows|
    ensures forall i :: 0 <= i < |rows| ==> values[i] == ColumnRecord(ColumnName(column), ColumnOf(rows[i], column))
  {
    seq(|rows|, i requires 0 <= i < |rows| => ColumnRecord(ColumnName(column), ColumnOf(rows[i], column)))
  }

  /** Strict equality never finds a number among the row objects, whatever
      the table holds: the exclusion list `randomRangeNotIn` receives
      excludes no port. */
  lemma ColumnValuesHoldNoNumber(rows: seq<Row>, column: NumericColumn, x: int)
    ensures IndexOfValue(ColumnValues(rows, column), Number(x)) == -1
  {
  }

  class ContainerTable {
    /** `db !== undefined` */
    var isOpen: bool
    var rows: seq<Row>
    /** The next AUTOINCREMENT id. */
    var nextId: int

    ghost predicate Valid()
      reads this
    {
      IdsIncreasing(rows) && forall r :: r in rows ==> r.id < nextId
    }

    /** A fresh database file: no rows, ids start at 1, no handle yet. */
    constructor ()
      ensures Valid() && !isOpen && rows == [] && nextId == 1
    {
      isOpen := false;
      rows := [];
      nextId := 1;
    }

    /** `openDatabase`: (re)opens the handle; the table is created only if
        it does not exist, so its rows are kept. */
    method OpenDatabase()
      modifies this`isOpen
      ensures isOpen
    {
      isOpen := true;
    }

    /** `closeDatabase`: closes the handle and unsets it. Without a handle
        `db.close()` throws and the promise rejects (`closed` is false);
        the handle stays unset either way. */
    method CloseDatabase() returns (closed: bool)
      modifies this`isOpen
      ensures !isOpen
      ensures closed == old(isOpen)
    {
      closed := isOpen;
      isOpen := false;
    }

    /** `updateDatabase(runningContainerIds)`: `db?.run`, so nothing happens
        without a handle. */
    method UpdateDatabase(running: seq<string>)
      requires Valid()
      modifies this`rows
      ensures Valid()
      ensures rows == if isOpen then Reconciled(old(rows), running) else old(rows)
    {
      if isOpen {
        FilterKeepsIdsIncreasing(rows, (r: Row) => r.container_id in running);
        rows := Reconciled(rows, running);
      }
    }

    /** `insertContainer(id, port, wsPort, userId, name = "")`: one new row
        with the next id; the rows before it are unchanged. */
    method InsertContainer(containerId: string, port: int, wsPort: int, userId: int, name: string := "")
      requires isOpen && Valid()
      modifies this`rows, this`nextId
      ensures Valid()
      ensures rows == old(rows) + [Row(old(nextId), containerId, port, wsPort, userId, name)]
      ensures nextId == old(nextId) + 1
    {
      rows := rows + [Row(nextId, containerId, port, wsPort, userId, name)];
      nextId := nextId + 1;
    }

    /** `getContainersForUser(userId)`: exactly the containers of that user,
        in table order. */
    function ContainersForUser(userId: int): (cs: seq<Container>)
      requires isOpen
      reads this
      ensures forall c :: c in cs <==> exists r :: r in rows && r.user_id == userId && c == FromRow(r)
    {
      var mine := RowsOfUser(rows, userId);
      var cs := Containers(mine);
      assert forall c :: c in cs ==> exists r :: r in mine && c == FromRow(r) by {
        forall c | c in cs ensures exists r :: r in mine && c == FromRow(r) {
          var i :| 0 <= i < |cs| && cs[i] == c;
          assert mine[i] in mine;
        }
      }
      assert forall r :: r in mine ==> FromRow(r) in cs by {
        forall r | r in mine ensures FromRow(r) in cs {
          var i :| 0 <= i < |mine| && mine[i] == r;
          assert cs[i] == FromRow(r);
        }
      }
      cs
    }

    /** `getContainer(id)`: a container with that Docker id, or undefined
        when none exists. */
    function GetContainer(containerId: string): (c: Option<Container>)
      requires isOpen
      reads this
      ensures c.None? <==> forall r :: r in rows ==> r.container_id != containerId
      ensures c.Some? ==> exists r :: r in rows && r.container_id == containerId && c.value == FromRow(r)
    {
      match FirstWhere(rows, (r: Row) => r.container_id == containerId)
      case None => None
      case Some(r) => Some(FromRow(r))
    }

    /** `getContainerById(id)`: the container with that row id, or undefined
        when none exists. */
    function GetContainerById(id: int): (c: Option<Container>)
      requires isOpen
      reads this
      ensures c.None? <==> forall r :: r in rows ==> r.id != id
      ensures c.Some? ==> exists r :: r in rows && r.id == id && c.value == FromRow(r)
    {
      match FirstWhere(rows, (r: Row) => r.id == id)
      case None => None
      case Some(r) => Some(FromRow(r))
    }

    /** `getAllColumnValues(column)`: one value per row, so its length is
        the row count the cap check reads. */
    function AllColumnValues(column: NumericColumn): (values: seq<JsValue>)
      requires isOpen
      reads this
      ensures |values| == |rows|
    {
      ColumnValues(rows, column)
    }

    /** `deleteContainer(id)`: removes the row with that id, nothing else. */
    method DeleteContainer(id: int)
      requires isOpen && Valid()
      modifies this`rows
      ensures Valid()
      ensures rows == WithoutId(old(rows), id)
    {
      FilterKeepsIdsIncreasing(rows, (r: Row) => r.id != id);
      rows := WithoutId(rows, id);
    }
  }

  /** With increasing ids, the row found by id after an insert is the one
      inserted. */
  lemma {:induction false} LookupAfterInsert(rows: seq<Row>, row: Row)
    requires IdsIncreasing(rows + [row])
    ensures FirstWhere(rows + [row], (r: Row) => r.id == row.id) == Some(row)
  {
    if rows != [] {
      assert rows[0] == (rows + [row])[0];
      assert rows[0].id < row.id by {
        assert (rows + [row])[|rows|] == row;
      }
      assert (rows + [row])[1..] == rows[1..] + [row];
      LookupAfterInsert(rows[1..], row);
    }
  }
}
