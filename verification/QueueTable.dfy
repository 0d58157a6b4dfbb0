/** The persistent queue: one SQLite table per queue name, and the SQL statements run on it.
    Each exported call of the source holds the queue's lock and commits one transaction, so
    each statement below is one atomic change of the table. */
module QueueTable {
  import opened Prelude

  const READY := 0
  const CLAIMED := 1
  const ACKED := 5

  datatype Row = Row(data: string, status: int)

  /** Rows by primary key, and the AUTOINCREMENT counter, which deletions never lower. */
  datatype Table = Table(rows: map<int, Row>, nextId: int)

  const EMPTY_TABLE := Table(map[], 1)

  predicate Valid(t: Table) {
    1 <= t.nextId && forall id | id in t.rows :: 1 <= id < t.nextId
  }

  function WithStatus(t: Table, status: int): (ids: set<int>) {
    set id | id in t.rows && t.rows[id].status == status
  }

  lemma {:induction false} LeastExists(s: set<int>)
    requires s != {}
    ensures exists m :: m in s && forall j | j in s :: m <= j
  {
    var x := Pick(s);
    var rest := s - {x};
    if rest == {} {
      assert s == {x};
    } else {
      LeastExists(rest);
      var m :| m in rest && forall j | j in rest :: m <= j;
      var least := if x < m then x else m;
      assert forall j | j in s :: j == x || j in rest;
      assert least in s && forall j | j in s :: least <= j;
    }
  }

  function Least(s: set<int>): (m: int)
    requires s != {}
    ensures m in s && forall j | j in s :: m <= j
  {
    LeastExists(s);
    var m :| m in s && forall j | j in s :: m <= j;
    m
  }

  /** INSERT INTO q(data, status) VALUES (data, 0). */
  function Insert(t: Table, data: string): Table {
    Table(t.rows[t.nextId := Row(data, READY)], t.nextId + 1)
  }

  /** UPDATE q SET status = ? WHERE id = ?. */
  function SetStatus(t: Table, id: int, status: int): Table {
    if id in t.rows then t.(rows := t.rows[id := t.rows[id].(status := status)]) else t
  }

  /** DELETE FROM q WHERE status = 5. */
  function DeleteAcked(t: Table): Table {
    t.(rows := map id | id in t.rows && t.rows[id].status != ACKED :: t.rows[id])
  }

  /** What DequeueData returns, and the table it leaves. */
  datatype Claim = Claim(id: int, data: Option<string>, table: Table)

  /** SELECT ... WHERE status = 0 ORDER BY id, first row; then UPDATE ... SET status = 1. */
  function Dequeue(t: Table): Claim {
    var ready := WithStatus(t, READY);
    if ready == {} then
      Claim(-1, None, t)
    else
      var id := Least(ready);
      Claim(id, Some(t.rows[id].data), SetStatus(t, id, CLAIMED))
  }

  /** The process's `queues` map over the database files that outlive it. */
  class Store {
    var files: map<string, Table>
    var queues: set<string>

    ghost predicate Consistent()
      reads this
    {
      && queues <= files.Keys
      && forall name | name in files :: Valid(files[name])
    }

    constructor ()
      ensures Consistent() && files == map[] && queues == {}
    {
      files, queues := map[], {};
    }

    /** CREATE TABLE IF NOT EXISTS: no row of an existing table changes, whatever its status. */
    method InitQueue(name: string)
      requires Consistent()
      modifies this
      ensures Consistent()
      ensures queues == old(queues) + {name}
      ensures files.Keys == old(files.Keys) + {name}
      ensures forall n | n in old(files) :: files[n] == old(files[n])
      ensures name !in old(files) ==> files[name].rows == map[] && files[name].nextId == 1
    {
      if name !in files {
        files := files[name := EMPTY_TABLE];
      }
      queues := queues + {name};
    }

    method EnqueueData(name: string, data: string)
      requires Consistent()
      modifies this`files
      ensures Consistent()
      ensures name !in queues ==> files == old(files)
      ensures name in queues ==>
        var t := old(files[name]);
        && t.nextId !in t.rows
        && files == old(files)[name := Table(t.rows[t.nextId := Row(data, 0)], t.nextId + 1)]
    {
      if name !in queues {
        return;
      }
      files := files[name := Insert(files[name], data)];
    }

    method DequeueData(name: string) returns (id: int, data: Option<string>, ok: bool)
      requires Consistent()
      modifies this`files
      ensures Consistent()
      ensures ok == (name in queues)
      ensures !ok ==> id == -1 && data == None && files == old(files)
      // The least ready id, or -1 and nil when nothing is ready.
      ensures ok && id == -1 ==> data == None && files == old(files)
      ensures ok ==> (id == -1 <==> WithStatus(old(files[name]), READY) == {})
      ensures ok && id != -1 ==>
        var t := old(files[name]);
        && id in t.rows && t.rows[id].status == 0
        && (forall j | j in t.rows && t.rows[j].status == 0 :: id <= j)
        && data == Some(t.rows[id].data)
        && files == old(files)[name := t.(rows := t.rows[id := t.rows[id].(status := 1)])]
      ensures ok ==> Claim(id, data, files[name]) == Dequeue(old(files[name]))
    {
      if name !in queues {
        return -1, None, false;
      }
      var claim := Dequeue(files[name]);
      assert forall j | j in files[name].rows && files[name].rows[j].status == READY ::
          j in WithStatus(files[name], READY);
      files := files[name := claim.table];
      return claim.id, claim.data, true;
    }

    method UpdateStatus(name: string, id: int, status: int) returns (ok: bool)
      requires Consistent()
      modifies this`files
      ensures Consistent()
      ensures ok == (name in queues)
      ensures !ok ==> files == old(files)
      ensures ok ==> files == old(files)[name := SetStatus(old(files[name]), id, status)]
      ensures ok && id in old(files[name].rows) ==>
        var t := old(files[name]);
        files == old(files)[name := t.(rows := t.rows[id := Row(t.rows[id].data, status)])]
      ensures ok && id !in old(files[name].rows) ==> files == old(files)
    {
      if name !in queues {
        return false;
      }
      files := files[name := SetStatus(files[name], id, status)];
      return true;
    }

    method Size(name: string) returns (n: int, ok: bool)
      requires Consistent()
      ensures ok == (name in queues)
      ensures n == if ok then |set id | id in files[name].rows && files[name].rows[id].status == 0| else -1
    {
      if name !in queues {
        return -1, false;
      }
      assert WithStatus(files[name], READY) == set id | id in files[name].rows && files[name].rows[id].status == 0;
      return |WithStatus(files[name], READY)|, true;
    }

    method Ack(name: string, id: int) returns (ok: bool)
      requires Consistent()
      modifies this`files
      ensures Consistent()
      ensures ok == (name in queues)
      ensures files == if ok then old(files)[name := SetStatus(old(files[name]), id, 5)] else old(files)
    {
      ok := UpdateStatus(name, id, ACKED);
    }

    /** One pass of the endless cleanup loop, over the open queues in any order. */
    method CleanUpPass()
      requires Consistent()
      modifies this`files
      ensures Consistent()
      ensures files.Keys == old(files.Keys)
      ensures forall n | n in files && n !in queues :: files[n] == old(files[n])
      ensures forall n | n in queues :: files[n].nextId == old(files[n].nextId)
      ensures forall n, id | n in queues ::
        id in files[n].rows <==> id in old(files[n].rows) && old(files[n].rows[id].status) != 5
      ensures forall n, id | n in queues && id in files[n].rows ::
        files[n].rows[id] == old(files[n].rows[id])
      ensures forall n | n in queues :: files[n] == DeleteAcked(old(files[n]))
    {
      var todo := queues;
      while todo != {}
        invariant todo <= queues && Consistent() && files.Keys == old(files.Keys)
        invariant forall n | n in files && (n !in queues || n in todo) :: files[n] == old(files[n])
        invariant forall n | n in queues && n !in todo :: files[n] == DeleteAcked(old(files[n]))
        decreases todo
      {
        var name :| name in todo;
        files := files[name := DeleteAcked(files[name])];
        todo := todo - {name};
      }
    }
  }
}
