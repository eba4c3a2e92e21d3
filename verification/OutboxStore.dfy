/** matrix_outbox as the table the gateway updates in place. */
module OutboxStoreModel {
  import opened Basics
  import opened Ordering
  import opened Outbox

  class OutboxStore {
    var rows: Rows

    constructor ()
      ensures rows == map[]
    {
      rows := map[];
    }

    /** A second notification with the same id is ignored. */
    method EnqueueMatrix(id: string, row: Row) returns (queued: bool)
      modifies this
      ensures rows == Outbox.EnqueueMatrix(old(rows), id, row) && queued == (id !in old(rows))
      ensures queued ==> id in rows && rows[id] == row.(sent := None)
      ensures forall x | x in old(rows) :: x in rows && rows[x] == old(rows)[x]
    {
      queued := id !in rows;
      if queued {
        rows := rows[id := row.(sent := None)];
      }
    }

    method PendingMatrix(b: Sender, limit: nat) returns (items: seq<Item>)
      ensures items == Outbox.PendingMatrix(rows, b, limit)
      ensures FirstPage(rows, b, limit, items)
    {
      PollIsFirstPage(rows, b, limit);
      hide FirstPage;
      var ids := FirstRows(Due(rows, b), limit);
      items := [];
      var i := 0;
      while i < |ids|
        invariant i <= |ids| && items == ItemsOf(rows, ids[..i])
      {
        items := items + [ItemOf(rows, ids[i])];
        i := i + 1;
      }
      assert ids[..i] == ids;
    }

    /** Acknowledging again, with whatever event id, changes nothing. */
    method CompleteMatrix(id: string, ev: Ref) returns (completed: bool)
      modifies this
      ensures rows == Outbox.CompleteMatrix(old(rows), id, ev)
      ensures completed == (id in old(rows) && old(rows)[id].sent.None?)
      ensures completed ==> IsSent(rows, id) && rows[id].sent.value == ev
      ensures forall x | x in old(rows) && x != id :: x in rows && rows[x] == old(rows)[x]
    {
      completed := id in rows && rows[id].sent.None?;
      if completed {
        rows := rows[id := rows[id].(sent := Some(ev))];
      }
    }
  }
}
