/**
  One poll of the outbox relay (backend/src/doda/infrastructure/outbox_relay.py): claim a batch of
  unpublished rows that no other relay has locked, put a copy of each on the stream, mark it published.
  ActionProtocol interleaves these moves row by row with crashes in between.
*/
module OutboxRelay {

  datatype Row = Row(id: int, published: bool, attempts: nat)

  // The rows the SELECT ... LIMIT ... FOR UPDATE SKIP LOCKED returns, oldest first, from index `i` on.
  function Picked(rows: seq<Row>, locked: set<int>, limit: nat, i: nat): (p: seq<nat>)
    requires i <= |rows|
    ensures |p| <= limit
    ensures forall k :: 0 <= k < |p| ==> i <= p[k] < |rows| && !rows[p[k]].published && rows[p[k]].id !in locked
    ensures forall k, m :: 0 <= k < m < |p| ==> p[k] < p[m]
    decreases |rows| - i
  {
    if i == |rows| || limit == 0 then []
    else if !rows[i].published && rows[i].id !in locked then [i] + Picked(rows, locked, limit - 1, i + 1)
    else Picked(rows, locked, limit, i + 1)
  }

  // Nothing older is passed over: a free unpublished row is left out only when the batch is full of older ones.
  lemma {:induction false} PickedOldestFirst(rows: seq<Row>, locked: set<int>, limit: nat, i: nat, r: nat)
    requires i <= r < |rows| && !rows[r].published && rows[r].id !in locked
    ensures var p := Picked(rows, locked, limit, i);
      r in p || (|p| == limit && forall k :: 0 <= k < |p| ==> p[k] < r)
    decreases |rows| - i
  {
    if limit > 0 && i < r {
      if !rows[i].published && rows[i].id !in locked {
        PickedOldestFirst(rows, locked, limit - 1, i + 1, r);
      } else {
        PickedOldestFirst(rows, locked, limit, i + 1, r);
      }
    }
  }

  function Marked(r: Row): Row { r.(published := true, attempts := r.attempts + 1) }

  // What a poll leaves of the rows: the picked ones published, with one attempt more.
  ghost predicate AfterPoll(rows: seq<Row>, locked: set<int>, limit: nat, after: seq<Row>) {
    && |after| == |rows|
    && forall i :: 0 <= i < |rows| ==>
         && after[i].id == rows[i].id
         && (after[i].published <==> rows[i].published || i in Picked(rows, locked, limit, 0))
         && after[i].attempts == rows[i].attempts + if i in Picked(rows, locked, limit, 0) then 1 else 0
  }

  // No row is picked twice: whatever a later poll finds locked, it picks none of the rows of this one.
  lemma PolledOnce(rows: seq<Row>, locked: set<int>, limit: nat, after: seq<Row>, locked2: set<int>, limit2: nat, i: nat)
    requires AfterPoll(rows, locked, limit, after) && i in Picked(rows, locked, limit, 0)
    ensures i !in Picked(after, locked2, limit2, 0)
  {
    assert i < |rows| && after[i].published;
  }

  // And none is forgotten: a poll with room for all publishes every row that was not locked.
  lemma AllPublished(rows: seq<Row>, locked: set<int>, limit: nat, after: seq<Row>, i: nat)
    requires AfterPoll(rows, locked, limit, after) && limit > |rows| && i < |rows|
    ensures after[i].published <==> rows[i].published || rows[i].id !in locked
  {
    if !rows[i].published && rows[i].id !in locked {
      PickedOldestFirst(rows, locked, limit, 0, i);
      PickedFit(rows, locked, limit, 0);
    }
  }

  lemma {:induction false} PickedFit(rows: seq<Row>, locked: set<int>, limit: nat, i: nat)
    requires i <= |rows|
    ensures |Picked(rows, locked, limit, i)| <= |rows| - i
    decreases |rows| - i
  {
    if i < |rows| && limit > 0 {
      PickedFit(rows, locked, limit - 1, i + 1);
      PickedFit(rows, locked, limit, i + 1);
    }
  }

  class Outbox {
    var rows: seq<Row>
    var stream: seq<int>  // the row ids of the copies put on the stream

    // Exactly the picked rows are marked, each of them got exactly one copy, in order.
    method RelayOnce(locked: set<int>, batchSize: nat) returns (published: nat)
      modifies this
      ensures published == |Picked(old(rows), locked, batchSize, 0)|
      ensures AfterPoll(old(rows), locked, batchSize, rows)
      ensures |stream| == |old(stream)| + published && old(stream) <= stream
      ensures forall k :: 0 <= k < published ==>
          stream[|old(stream)| + k] == old(rows)[Picked(old(rows), locked, batchSize, 0)[k]].id
    {
      var result := Picked(rows, locked, batchSize, 0);
      published := 0;
      while published < |result|
        invariant published <= |result| && |rows| == |old(rows)|
        invariant forall i :: 0 <= i < |rows| ==>
            rows[i] == if i in result[..published] then Marked(old(rows)[i]) else old(rows)[i]
        invariant |stream| == |old(stream)| + published && old(stream) <= stream
        invariant forall k :: 0 <= k < published ==> stream[|old(stream)| + k] == old(rows)[result[k]].id
      {
        var i := result[published];
        assert i !in result[..published];
        assert result[..published + 1] == result[..published] + [i];
        stream := stream + [rows[i].id];
        rows := rows[i := Marked(rows[i])];
        published := published + 1;
      }
      assert result[..|result|] == result;
    }
  }
}
