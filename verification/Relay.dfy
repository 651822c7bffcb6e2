/**
  How one service's outbox reaches another service's handlers: change-data-capture ships outbox rows
  onto a partitioned topic (the connectors under infra/debezium), a consumer group reads every partition
  in offset order (shared/kafka_consumer.py), and an inbox table of claimed event ids
  (shared/inbox.py) absorbs whatever the connector or the consumer delivers again.

  The invariant below says what the chain guarantees to one booking: the messages claimed so far are
  a prefix of the messages sent, whatever was re-published, redelivered or restarted.
*/
module Relay {
  import opened Tables

  // An outbox row. `key` is its aggregateid, the id of a booking, which also keys the Kafka record.
  datatype Msg<T> = Msg(id: Uuid, key: Uuid, body: T)

  // A topic partition, with the consumer's next offset and the last offset it committed.
  datatype Partition<T> = Partition(log: seq<Msg<T>>, position: nat, committed: nat)

  // `cursor` is how far the connector has read the outbox; `hash` is the producer's partitioner.
  datatype Link<!T> = Link(hash: Uuid -> nat, cursor: nat, parts: seq<Partition<T>>)

  predicate Used<T>(outbox: seq<Msg<T>>, id: Uuid) {
    exists j | 0 <= j < |outbox| :: outbox[j].id == id
  }

  // ----- steps of the transport -----

  ghost function Home<T>(link: Link<T>, key: Uuid): (q: nat)
    requires |link.parts| > 0
    ensures q < |link.parts|
  {
    link.hash(key) % |link.parts|
  }

  ghost function Update<T>(link: Link<T>, q: nat, p: Partition<T>): Link<T>
    requires q < |link.parts|
  {
    link.(parts := link.parts[q := p])
  }

  ghost function Ship<T>(link: Link<T>, outbox: seq<Msg<T>>): Link<T>
    requires |link.parts| > 0
  {
    if link.cursor < |outbox| then
      var m := outbox[link.cursor];
      var p := link.parts[Home(link, m.key)];
      Update(link, Home(link, m.key), p.(log := p.log + [m])).(cursor := link.cursor + 1)
    else link
  }

  // The connector restarts from an older position and will publish the rows after it again.
  ghost function Rewind<T>(link: Link<T>, cursor: nat): Link<T> {
    if cursor <= link.cursor then link.(cursor := cursor) else link
  }

  ghost predicate HasNext<T>(link: Link<T>, q: nat) {
    q < |link.parts| && link.parts[q].position < |link.parts[q].log|
  }

  ghost function Next<T>(link: Link<T>, q: nat): Msg<T>
    requires HasNext(link, q)
  {
    link.parts[q].log[link.parts[q].position]
  }

  ghost function Advance<T>(link: Link<T>, q: nat): Link<T>
    requires HasNext(link, q)
  {
    Update(link, q, link.parts[q].(position := link.parts[q].position + 1))
  }

  ghost function CommitOffset<T>(link: Link<T>, q: nat): Link<T> {
    if q < |link.parts| then Update(link, q, link.parts[q].(committed := link.parts[q].position)) else link
  }

  // A failed or crashed consumer comes back at its committed offset.
  ghost function Restart<T>(link: Link<T>, q: nat): Link<T> {
    if q < |link.parts| then Update(link, q, link.parts[q].(position := link.parts[q].committed)) else link
  }

  // ----- the invariant -----

  ghost predicate Distinct<T>(outbox: seq<Msg<T>>) {
    forall i, j | 0 <= i < j < |outbox| :: outbox[i].id != outbox[j].id
  }

  ghost predicate Sourced<T>(outbox: seq<Msg<T>>, link: Link<T>)
    requires |link.parts| > 0
  {
    forall q, i | 0 <= q < |link.parts| && 0 <= i < |link.parts[q].log| ::
      link.parts[q].log[i] in outbox && Home(link, link.parts[q].log[i].key) == q
  }

  ghost predicate Shipped<T>(outbox: seq<Msg<T>>, link: Link<T>)
    requires |link.parts| > 0
  {
    link.cursor <= |outbox|
    && forall j | 0 <= j < link.cursor :: outbox[j] in link.parts[Home(link, outbox[j].key)].log
  }

  // Every row of partition q that precedes outbox row k occurs in `before`.
  ghost predicate Preceded<T>(outbox: seq<Msg<T>>, link: Link<T>, q: nat, k: nat, before: seq<Msg<T>>)
    requires |link.parts| > 0 && k < |outbox|
  {
    forall j | 0 <= j < k && Home(link, outbox[j].key) == q :: outbox[j] in before
  }

  // A record's first copy comes after the first copies of everything sent before it.
  ghost predicate Ordered<T>(outbox: seq<Msg<T>>, link: Link<T>)
    requires |link.parts| > 0
  {
    forall q, i, k | 0 <= q < |link.parts| && 0 <= i < |link.parts[q].log| && 0 <= k < |outbox|
      && link.parts[q].log[i] == outbox[k] ::
      Preceded(outbox, link, q, k, link.parts[q].log[..i])
  }

  ghost predicate Consumed<T>(link: Link<T>, inbox: set<Uuid>) {
    forall q | 0 <= q < |link.parts| ::
      link.parts[q].committed <= link.parts[q].position <= |link.parts[q].log|
      && forall i | 0 <= i < link.parts[q].position :: link.parts[q].log[i].id in inbox
  }

  // What is claimed is a prefix of every partition's share of the outbox.
  ghost predicate ClaimedInOrder<T>(outbox: seq<Msg<T>>, link: Link<T>, inbox: set<Uuid>)
    requires |link.parts| > 0
  {
    && (forall x | x in inbox :: Used(outbox, x))
    && forall j, k | 0 <= j < k < |outbox| && Home(link, outbox[j].key) == Home(link, outbox[k].key)
         && outbox[k].id in inbox :: outbox[j].id in inbox
  }

  ghost predicate Inv<T>(outbox: seq<Msg<T>>, link: Link<T>, inbox: set<Uuid>) {
    && |link.parts| > 0
    && Distinct(outbox)
    && Sourced(outbox, link)
    && Shipped(outbox, link)
    && Ordered(outbox, link)
    && Consumed(link, inbox)
    && ClaimedInOrder(outbox, link, inbox)
  }

  lemma AppendKeepsInv<T>(outbox: seq<Msg<T>>, link: Link<T>, inbox: set<Uuid>, m: Msg<T>)
    requires Inv(outbox, link, inbox) && !Used(outbox, m.id)
    ensures Inv(outbox + [m], link, inbox)
  {
    var outbox' := outbox + [m];
    forall q, i, k | 0 <= q < |link.parts| && 0 <= i < |link.parts[q].log| && 0 <= k < |outbox'|
      && link.parts[q].log[i] == outbox'[k]
      ensures Preceded(outbox', link, q, k, link.parts[q].log[..i])
    {
      assert link.parts[q].log[i] in outbox;
      assert k < |outbox| && Preceded(outbox, link, q, k, link.parts[q].log[..i]);
    }
    forall x | x in inbox ensures Used(outbox', x) {
      var j :| 0 <= j < |outbox| && outbox[j].id == x;
      assert outbox'[j].id == x;
    }
  }

  // The row shipped next finds everything sent before it on its partition already.
  lemma ShipKeepsOrdered<T>(outbox: seq<Msg<T>>, link: Link<T>)
    requires |link.parts| > 0 && link.cursor < |outbox|
    requires Distinct(outbox) && Shipped(outbox, link) && Ordered(outbox, link)
    ensures Ordered(outbox, Ship(link, outbox))
  {
    var m := outbox[link.cursor];
    var h := Home(link, m.key);
    var link' := Ship(link, outbox);
    assert forall b :: Home(link', b) == Home(link, b);
    assert forall q | 0 <= q < |link.parts| && q != h :: link'.parts[q] == link.parts[q];
    var old_log, log := link.parts[h].log, link'.parts[h].log;
    forall q, i, k | 0 <= q < |link'.parts| && 0 <= i < |link'.parts[q].log| && 0 <= k < |outbox|
      && link'.parts[q].log[i] == outbox[k]
      ensures Preceded(outbox, link', q, k, link'.parts[q].log[..i])
    {
      if q == h && i == |old_log| {
        assert k == link.cursor;
        assert log[..i] == old_log;
      } else if q == h {
        assert log[i] == old_log[i] && log[..i] == old_log[..i];
        assert Preceded(outbox, link, q, k, old_log[..i]);
      } else {
        assert Preceded(outbox, link, q, k, link.parts[q].log[..i]);
      }
    }
  }

  lemma ShipKeepsInv<T>(outbox: seq<Msg<T>>, link: Link<T>, inbox: set<Uuid>)
    requires Inv(outbox, link, inbox)
    ensures Inv(outbox, Ship(link, outbox), inbox)
  {
    hide Ordered, Distinct;
    if link.cursor < |outbox| {
      var m := outbox[link.cursor];
      var h := Home(link, m.key);
      var link' := Ship(link, outbox);
      ShipKeepsOrdered(outbox, link);
      assert forall b :: Home(link', b) == Home(link, b);
      assert forall q | 0 <= q < |link.parts| && q != h :: link'.parts[q] == link.parts[q];
      var old_log, log := link.parts[h].log, link'.parts[h].log;
      assert log == old_log + [m];
      forall j | 0 <= j < link'.cursor
        ensures outbox[j] in link'.parts[Home(link', outbox[j].key)].log
      {
        if j == link.cursor {
          assert log[|old_log|] == m;
        } else {
          assert outbox[j] in link.parts[Home(link, outbox[j].key)].log;
        }
      }
    }
  }

  lemma RewindKeepsInv<T>(outbox: seq<Msg<T>>, link: Link<T>, inbox: set<Uuid>, cursor: nat)
    requires Inv(outbox, link, inbox)
    ensures Inv(outbox, Rewind(link, cursor), inbox)
  {
    var link' := Rewind(link, cursor);
    assert forall b :: Home(link', b) == Home(link, b);
    forall q, i, k | 0 <= q < |link'.parts| && 0 <= i < |link'.parts[q].log| && 0 <= k < |outbox|
      && link'.parts[q].log[i] == outbox[k]
      ensures Preceded(outbox, link', q, k, link'.parts[q].log[..i])
    {
      assert Preceded(outbox, link, q, k, link.parts[q].log[..i]);
    }
  }

  // Moving offsets within what is claimed disturbs nothing.
  lemma OffsetsKeepInv<T>(outbox: seq<Msg<T>>, link: Link<T>, inbox: set<Uuid>, q: nat, p: Partition<T>)
    requires Inv(outbox, link, inbox) && q < |link.parts|
    requires p.log == link.parts[q].log && p.committed <= p.position <= |p.log|
    requires forall i | 0 <= i < p.position :: p.log[i].id in inbox
    ensures Inv(outbox, Update(link, q, p), inbox)
  {
    var link' := Update(link, q, p);
    assert forall b :: Home(link', b) == Home(link, b);
    assert forall r | 0 <= r < |link.parts| :: link'.parts[r].log == link.parts[r].log;
    forall r, i, k | 0 <= r < |link'.parts| && 0 <= i < |link'.parts[r].log| && 0 <= k < |outbox|
      && link'.parts[r].log[i] == outbox[k]
      ensures Preceded(outbox, link', r, k, link'.parts[r].log[..i])
    {
      assert Preceded(outbox, link, r, k, link.parts[r].log[..i]);
    }
  }

  lemma CommitKeepsInv<T>(outbox: seq<Msg<T>>, link: Link<T>, inbox: set<Uuid>, q: nat)
    requires Inv(outbox, link, inbox)
    ensures Inv(outbox, CommitOffset(link, q), inbox)
  {
    if q < |link.parts| {
      OffsetsKeepInv(outbox, link, inbox, q, link.parts[q].(committed := link.parts[q].position));
    }
  }

  lemma RestartKeepsInv<T>(outbox: seq<Msg<T>>, link: Link<T>, inbox: set<Uuid>, q: nat)
    requires Inv(outbox, link, inbox)
    ensures Inv(outbox, Restart(link, q), inbox)
  {
    if q < |link.parts| {
      OffsetsKeepInv(outbox, link, inbox, q, link.parts[q].(position := link.parts[q].committed));
    }
  }

  // A record handled after the last commit is read again after a restart, and nothing before it.
  lemma UncommittedIsReread<T>(link: Link<T>, q: nat)
    requires HasNext(link, q)
    ensures Restart(Advance(CommitOffset(link, q), q), q) == CommitOffset(link, q)
    ensures HasNext(CommitOffset(link, q), q) && Next(CommitOffset(link, q), q) == Next(link, q)
  {
    var link' := Restart(Advance(CommitOffset(link, q), q), q);
    assert link'.parts == CommitOffset(link, q).parts;
  }

  // A connector that went back publishes the row it went back to once more, on its key's partition.
  lemma RewoundRowIsShippedAgain<T>(outbox: seq<Msg<T>>, link: Link<T>, cursor: nat)
    requires |link.parts| > 0 && cursor < link.cursor <= |outbox|
    ensures var link', q := Ship(Rewind(link, cursor), outbox), Home(link, outbox[cursor].key);
      && link'.cursor == cursor + 1 && |link'.parts| == |link.parts|
      && link'.parts[q].log == link.parts[q].log + [outbox[cursor]]
      && forall r | 0 <= r < |link.parts| && r != q :: link'.parts[r] == link.parts[r]
  {
  }

  // The record a consumer reads next is outbox row k, and everything its partition was sent before
  // row k is claimed already.
  lemma NextIsDue<T>(outbox: seq<Msg<T>>, link: Link<T>, inbox: set<Uuid>, q: nat) returns (k: nat)
    requires Inv(outbox, link, inbox) && HasNext(link, q)
    ensures k < |outbox| && outbox[k] == Next(link, q)
    ensures forall j | 0 <= j < k && Home(link, outbox[j].key) == q :: outbox[j].id in inbox
    ensures Home(link, outbox[k].key) == q
  {
    var p := link.parts[q];
    k :| 0 <= k < |outbox| && outbox[k] == p.log[p.position];
    assert Preceded(outbox, link, q, k, p.log[..p.position]);
    forall j | 0 <= j < k && Home(link, outbox[j].key) == q ensures outbox[j].id in inbox {
      assert outbox[j] in p.log[..p.position];
      var i :| 0 <= i < p.position && p.log[i] == outbox[j];
    }
  }

  lemma ClaimKeepsInv<T>(outbox: seq<Msg<T>>, link: Link<T>, inbox: set<Uuid>, q: nat)
    requires Inv(outbox, link, inbox) && HasNext(link, q)
    ensures Inv(outbox, Advance(link, q), inbox + {Next(link, q).id})
  {
    var k := NextIsDue(outbox, link, inbox, q);
    var inbox' := inbox + {outbox[k].id};
    assert Used(outbox, outbox[k].id);
    assert Inv(outbox, link, inbox') by {
      forall i, j | 0 <= i < j < |outbox| && Home(link, outbox[i].key) == Home(link, outbox[j].key)
        && outbox[j].id in inbox'
        ensures outbox[i].id in inbox'
      {
        if outbox[j].id !in inbox { assert j == k; }
      }
    }
    OffsetsKeepInv(outbox, link, inbox', q, link.parts[q].(position := link.parts[q].position + 1));
  }

  // ----- what one booking sees: a queue with a read mark -----

  function Sent<T>(outbox: seq<Msg<T>>, b: Uuid): seq<T> {
    if outbox == [] then []
    else
      var m := outbox[|outbox| - 1];
      Sent(outbox[..|outbox| - 1], b) + if m.key == b then [m.body] else []
  }

  function Taken<T>(outbox: seq<Msg<T>>, inbox: set<Uuid>, b: Uuid): (n: nat)
    ensures n <= |Sent(outbox, b)|
  {
    if outbox == [] then 0
    else
      var m := outbox[|outbox| - 1];
      Taken(outbox[..|outbox| - 1], inbox, b) + if m.key == b && m.id in inbox then 1 else 0
  }

  lemma SentAppend<T>(outbox: seq<Msg<T>>, inbox: set<Uuid>, m: Msg<T>, b: Uuid)
    requires m.id !in inbox
    ensures Sent(outbox + [m], b) == Sent(outbox, b) + if m.key == b then [m.body] else []
    ensures Taken(outbox + [m], inbox, b) == Taken(outbox, inbox, b)
  {
    assert (outbox + [m])[..|outbox|] == outbox;
  }

  lemma {:induction false} ClaimElsewhere<T>(outbox: seq<Msg<T>>, inbox: set<Uuid>, id: Uuid, b: Uuid)
    requires forall j | 0 <= j < |outbox| && outbox[j].key == b :: outbox[j].id != id
    ensures Taken(outbox, inbox + {id}, b) == Taken(outbox, inbox, b)
  {
    if outbox != [] {
      ClaimElsewhere(outbox[..|outbox| - 1], inbox, id, b);
    }
  }

  lemma {:induction false} AllTaken<T>(outbox: seq<Msg<T>>, inbox: set<Uuid>, b: Uuid)
    requires forall j | 0 <= j < |outbox| && outbox[j].key == b :: outbox[j].id in inbox
    ensures Taken(outbox, inbox, b) == |Sent(outbox, b)|
  {
    if outbox != [] {
      AllTaken(outbox[..|outbox| - 1], inbox, b);
    }
  }

  // Claiming row k of the outbox, its booking's first unclaimed row, reads that booking's next message.
  lemma {:induction false} ClaimTakesNext<T>(outbox: seq<Msg<T>>, inbox: set<Uuid>, k: nat)
    requires Distinct(outbox) && k < |outbox|
    requires forall j | 0 <= j < k && outbox[j].key == outbox[k].key :: outbox[j].id in inbox
    requires forall j | k <= j < |outbox| && outbox[j].key == outbox[k].key :: outbox[j].id !in inbox
    ensures var b := outbox[k].key; var n := Taken(outbox, inbox, b);
      && n < |Sent(outbox, b)| && Sent(outbox, b)[n] == outbox[k].body
      && Taken(outbox, inbox + {outbox[k].id}, b) == n + 1
  {
    var init := outbox[..|outbox| - 1];
    if k == |outbox| - 1 {
      AllTaken(init, inbox, outbox[k].key);
      ClaimElsewhere(init, inbox, outbox[k].id, outbox[k].key);
    } else {
      assert init[k] == outbox[k];
      ClaimTakesNext(init, inbox, k);
    }
  }

  // One consumed record is one message of one booking, the next it had not seen; nothing else moves.
  lemma ConsumeTakesNext<T>(outbox: seq<Msg<T>>, link: Link<T>, inbox: set<Uuid>, q: nat)
    requires Inv(outbox, link, inbox) && HasNext(link, q) && Next(link, q).id !in inbox
    ensures var m := Next(link, q); var n := Taken(outbox, inbox, m.key);
      && n < |Sent(outbox, m.key)| && Sent(outbox, m.key)[n] == m.body
      && Taken(outbox, inbox + {m.id}, m.key) == n + 1
      && forall b | b != m.key :: Taken(outbox, inbox + {m.id}, b) == Taken(outbox, inbox, b)
  {
    var k := NextIsDue(outbox, link, inbox, q);
    ClaimTakesNext(outbox, inbox, k);
    forall b | b != outbox[k].key
      ensures Taken(outbox, inbox + {outbox[k].id}, b) == Taken(outbox, inbox, b)
    {
      forall j | 0 <= j < |outbox| && outbox[j].key == b ensures outbox[j].id != outbox[k].id {
        if j != k { assert outbox[if j < k then j else k].id != outbox[if j < k then k else j].id; }
      }
      ClaimElsewhere(outbox, inbox, outbox[k].id, b);
    }
  }

  // Everything is on the topic and every partition is read to its end.
  ghost predicate Empty<T>(outbox: seq<Msg<T>>, link: Link<T>) {
    link.cursor == |outbox|
    && forall q | 0 <= q < |link.parts| :: link.parts[q].position == |link.parts[q].log|
  }

  // Then every row of the outbox has been claimed: nothing was lost on the way.
  lemma NothingIsLost<T>(outbox: seq<Msg<T>>, link: Link<T>, inbox: set<Uuid>)
    requires Inv(outbox, link, inbox) && Empty(outbox, link)
    ensures forall j | 0 <= j < |outbox| :: outbox[j].id in inbox
  {
    forall j | 0 <= j < |outbox| ensures outbox[j].id in inbox {
      var p := link.parts[Home(link, outbox[j].key)];
      var i :| 0 <= i < |p.log| && p.log[i] == outbox[j];
      assert p.log[i].id in inbox;
    }
  }
}
