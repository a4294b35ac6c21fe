/** The store that the workers share, as an object they update in place. */
module EventStore {
  import opened Ids
  import opened Records
  import opened OutputRoutes
  import D = Delivery
  import F = Followers
  import T = Transcripts

  lemma PrecedesTotal(routes: map<string, Route>, a: string, b: string)
    requires a in routes && b in routes
    ensures Precedes(routes, a, b) || Precedes(routes, b, a)
  {
    T.TextLeTotal(a, b);
  }

  lemma PrecedesTransitive(routes: map<string, Route>, a: string, b: string, c: string)
    requires a in routes && b in routes && c in routes
    requires Precedes(routes, a, b) && Precedes(routes, b, c)
    ensures Precedes(routes, a, c)
  {
    if routes[a].updatedAt == routes[b].updatedAt == routes[c].updatedAt {
      T.TextLeTransitive(a, b, c);
    }
  }

  /** The enabled routes of the session, each once, in the order in which the store lists routes. */
  predicate IsOrderedListing(routes: map<string, Route>, session: string, listing: seq<string>) {
    D.IsListing(routes, session, listing) && forall i, j | 0 <= i < j < |listing| :: Precedes(routes, listing[i], listing[j])
  }

  /** The first of a set of routes. */
  method FirstOf(routes: map<string, Route>, ids: set<string>) returns (first: string)
    requires ids != {} && forall id | id in ids :: id in routes
    ensures first in ids && forall id | id in ids :: Precedes(routes, first, id)
  {
    first :| first in ids;
    var rest := ids - {first};
    PrecedesTotal(routes, first, first);
    while rest != {}
      invariant rest <= ids && first in ids
      invariant forall id | id in ids - rest :: Precedes(routes, first, id)
      decreases rest
    {
      var id :| id in rest;
      PrecedesTotal(routes, first, id);
      PrecedesTotal(routes, id, id);
      if !Precedes(routes, first, id) {
        forall other | other in ids - rest
          ensures Precedes(routes, id, other)
        {
          PrecedesTransitive(routes, id, first, other);
        }
        first := id;
      }
      rest := rest - {id};
    }
  }

  /**
    `writes` is the number of writes that will still succeed. The one after them fails, and
    then `spare` more succeed before all fail; a write that fails changes nothing. Every
    call below is proved for every value of both.
   */
  class Store {
    var inbound: map<int, Inbound>
    var routed: map<int, Routed>
    var rows: map<RowKey, Row>
    var tasks: map<TaskKey, Task>
    var routes: map<string, Route>
    var followers: map<string, Follower>
    var deliveries: map<string, Delivery>
    var world: World
    var writes: nat
    var spare: nat

    constructor (db: Db, writes: nat, spare: nat)
      ensures View() == db && this.writes == writes && this.spare == spare
    {
      inbound, routed, rows, tasks := db.inbound, db.routed, db.rows, db.tasks;
      routes, followers, deliveries, world := db.routes, db.followers, db.deliveries, db.world;
      this.writes, this.spare := writes, spare;
    }

    ghost function View(): Db
      reads this
    {
      Db(inbound, routed, rows, tasks, routes, followers, deliveries, world)
    }

    method MarkInboundEventStatus(u: int, status: InboundStatus) returns (ok: bool)
      modifies this`inbound, this`writes, this`spare
      ensures ok <==> old(writes) > 0
      ensures writes == if ok then old(writes) - 1 else old(spare)
      ensures spare == if ok then old(spare) else 0
      ensures View() == if ok && u in old(View()).inbound then old(View()).(inbound := old(View()).inbound[u := old(View()).inbound[u].(status := status)])
                        else old(View())
    {
      ok := writes > 0;
      if ok {
        writes := writes - 1;
        if u in inbound {
          inbound := inbound[u := inbound[u].(status := status)];
        }
      } else {
        writes, spare := spare, 0;
      }
    }

    method PutRoutedEvent(u: int, record: Routed) returns (ok: bool)
      modifies this`routed, this`writes, this`spare
      ensures ok <==> old(writes) > 0
      ensures writes == if ok then old(writes) - 1 else old(spare)
      ensures spare == if ok then old(spare) else 0
      ensures View() == if ok then old(View()).(routed := old(View()).routed[u := record]) else old(View())
    {
      ok := writes > 0;
      if ok {
        routed, writes := routed[u := record], writes - 1;
      } else {
        writes, spare := spare, 0;
      }
    }

    method PutEventOutbox(k: RowKey, payload: Envelope, now: int) returns (ok: bool)
      modifies this`rows, this`writes, this`spare
      ensures ok <==> old(writes) > 0
      ensures writes == if ok then old(writes) - 1 else old(spare)
      ensures spare == if ok then old(spare) else 0
      ensures View() == if ok then old(View()).(rows := old(View()).rows[k := NewRow(payload, now)]) else old(View())
    {
      ok := writes > 0;
      if ok {
        rows, writes := rows[k := NewRow(payload, now)], writes - 1;
      } else {
        writes, spare := spare, 0;
      }
    }

    method UpdateEventOutbox(updated: map<RowKey, Row>) returns (ok: bool)
      modifies this`rows, this`writes, this`spare
      ensures ok <==> old(writes) > 0
      ensures writes == if ok then old(writes) - 1 else old(spare)
      ensures spare == if ok then old(spare) else 0
      ensures View() == if ok then old(View()).(rows := updated) else old(View())
    {
      ok := writes > 0;
      if ok {
        rows, writes := updated, writes - 1;
      } else {
        writes, spare := spare, 0;
      }
    }

    method PutTaskRegistry(t: TaskKey, record: Task) returns (ok: bool)
      modifies this`tasks, this`writes, this`spare
      ensures ok <==> old(writes) > 0
      ensures writes == if ok then old(writes) - 1 else old(spare)
      ensures spare == if ok then old(spare) else 0
      ensures View() == if ok then old(View()).(tasks := old(View()).tasks[t := record]) else old(View())
    {
      ok := writes > 0;
      if ok {
        tasks, writes := tasks[t := record], writes - 1;
      } else {
        writes, spare := spare, 0;
      }
    }

    method PutSessionOutputRoute(id: string, record: Route) returns (ok: bool)
      modifies this`routes, this`writes, this`spare
      ensures ok <==> old(writes) > 0
      ensures writes == if ok then old(writes) - 1 else old(spare)
      ensures spare == if ok then old(spare) else 0
      ensures View() == if ok then old(View()).(routes := old(View()).routes[id := record]) else old(View())
    {
      ok := writes > 0;
      if ok {
        routes, writes := routes[id := record], writes - 1;
      } else {
        writes, spare := spare, 0;
      }
    }

    method PutTaskFollower(id: string, record: Follower) returns (ok: bool)
      modifies this`followers, this`writes, this`spare
      ensures ok <==> old(writes) > 0
      ensures writes == if ok then old(writes) - 1 else old(spare)
      ensures spare == if ok then old(spare) else 0
      ensures View() == if ok then old(View()).(followers := old(View()).followers[id := record]) else old(View())
    {
      ok := writes > 0;
      if ok {
        followers, writes := followers[id := record], writes - 1;
      } else {
        writes, spare := spare, 0;
      }
    }

    method PutEventDelivery(id: string, record: Delivery) returns (ok: bool)
      modifies this`deliveries, this`writes, this`spare
      ensures ok <==> old(writes) > 0
      ensures writes == if ok then old(writes) - 1 else old(spare)
      ensures spare == if ok then old(spare) else 0
      ensures View() == if ok then old(View()).(deliveries := old(View()).deliveries[id := record]) else old(View())
    {
      ok := writes > 0;
      if ok {
        deliveries, writes := deliveries[id := record], writes - 1;
      } else {
        writes, spare := spare, 0;
      }
    }

    method PutWorld(changed: World) returns (ok: bool)
      modifies this`world, this`writes, this`spare
      ensures ok <==> old(writes) > 0
      ensures writes == if ok then old(writes) - 1 else old(spare)
      ensures spare == if ok then old(spare) else 0
      ensures View() == if ok then old(View()).(world := changed) else old(View())
    {
      ok := writes > 0;
      if ok {
        world, writes := changed, writes - 1;
      } else {
        writes, spare := spare, 0;
      }
    }

    method ListEnabledSessionOutputRoutes(session: string) returns (listing: seq<string>)
      ensures IsOrderedListing(routes, session, listing)
    {
      var rest := set id | id in routes && routes[id].enabled && routes[id].session == session;
      listing := [];
      while rest != {}
        invariant forall id :: (id in rest || id in listing) <==> id in routes && routes[id].enabled && routes[id].session == session
        invariant forall id | id in rest :: id !in listing
        invariant forall i, id | 0 <= i < |listing| && id in rest :: Precedes(routes, listing[i], id)
        invariant forall i, j | 0 <= i < j < |listing| :: Precedes(routes, listing[i], listing[j]) && listing[i] != listing[j]
        decreases rest
      {
        var id := FirstOf(routes, rest);
        listing := listing + [id];
        rest := rest - {id};
      }
    }

    method ListEnabledTaskFollowers(t: TaskKey) returns (listing: seq<string>)
      ensures F.IsFollowerListing(followers, t, listing)
    {
      var rest := set id | id in followers && followers[id].enabled && followers[id].task == t;
      listing := [];
      while rest != {}
        invariant forall id :: (id in rest || id in listing) <==> id in followers && followers[id].enabled && followers[id].task == t
        invariant forall id | id in rest :: id !in listing
        invariant D.AreDistinct(listing)
        decreases rest
      {
        var id :| id in rest;
        listing := listing + [id];
        rest := rest - {id};
      }
    }
  }
}
