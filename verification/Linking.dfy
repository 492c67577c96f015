/** The specification: particles within the linking length are linked, and a group is a connected
    component of that graph, named by its least particle order. */
module Linking {
  import opened Geometry
  import opened Graph

  ghost function LinkGraph(parts: seq<Particle>, rule: Rule): Edges {
    iset i, j | 0 <= i < |parts| && 0 <= j < |parts| && Linked(parts[i], parts[j], rule) ::
      (parts[i].order as int, parts[j].order as int)
  }

  ghost predicate DistinctOrders(parts: seq<Particle>) {
    forall i, j :: 0 <= i < j < |parts| ==> parts[i].order != parts[j].order
  }

  /** All particles within reach of the periodic box bound: true when the coordinates were wrapped
      into one period. */
  ghost predicate AllReached(parts: seq<Particle>, rule: Rule) {
    forall i, j {:trigger Reached(parts[i].pos, parts[j].pos, rule.period)} ::
      0 <= i < |parts| && 0 <= j < |parts| ==> Reached(parts[i].pos, parts[j].pos, rule.period)
  }

  lemma LinkedConn(parts: seq<Particle>, rule: Rule, i: nat, j: nat)
    requires i < |parts| && j < |parts| && Linked(parts[i], parts[j], rule)
    ensures Conn(LinkGraph(parts, rule), parts[i].order, parts[j].order)
    ensures Conn(LinkGraph(parts, rule), parts[j].order, parts[i].order)
  {
    var L := LinkGraph(parts, rule);
    assert (parts[i].order as int, parts[j].order as int) in L;
    ConnEdge(L, parts[i].order, parts[j].order);
    ConnSym(L, parts[i].order, parts[j].order);
  }

  lemma LinkGraphGrows(parts: seq<Particle>, more: seq<Particle>, rule: Rule)
    requires forall p :: p in parts ==> p in more
    ensures LinkGraph(parts, rule) <= LinkGraph(more, rule)
  {
    forall e | e in LinkGraph(parts, rule)
      ensures e in LinkGraph(more, rule)
    {
      var i, j :| 0 <= i < |parts| && 0 <= j < |parts| && Linked(parts[i], parts[j], rule)
               && e == (parts[i].order as int, parts[j].order as int);
      assert parts[i] in more && parts[j] in more;
      var k :| 0 <= k < |more| && more[k] == parts[i];
      var l :| 0 <= l < |more| && more[l] == parts[j];
    }
  }
}
