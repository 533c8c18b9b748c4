/** packages/mesh/src/mesh.js: phones that carry envelopes, and the links they pass them over. */
module Mesh {
  import opened Bytes

  type NodeId = string
  type Fingerprint = string

  datatype Carried = Carried(wire: bytes, hops: nat)
  type Holding = map<Fingerprint, Carried>

  class MeshNode {
    const id: NodeId
    const isBridge: bool
    const fingerprint: bytes -> Fingerprint
    var held: Holding

    constructor (id: NodeId, isBridge: bool, fingerprint: bytes -> Fingerprint)
      ensures this.id == id && this.isBridge == isBridge && this.fingerprint == fingerprint && held == map[]
    {
      this.id, this.isBridge, this.fingerprint := id, isBridge, fingerprint;
      held := map[];
    }

    /** The first copy stays, with the hops it came by. */
    method Hold(wire: bytes, hops: nat) returns (taken: bool)
      modifies this`held
      ensures taken <==> fingerprint(wire) !in old(held)
      ensures held == if taken then old(held)[fingerprint(wire) := Carried(wire, hops)] else old(held)
    {
      var key := fingerprint(wire);
      if key in held {
        return false;
      }
      held := held[key := Carried(wire, hops)];
      return true;
    }

    method Forget(key: Fingerprint)
      modifies this`held
      ensures held == old(held) - {key}
    {
      held := held - {key};
    }
  }

  // ---------------------------------------------------------------------------------------------
  // What a round does, without saying in which order
  // ---------------------------------------------------------------------------------------------

  type Holdings = map<NodeId, Holding>
  type Offer = (NodeId, NodeId)

  predicate Reachable(partitioned: set<NodeId>, a: NodeId, b: NodeId) {
    partitioned == {} || (a in partitioned <==> b in partitioned)
  }

  /** Both directions of a link, unless the partition closes it. */
  function BothWays(link: Offer, partitioned: set<NodeId>): seq<Offer> {
    if Reachable(partitioned, link.0, link.1) then [link, (link.1, link.0)] else []
  }

  function Offers(links: seq<Offer>, partitioned: set<NodeId>): seq<Offer> {
    if links == [] then [] else Offers(links[..|links| - 1], partitioned) + BothWays(links[|links| - 1], partitioned)
  }

  /** An open direction is one of a link that no partition cuts. */
  lemma {:induction false} OffersAreOpenLinks(links: seq<Offer>, partitioned: set<NodeId>, a: NodeId, b: NodeId)
    ensures (a, b) in Offers(links, partitioned) <==>
            && ((a, b) in links || (b, a) in links)
            && (partitioned == {} || ((a in partitioned) == (b in partitioned)))
  {
    if links != [] {
      var front, last := links[..|links| - 1], links[|links| - 1];
      assert links == front + [last];
      assert (a, b) in BothWays(last, partitioned)
          <==> ((a, b) == last || (b, a) == last) && Reachable(partitioned, a, b);
      OffersAreOpenLinks(front, partitioned, a, b);
    }
  }

  function OneHopOn(c: Carried): Carried {
    Carried(c.wire, c.hops + 1)
  }

  /** What one phone holds after being offered all that another held; only a lossy link may lose any of it. */
  ghost predicate HandedOver(source: Holding, before: Holding, after: Holding, lossy: bool) {
    && (forall k :: k in before ==> k in after && after[k] == before[k])
    && (forall k :: k in after && k !in before ==> k in source && after[k] == OneHopOn(source[k]))
    && (!lossy ==> forall k :: k in source ==> k in after)
  }

  ghost predicate CameBy(before: Holdings, offers: seq<Offer>, m: NodeId, n: NodeId, k: Fingerprint, c: Carried) {
    (m, n) in offers && m in before && k in before[m] && c == OneHopOn(before[m][k])
  }

  ghost predicate NothingForgotten(before: Holdings, after: Holdings) {
    forall n, k :: n in before && k in before[n] ==> n in after && k in after[n] && after[n][k] == before[n][k]
  }

  /** Everything new came over one open link from a phone that held it before the round. */
  ghost predicate NewCameOneHop(before: Holdings, after: Holdings, offers: seq<Offer>) {
    forall n, k :: n in after && n in before && k in after[n] && k !in before[n] ==>
      exists m :: CameBy(before, offers, m, n, k, after[n][k])
  }

  ghost predicate AllArrived(before: Holdings, after: Holdings, offers: seq<Offer>) {
    forall m, n, k :: (m, n) in offers && m in before && n in after && k in before[m] ==> k in after[n]
  }

  ghost predicate Round(before: Holdings, after: Holdings, offers: seq<Offer>, lossy: bool) {
    && after.Keys == before.Keys
    && NothingForgotten(before, after)
    && NewCameOneHop(before, after, offers)
    && (!lossy ==> AllArrived(before, after, offers))
  }

  lemma OfferBringsOneHop(before: Holdings, now: Holdings, offers: seq<Offer>, m: NodeId, n: NodeId, holding: Holding)
    requires NewCameOneHop(before, now, offers) && now.Keys == before.Keys && m in before && n in before
    requires forall k :: k in holding && k !in now[n] ==> k in before[m] && holding[k] == OneHopOn(before[m][k])
    requires forall k :: k in now[n] ==> k in holding && holding[k] == now[n][k]
    ensures NewCameOneHop(before, now[n := holding], offers + [(m, n)])
  {
    var after, grown := now[n := holding], offers + [(m, n)];
    forall x, k | x in after && x in before && k in after[x] && k !in before[x]
      ensures exists y :: CameBy(before, grown, y, x, k, after[x][k])
    {
      if k in now[x] {
        var y :| CameBy(before, offers, y, x, k, now[x][k]);
        assert CameBy(before, grown, y, x, k, after[x][k]);
      } else {
        assert CameBy(before, grown, m, x, k, after[x][k]);
      }
    }
  }

  lemma OfferArrives(before: Holdings, now: Holdings, offers: seq<Offer>, m: NodeId, n: NodeId, holding: Holding)
    requires AllArrived(before, now, offers) && now.Keys == before.Keys && m in before && n in before
    requires forall k :: k in before[m] ==> k in holding
    requires forall k :: k in now[n] ==> k in holding
    ensures AllArrived(before, now[n := holding], offers + [(m, n)])
  {}

  /** A round grows by one offer, made from what was held before the whole round. */
  lemma OfferExtendsRound(before: Holdings, now: Holdings, offers: seq<Offer>, m: NodeId, n: NodeId, holding: Holding,
                          lossy: bool)
    requires Round(before, now, offers, lossy) && m in before && n in before
    requires HandedOver(before[m], now[n], holding, lossy)
    ensures Round(before, now[n := holding], offers + [(m, n)], lossy)
  {
    OfferBringsOneHop(before, now, offers, m, n, holding);
    if !lossy {
      OfferArrives(before, now, offers, m, n, holding);
    }
  }

  /** One phone was offered what another held when the round began. */
  ghost predicate OfferMade(snapshot: Holdings, before: Holdings, after: Holdings, m: NodeId, n: NodeId, lossy: bool) {
    && m in snapshot && n in before && n in after
    && after == before[n := after[n]]
    && HandedOver(snapshot[m], before[n], after[n], lossy)
  }

  ghost predicate LinkDone(snapshot: Holdings, before: Holdings, after: Holdings, link: Offer, lossy: bool) {
    exists between ::
      OfferMade(snapshot, before, between, link.0, link.1, lossy)
        && OfferMade(snapshot, between, after, link.1, link.0, lossy)
  }

  ghost predicate LinkTaken(snapshot: Holdings, before: Holdings, after: Holdings, link: Offer,
                            partitioned: set<NodeId>, lossy: bool) {
    if Reachable(partitioned, link.0, link.1) then LinkDone(snapshot, before, after, link, lossy) else after == before
  }

  /** The links taken one after the other, each offering what was held before the first. */
  ghost predicate LinksDone(snapshot: Holdings, now: Holdings, links: seq<Offer>, partitioned: set<NodeId>, lossy: bool)
    decreases |links|
  {
    if links == [] then now == snapshot else
      var front, link := links[..|links| - 1], links[|links| - 1];
      exists before :: LinksDone(snapshot, before, front, partitioned, lossy)
        && LinkTaken(snapshot, before, now, link, partitioned, lossy)
  }

  lemma NextLinkDone(snapshot: Holdings, before: Holdings, after: Holdings, links: seq<Offer>, i: nat,
                     partitioned: set<NodeId>, lossy: bool)
    requires i < |links| && LinksDone(snapshot, before, links[..i], partitioned, lossy)
    requires LinkTaken(snapshot, before, after, links[i], partitioned, lossy)
    ensures LinksDone(snapshot, after, links[..i + 1], partitioned, lossy)
  {
    var done := links[..i + 1];
    assert done[..|done| - 1] == links[..i] && done[|done| - 1] == links[i];
    assert LinksDone(snapshot, before, done[..|done| - 1], partitioned, lossy);
  }

  lemma LinkExtendsRound(snapshot: Holdings, before: Holdings, after: Holdings, offers: seq<Offer>, link: Offer,
                         lossy: bool)
    requires Round(snapshot, before, offers, lossy) && LinkDone(snapshot, before, after, link, lossy)
    ensures Round(snapshot, after, offers + [link, (link.1, link.0)], lossy)
  {
    var (a, b) := link;
    var between :| OfferMade(snapshot, before, between, a, b, lossy)
      && OfferMade(snapshot, between, after, b, a, lossy);
    OfferExtendsRound(snapshot, before, offers, a, b, between[b], lossy);
    OfferExtendsRound(snapshot, between, offers + [(a, b)], b, a, after[a], lossy);
    assert offers + [(a, b)] + [(b, a)] == offers + [(a, b), (b, a)];
  }

  lemma LinkTakenExtendsRound(snapshot: Holdings, before: Holdings, after: Holdings, offers: seq<Offer>, link: Offer,
                              partitioned: set<NodeId>, lossy: bool)
    requires Round(snapshot, before, offers, lossy) && LinkTaken(snapshot, before, after, link, partitioned, lossy)
    ensures Round(snapshot, after, offers + BothWays(link, partitioned), lossy)
  {
    if Reachable(partitioned, link.0, link.1) {
      LinkExtendsRound(snapshot, before, after, offers, link, lossy);
    } else {
      assert offers + [] == offers;
    }
  }

  lemma NoRound(snapshot: Holdings, lossy: bool)
    ensures Round(snapshot, snapshot, [], lossy)
  {}

  lemma {:induction false} LinksMakeARound(snapshot: Holdings, now: Holdings, links: seq<Offer>,
                                           partitioned: set<NodeId>, lossy: bool)
    requires LinksDone(snapshot, now, links, partitioned, lossy)
    ensures Round(snapshot, now, Offers(links, partitioned), lossy)
    decreases |links|
  {
    if links == [] {
      NoRound(snapshot, lossy);
    } else {
      var front, link := links[..|links| - 1], links[|links| - 1];
      var before :| LinksDone(snapshot, before, front, partitioned, lossy)
        && LinkTaken(snapshot, before, now, link, partitioned, lossy);
      LinksMakeARound(snapshot, before, front, partitioned, lossy);
      LinkTakenExtendsRound(snapshot, before, now, Offers(front, partitioned), link, partitioned, lossy);
    }
  }

  function Held(holdings: Holdings, n: NodeId): Holding {
    if n in holdings then holdings[n] else map[]
  }

  /** A link between them, in either direction, that no partition cuts. */
  predicate Linked(links: seq<Offer>, partitioned: set<NodeId>, a: NodeId, b: NodeId) {
    && ((a, b) in links || (b, a) in links)
    && (partitioned == {} || ((a in partitioned) == (b in partitioned)))
  }

  /** A neighbour held it before the round, and the copy has come one hop further. */
  ghost predicate Brought(links: seq<Offer>, partitioned: set<NodeId>, before: Holdings, a: NodeId, b: NodeId,
                          k: Fingerprint, c: Carried) {
    && Linked(links, partitioned, a, b) && k in Held(before, a)
    && c.wire == Held(before, a)[k].wire && c.hops == Held(before, a)[k].hops + 1
  }

  /** What is held stays as it is, what is new was brought by a neighbour, and without loss neighbours bring all. */
  ghost predicate Spread(links: seq<Offer>, partitioned: set<NodeId>, lossy: bool, before: Holdings, after: Holdings) {
    && (forall n, k :: k in Held(before, n) ==> k in Held(after, n) && Held(after, n)[k] == Held(before, n)[k])
    && (forall n, k :: k in Held(after, n) && k !in Held(before, n) ==>
          exists m :: Brought(links, partitioned, before, m, n, k, Held(after, n)[k]))
    && (!lossy ==> forall m, n, k :: Linked(links, partitioned, m, n) && k in Held(before, m) ==> k in Held(after, n))
  }

  lemma RoundSpreads(before: Holdings, after: Holdings, links: seq<Offer>, partitioned: set<NodeId>, lossy: bool)
    requires Round(before, after, Offers(links, partitioned), lossy)
    requires forall i :: 0 <= i < |links| ==> links[i].0 in before && links[i].1 in before
    ensures Spread(links, partitioned, lossy, before, after)
    ensures !lossy && partitioned == {} ==> forall i, k :: 0 <= i < |links| ==>
              && (k in Held(before, links[i].0) ==> k in Held(after, links[i].1))
              && (k in Held(before, links[i].1) ==> k in Held(after, links[i].0))
  {
    hide Offers;
    forall a, b
      ensures (a, b) in Offers(links, partitioned) <==> Linked(links, partitioned, a, b)
    {
      OffersAreOpenLinks(links, partitioned, a, b);
    }
    forall n, k | k in Held(after, n) && k !in Held(before, n)
      ensures exists m :: Brought(links, partitioned, before, m, n, k, Held(after, n)[k])
    {
      var m :| CameBy(before, Offers(links, partitioned), m, n, k, after[n][k]);
      assert Brought(links, partitioned, before, m, n, k, Held(after, n)[k]);
    }
    assert forall i :: 0 <= i < |links| ==> (links[i].0, links[i].1) in links;
  }

  // ---------------------------------------------------------------------------------------------
  // Counting
  // ---------------------------------------------------------------------------------------------

  function Total(holdings: Holdings, ids: seq<NodeId>): nat {
    if ids == [] then 0
    else Total(holdings, ids[..|ids| - 1]) + if ids[|ids| - 1] in holdings then |holdings[ids[|ids| - 1]]| else 0
  }

  predicate Distinct(ids: seq<NodeId>) {
    forall i, j :: 0 <= i < j < |ids| ==> ids[i] != ids[j]
  }

  lemma {:induction false} TotalAfterChange(holdings: Holdings, ids: seq<NodeId>, n: NodeId, holding: Holding)
    requires Distinct(ids) && n in holdings
    ensures Total(holdings[n := holding], ids) == Total(holdings, ids) + if n in ids then |holding| - |holdings[n]|
              else 0
  {
    if ids != [] {
      TotalAfterChange(holdings, ids[..|ids| - 1], n, holding);
    }
  }

  // ---------------------------------------------------------------------------------------------
  // The mesh
  // ---------------------------------------------------------------------------------------------

  predicate DistinctPhones(phones: seq<MeshNode>) {
    forall i, j :: 0 <= i < j < |phones| ==> phones[i].id != phones[j].id
  }

  function IdsOf(phones: seq<MeshNode>): (ids: seq<NodeId>)
    requires DistinctPhones(phones)
    ensures Distinct(ids) && forall id :: id in ids <==> exists n :: n in phones && n.id == id
  {
    var ids := seq(|phones|, i requires 0 <= i < |phones| => phones[i].id);
    assert forall i :: 0 <= i < |phones| ==> ids[i] == phones[i].id && phones[i] in phones;
    ids
  }

  function ById(phones: seq<MeshNode>): (nodes: map<NodeId, MeshNode>)
    requires DistinctPhones(phones)
    ensures forall id :: id in nodes ==> nodes[id] in phones && nodes[id].id == id
    ensures forall n :: n in phones ==> n.id in nodes && nodes[n.id] == n
    ensures nodes.Values == set n | n in phones
  {
    map n | n in phones :: n.id := n
  }

  class Mesh {
    const ids: seq<NodeId>
    const nodes: map<NodeId, MeshNode>
    const links: seq<Offer>
    const lossy: bool
    const fingerprint: bytes -> Fingerprint
    var partitioned: set<NodeId>

    /** One phone for each id, links between known phones, and every envelope held under its own fingerprint. */
    ghost predicate Valid()
      reads nodes.Values
    {
      && Distinct(ids)
      && (forall id :: id in nodes <==> id in ids)
      && (forall id :: id in nodes ==> nodes[id].id == id && nodes[id].fingerprint == fingerprint)
      && (forall i :: 0 <= i < |links| ==> links[i].0 in nodes && links[i].1 in nodes)
      && (forall id, k :: id in nodes && k in nodes[id].held ==> fingerprint(nodes[id].held[k].wire) == k)
    }

    constructor (phones: seq<MeshNode>, links: seq<Offer>, lossy: bool, fingerprint: bytes -> Fingerprint)
      requires DistinctPhones(phones)
      requires forall i :: 0 <= i < |phones| ==> phones[i].fingerprint == fingerprint && phones[i].held == map[]
      requires forall i :: 0 <= i < |links| ==>
                 (exists n :: n in phones && n.id == links[i].0) && exists n :: n in phones && n.id == links[i].1
      ensures Valid() && this.links == links && this.lossy == lossy && partitioned == {}
      ensures nodes.Values == set n | n in phones
      ensures forall id :: id in View() ==> View()[id] == map[]
    {
      this.ids, this.nodes := IdsOf(phones), ById(phones);
      this.links, this.lossy, this.fingerprint, this.partitioned := links, lossy, fingerprint, {};
    }

    function View(): Holdings
      reads nodes.Values
    {
      map id | id in nodes :: nodes[id].held
    }

    /** partition */
    method Partition(ids: set<NodeId>)
      modifies this`partitioned
      ensures partitioned == ids
    {
      partitioned := ids;
    }

    method Heal()
      modifies this`partitioned
      ensures partitioned == {}
    {
      partitioned := {};
    }

    method InFlight() returns (total: nat)
      requires Valid()
      ensures total == Total(View(), ids)
    {
      total := 0;
      for i := 0 to |ids|
        invariant total == Total(View(), ids[..i])
      {
        assert ids[..i + 1][..i] == ids[..i];
        total := total + |nodes[ids[i]].held|;
      }
      assert ids[..|ids|] == ids;
    }

    /** One phone offers another what it held before the round. */
    method OfferAll(source: Holding, target: MeshNode) returns (handovers: nat)
      requires target.fingerprint == fingerprint
      requires forall k :: k in source ==> fingerprint(source[k].wire) == k
      modifies target`held
      ensures HandedOver(source, old(target.held), target.held, lossy)
      ensures handovers == |target.held| - |old(target.held)|
    {
      handovers := 0;
      var todo := source.Keys;
      while todo != {}
        invariant todo <= source.Keys
        invariant forall k :: k in old(target.held) ==> k in target.held && target.held[k] == old(target.held)[k]
        invariant forall k :: k in target.held && k !in old(target.held) ==>
                    k in source && target.held[k] == OneHopOn(source[k])
        invariant !lossy ==> forall k :: k in source && k !in todo ==> k in target.held
        invariant handovers == |target.held| - |old(target.held)|
        decreases |todo|
      {
        var key :| key in todo;
        todo := todo - {key};
        var lost := false;
        if lossy {
          lost := *;
        }
        if !lost {
          var taken := target.Hold(source[key].wire, source[key].hops + 1);
          if taken {
            handovers := handovers + 1;
          }
        }
      }
    }

    twostate lemma OneViewChanged(to: NodeId)
      requires old(Valid()) && to in nodes && forall id :: id in nodes && id != to ==>
                 nodes[id].held == old(nodes[id].held)
      ensures View() == old(View())[to := nodes[to].held]
    {}

    method OfferAcross(source: Holding, to: NodeId) returns (handovers: nat)
      requires Valid() && to in nodes
      requires forall k :: k in source ==> fingerprint(source[k].wire) == k
      modifies nodes[to]
      ensures Valid()
      ensures View() == old(View())[to := nodes[to].held] && HandedOver(source, old(View())[to], nodes[to].held, lossy)
      ensures handovers == |nodes[to].held| - |old(View())[to]|
    {
      handovers := OfferAll(source, nodes[to]);
      OneViewChanged(to);
    }

    /** Both directions of one link. */
    method OfferBothWays(snapshot: Holdings, link: Offer) returns (handovers: nat)
      requires Valid() && snapshot.Keys == nodes.Keys && link.0 in nodes && link.1 in nodes
      requires HeldUnderTheirFingerprints(snapshot)
      modifies nodes.Values
      ensures Valid()
      ensures LinkDone(snapshot, old(View()), View(), link, lossy)
      ensures handovers == Total(View(), ids) - old(Total(View(), ids))
    {
      var (a, b) := link;
      ghost var before := View();
      var there := OfferAcross(snapshot[a], b);
      ghost var between := View();
      TotalAfterChange(before, ids, b, between[b]);
      var back := OfferAcross(snapshot[b], a);
      TotalAfterChange(between, ids, a, View()[a]);
      handovers := there + back;
      assert OfferMade(snapshot, before, between, a, b, lossy);
    }

    predicate HeldUnderTheirFingerprints(holdings: Holdings) {
      forall id, k :: id in holdings && k in holdings[id] ==> fingerprint(holdings[id][k].wire) == k
    }

    lemma ViewIsKeyed()
      requires Valid()
      ensures View().Keys == nodes.Keys && HeldUnderTheirFingerprints(View())
    {}

    method OfferAlongLinks(snapshot: Holdings) returns (handovers: nat)
      requires Valid() && snapshot == View() && snapshot.Keys == nodes.Keys && HeldUnderTheirFingerprints(snapshot)
      modifies nodes.Values
      ensures Valid() && LinksDone(snapshot, View(), links, partitioned, lossy)
      ensures handovers == Total(View(), ids) - Total(snapshot, ids)
    {
      handovers := 0;
      for i := 0 to |links|
        invariant Valid() && LinksDone(snapshot, View(), links[..i], partitioned, lossy)
        invariant handovers == Total(View(), ids) - Total(snapshot, ids)
      {
        ghost var before := View();
        var link := links[i];
        if Reachable(partitioned, link.0, link.1) {
          var offered := OfferBothWays(snapshot, link);
          handovers := handovers + offered;
        }
        NextLinkDone(snapshot, before, View(), links, i, partitioned, lossy);
      }
      assert links[..|links|] == links;
    }

    /** Every phone offers its neighbours what it held when the round began. */
    method GossipRound() returns (handovers: nat)
      requires Valid()
      modifies nodes.Values
      ensures Valid() && Round(old(View()), View(), Offers(links, partitioned), lossy)
      ensures Spread(links, partitioned, lossy, old(View()), View())
      ensures !lossy && partitioned == {} ==> forall i, k :: 0 <= i < |links| ==>
                && (k in Held(old(View()), links[i].0) ==> k in Held(View(), links[i].1))
                && (k in Held(old(View()), links[i].1) ==> k in Held(View(), links[i].0))
      ensures handovers == Total(View(), ids) - old(Total(View(), ids))
    {
      hide Round, Spread, Held, Total, Offers, LinksDone;
      ViewIsKeyed();
      var snapshot := View();
      handovers := OfferAlongLinks(snapshot);
      LinksMakeARound(snapshot, View(), links, partitioned, lossy);
      RoundSpreads(snapshot, View(), links, partitioned, lossy);
    }
  }
}
