/** What many rounds of gossip amount to: how far an envelope has come, and where it can never get. */
module Gossip {
  import opened Mesh

  /** A chain of open links from one phone to another. */
  ghost predicate IsPath(offers: seq<Offer>, path: seq<NodeId>) {
    path != [] && forall i :: 0 <= i < |path| - 1 ==> (path[i], path[i + 1]) in offers
  }

  ghost predicate Joins(offers: seq<Offer>, path: seq<NodeId>, a: NodeId, b: NodeId, length: nat) {
    IsPath(offers, path) && |path| == length + 1 && path[0] == a && path[length] == b
  }

  /** There is a path of at most this length. */
  ghost predicate Within(offers: seq<Offer>, a: NodeId, b: NodeId, d: nat) {
    exists path, length: nat :: length <= d && Joins(offers, path, a, b, length)
  }

  /** The length of the shortest path. */
  ghost predicate IsDistance(offers: seq<Offer>, a: NodeId, b: NodeId, d: nat) {
    Within(offers, a, b, d) && (d > 0 ==> !Within(offers, a, b, d - 1))
  }

  lemma WithinSelf(offers: seq<Offer>, a: NodeId)
    ensures Within(offers, a, a, 0)
  {
    assert Joins(offers, [a], a, a, 0);
  }

  lemma WithinGrows(offers: seq<Offer>, a: NodeId, b: NodeId, d: nat, e: nat)
    requires Within(offers, a, b, d) && d <= e
    ensures Within(offers, a, b, e)
  {
    var path, length: nat :| length <= d && Joins(offers, path, a, b, length);
    assert length <= e && Joins(offers, path, a, b, length);
  }

  lemma OneStepFurther(offers: seq<Offer>, a: NodeId, m: NodeId, n: NodeId, d: nat)
    requires Within(offers, a, m, d) && (m, n) in offers
    ensures Within(offers, a, n, d + 1)
  {
    var path, length: nat :| length <= d && Joins(offers, path, a, m, length);
    assert Joins(offers, path + [n], a, n, length + 1);
  }

  /** The last link of a path. */
  lemma OneStepBack(offers: seq<Offer>, a: NodeId, n: NodeId, d: nat) returns (m: NodeId)
    requires Within(offers, a, n, d + 1) && !Within(offers, a, n, d)
    ensures Within(offers, a, m, d) && (m, n) in offers
  {
    var path, length: nat :| length <= d + 1 && Joins(offers, path, a, n, length);
    m := path[length - 1];
    assert Joins(offers, path[..length], a, m, length - 1);
  }

  // ---------------------------------------------------------------------------------------------
  // Rounds
  // ---------------------------------------------------------------------------------------------

  ghost predicate RoundAt(hs: seq<Holdings>, i: nat, offers: seq<Offer>, lossy: bool) {
    i + 1 < |hs| ==> Round(hs[i], hs[i + 1], offers, lossy)
  }

  /** Rounds over the same links under the same partition. */
  ghost predicate Rounds(hs: seq<Holdings>, offers: seq<Offer>, lossy: bool) {
    forall i: nat :: RoundAt(hs, i, offers, lossy)
  }

  /** One phone starts with the envelope, at no hops. */
  ghost predicate OneOrigin(h: Holdings, origin: NodeId, k: Fingerprint) {
    && (forall n :: n in h && k in h[n] ==> n == origin)
    && origin in h && k in h[origin] && h[origin][k].hops == 0
  }

  ghost predicate Holds(h: Holdings, n: NodeId, k: Fingerprint) {
    n in h && k in h[n]
  }

  lemma {:induction false} SamePhones(hs: seq<Holdings>, offers: seq<Offer>, lossy: bool, r: nat)
    requires Rounds(hs, offers, lossy) && r < |hs|
    ensures hs[r].Keys == hs[0].Keys
  {
    if r > 0 {
      SamePhones(hs, offers, lossy, r - 1);
      assert RoundAt(hs, r - 1, offers, lossy);
    }
  }

  /** A copy that was there before the round is there after it, unchanged; any other came one hop from one that was. */
  lemma WhereFrom(hs: seq<Holdings>, offers: seq<Offer>, lossy: bool, r: nat, n: NodeId, k: Fingerprint)
        returns (m: NodeId)
    requires Rounds(hs, offers, lossy) && 0 < r < |hs| && Holds(hs[r], n, k)
    ensures Holds(hs[r - 1], m, k)
    ensures if Holds(hs[r - 1], n, k) then m == n && hs[r][n][k] == hs[r - 1][n][k]
            else (m, n) in offers && hs[r][n][k] == OneHopOn(hs[r - 1][m][k])
  {
    var before, after := hs[r - 1], hs[r];
    assert RoundAt(hs, r - 1, offers, lossy);
    if Holds(before, n, k) {
      m := n;
    } else {
      m :| CameBy(before, offers, m, n, k, after[n][k]);
    }
  }

  lemma Arrives(hs: seq<Holdings>, offers: seq<Offer>, r: nat, m: NodeId, n: NodeId, k: Fingerprint)
    requires Rounds(hs, offers, false) && 0 < r < |hs| && Holds(hs[r - 1], m, k)
    requires m == n || ((m, n) in offers && n in hs[0])
    ensures Holds(hs[r], n, k)
  {
    SamePhones(hs, offers, false, r);
    assert RoundAt(hs, r - 1, offers, false);
  }

  /** However much is lost, a copy has come at least its distance, and at most a hop a round. */
  lemma {:induction false} HopsAreBounded(hs: seq<Holdings>, offers: seq<Offer>, lossy: bool, origin: NodeId,
                                          k: Fingerprint, r: nat, n: NodeId)
    requires Rounds(hs, offers, lossy) && r < |hs| && OneOrigin(hs[0], origin, k) && Holds(hs[r], n, k)
    ensures Within(offers, origin, n, hs[r][n][k].hops) && hs[r][n][k].hops <= r
    ensures hs[r][n][k].wire == hs[0][origin][k].wire
  {
    if r == 0 {
      WithinSelf(offers, origin);
    } else {
      var m := WhereFrom(hs, offers, lossy, r, n, k);
      HopsAreBounded(hs, offers, lossy, origin, k, r - 1, m);
      if !Holds(hs[r - 1], n, k) {
        OneStepFurther(offers, origin, m, n, hs[r - 1][m][k].hops);
      }
    }
  }

  /** Links join known phones. */
  ghost predicate OverPhones(offers: seq<Offer>, h: Holdings) {
    forall m, n :: (m, n) in offers ==> m in h && n in h
  }

  /** Without loss the envelope reaches every phone within reach of the rounds so far. */
  lemma {:induction false} NearPhonesHold(hs: seq<Holdings>, offers: seq<Offer>, origin: NodeId, k: Fingerprint,
                                          r: nat, n: NodeId)
    requires Rounds(hs, offers, false) && r < |hs| && OneOrigin(hs[0], origin, k) && OverPhones(offers, hs[0])
    requires Within(offers, origin, n, r)
    ensures Holds(hs[r], n, k)
  {
    if r == 0 {
      var path, length: nat :| length <= 0 && Joins(offers, path, origin, n, length);
      assert n == origin;
    } else {
      var m := n;
      if !Within(offers, origin, n, r - 1) {
        m := OneStepBack(offers, origin, n, r - 1);
      }
      NearPhonesHold(hs, offers, origin, k, r - 1, m);
      Arrives(hs, offers, r, m, n, k);
    }
  }

  /** Without loss a copy has exactly as many hops as its phone's distance. */
  lemma {:induction false} HopsAreTheDistance(hs: seq<Holdings>, offers: seq<Offer>, origin: NodeId, k: Fingerprint,
                                              r: nat, n: NodeId)
    requires Rounds(hs, offers, false) && r < |hs| && OneOrigin(hs[0], origin, k) && OverPhones(offers, hs[0])
    requires Holds(hs[r], n, k)
    ensures IsDistance(offers, origin, n, hs[r][n][k].hops)
  {
    HopsAreBounded(hs, offers, false, origin, k, r, n);
    if r > 0 {
      var hops := hs[r][n][k].hops;
      var m := WhereFrom(hs, offers, false, r, n, k);
      if Holds(hs[r - 1], n, k) {
        HopsAreTheDistance(hs, offers, origin, k, r - 1, n);
      } else if hops > 0 && Within(offers, origin, n, hops - 1) {
        HopsAreBounded(hs, offers, false, origin, k, r - 1, m);
        WithinGrows(offers, origin, n, hops - 1, r - 1);
        NearPhonesHold(hs, offers, origin, k, r - 1, n);
        assert false;
      }
    }
  }

  /**
   * Lossless gossip is breadth-first search: after r rounds, exactly the phones within r hold it, at their
   * distance.
   */
  lemma GossipIsBreadthFirst(hs: seq<Holdings>, offers: seq<Offer>, origin: NodeId, k: Fingerprint, r: nat, n: NodeId)
    requires Rounds(hs, offers, false) && r < |hs| && OneOrigin(hs[0], origin, k) && OverPhones(offers, hs[0])
    ensures Holds(hs[r], n, k) <==> Within(offers, origin, n, r)
    ensures Holds(hs[r], n, k) ==> IsDistance(offers, origin, n, hs[r][n][k].hops)
  {
    if Holds(hs[r], n, k) {
      HopsAreBounded(hs, offers, false, origin, k, r, n);
      WithinGrows(offers, origin, n, hs[r][n][k].hops, r);
      HopsAreTheDistance(hs, offers, origin, k, r, n);
    }
    if Within(offers, origin, n, r) {
      NearPhonesHold(hs, offers, origin, k, r, n);
    }
  }

  /** From phone to phone over links in either direction, none of them cut by the partition. */
  ghost predicate IsWalk(links: seq<Offer>, partitioned: set<NodeId>, path: seq<NodeId>, a: NodeId, b: NodeId) {
    && path != [] && path[0] == a && path[|path| - 1] == b
    && forall i :: 0 <= i < |path| - 1 ==> Linked(links, partitioned, path[i], path[i + 1])
  }

  lemma WalksAreTheWays(links: seq<Offer>, partitioned: set<NodeId>, a: NodeId, b: NodeId, d: nat)
    ensures Within(Offers(links, partitioned), a, b, d) <==>
            exists walk :: IsWalk(links, partitioned, walk, a, b) && |walk| <= d + 1
  {
    var offers := Offers(links, partitioned);
    forall m, n
      ensures (m, n) in offers <==> Linked(links, partitioned, m, n)
    {
      OffersAreOpenLinks(links, partitioned, m, n);
    }
    hide Offers;
    if Within(offers, a, b, d) {
      var path, length: nat :| length <= d && Joins(offers, path, a, b, length);
      assert IsWalk(links, partitioned, path, a, b);
    }
    if walk :| IsWalk(links, partitioned, walk, a, b) && |walk| <= d + 1 {
      assert Joins(offers, walk, a, b, |walk| - 1);
    }
  }

  /** Every link joins known phones. */
  ghost predicate LinksPhones(links: seq<Offer>, h: Holdings) {
    forall m, n :: (m, n) in links ==> m in h && n in h
  }

  /**
   * Link by link, then: after r rounds without loss a phone holds the envelope exactly if there is a walk of at
   * most r uncut links to it, and the hops of its copy are those of a shortest walk. Without a partition, as
   * after it has healed, no link is cut.
   */
  lemma HopsAreWalkingDistance(hs: seq<Holdings>, links: seq<Offer>, partitioned: set<NodeId>, origin: NodeId,
                               k: Fingerprint, r: nat, n: NodeId)
    requires Rounds(hs, Offers(links, partitioned), false) && r < |hs| && OneOrigin(hs[0], origin, k)
    requires LinksPhones(links, hs[0])
    ensures Holds(hs[r], n, k) <==> exists walk :: IsWalk(links, partitioned, walk, origin, n) && |walk| <= r + 1
    ensures Holds(hs[r], n, k) ==>
              && (exists walk :: IsWalk(links, partitioned, walk, origin, n) && |walk| == hs[r][n][k].hops + 1)
              && (forall walk :: IsWalk(links, partitioned, walk, origin, n) ==> |walk| >= hs[r][n][k].hops + 1)
  {
    var offers := Offers(links, partitioned);
    forall a, b | (a, b) in offers
      ensures a in hs[0] && b in hs[0]
    {
      OffersAreOpenLinks(links, partitioned, a, b);
    }
    hide Offers;
    GossipIsBreadthFirst(hs, offers, origin, k, r, n);
    WalksAreTheWays(links, partitioned, origin, n, r);
    if Holds(hs[r], n, k) {
      var hops := hs[r][n][k].hops;
      WalksAreTheWays(links, partitioned, origin, n, hops);
      forall walk | IsWalk(links, partitioned, walk, origin, n)
        ensures |walk| >= hops + 1
      {
        if |walk| <= hops {
          WalksAreTheWays(links, partitioned, origin, n, hops - 1);
        }
      }
    }
  }

  /** While a partition lasts, an envelope that started on one side is only ever on that side. */
  lemma {:induction false} NothingCrossesAPartition(hs: seq<Holdings>, links: seq<Offer>, partitioned: set<NodeId>,
                                                    lossy: bool,
                                                    k: Fingerprint, inside: bool, r: nat, n: NodeId)
    requires partitioned != {} && Rounds(hs, Offers(links, partitioned), lossy) && r < |hs|
    requires forall m :: Holds(hs[0], m, k) ==> (m in partitioned <==> inside)
    requires Holds(hs[r], n, k)
    ensures n in partitioned <==> inside
  {
    if r > 0 {
      var m := WhereFrom(hs, Offers(links, partitioned), lossy, r, n, k);
      NothingCrossesAPartition(hs, links, partitioned, lossy, k, inside, r - 1, m);
      OffersAreOpenLinks(links, partitioned, m, n);
    }
  }
}
