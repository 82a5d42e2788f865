/**
 * Two small graphs and what the operations give on them: the triangle
 * A->B (1), B->C (1), A->C (5), and the single edge A->B (10).  Each search
 * result follows from the contract of the search alone, through the listing
 * of every path, or every toll walk, the small graph has.
 */
module Scenarios {
  import opened Wrappers
  import opened Walks
  import opened Paths
  import opened Vertices
  import opened GraphModels
  import opened Graphs
  import opened TollSearch
  import BreadthSearch
  import AStarSearch

  /** A->B (1), B->C (1), A->C (5). */
  const Triangle: Adjacency := map["A" := map["B" := 1, "C" := 5], "B" := map["C" := 1], "C" := map[]]

  /** A->B (10). */
  const Toll: Adjacency := map["A" := map["B" := 10], "B" := map[]]

  /** One free edge: A -> B of weight 0. */
  const Free: Adjacency := map["A" := map["B" := 0], "B" := map[]]

  /** The triangle has two paths from A to C: the direct edge, and the way through B. */
  lemma TrianglePaths(p: seq<Id>)
    requires PathFromTo(Triangle, p, "A", "C")
    ensures p == ["A", "C"] || p == ["A", "B", "C"]
  {
    var step := Edge(Triangle);
    assert |p| >= 2;
    assert step(p[0], p[1]).Some?;
    if p[1] == "C" {
      DeadEnd(step, p, 1);
      assert p == ["A", "C"];
    } else {
      assert p[1] == "B" && |p| >= 3;
      assert step(p[1], p[2]).Some?;
      DeadEnd(step, p, 2);
      assert p == ["A", "B", "C"];
    }
  }

  /** The direct edge from A to C, of weight 5. */
  lemma TriangleDirect()
    ensures PathFromTo(Triangle, ["A", "C"], "A", "C") && Weight(Triangle, ["A", "C"]) == 5
  {
    assert ["A", "C"][..1] == ["A"];
  }

  /** The way from A to C through B, of weight 2. */
  lemma TriangleThroughB()
    ensures PathFromTo(Triangle, ["A", "B", "C"], "A", "C") && Weight(Triangle, ["A", "B", "C"]) == 2
  {
    var step := Edge(Triangle);
    assert step("A", "B") == Some(1) && step("B", "C") == Some(1);
    assert ["A", "B", "C"][..2] == ["A", "B"];
    assert ["A", "B"][..1] == ["A"];
  }

  /** Both paths, and their weights. */
  lemma TriangleWeights()
    ensures PathFromTo(Triangle, ["A", "C"], "A", "C") && Weight(Triangle, ["A", "C"]) == 5
    ensures PathFromTo(Triangle, ["A", "B", "C"], "A", "C") && Weight(Triangle, ["A", "B", "C"]) == 2
  {
    TriangleDirect();
    TriangleThroughB();
  }

  /**
   * bfs on the triangle: a path from A to C with the fewest edges is the
   * direct edge, of weight 5, not the lighter way through B.
   */
  lemma TriangleFewestEdges(path: seq<Id>)
    requires PathFromTo(Triangle, path, "A", "C")
    requires forall p :: PathFromTo(Triangle, p, "A", "C") ==> |path| <= |p|
    ensures path == ["A", "C"] && Weight(Triangle, path) == 5
  {
    TrianglePaths(path);
    TriangleWeights();
  }

  /** a_star on the triangle with a consistent estimate: the lightest path goes through B, of weight 2. */
  lemma TriangleLightest(path: seq<Id>)
    requires PathFromTo(Triangle, path, "A", "C") && NoLighterPath(Triangle, "A", "C", Weight(Triangle, path))
    ensures path == ["A", "B", "C"] && Weight(Triangle, path) == 2
  {
    TrianglePaths(path);
    TriangleWeights();
  }

  /**
   * The toll walks of A->B (10) from (A, 0) to (B, k): the one step to (B, 0)
   * at the full weight 10, or, when the budget allows a coupon, the one step
   * to (B, 1) at 10 / 2 == 5.
   */
  lemma TollWalks(budget: int, p: seq<State>, k: int)
    requires WalkFromTo(TollStep(Toll, budget), p, ("A", 0), ("B", k))
    ensures p == [("A", 0), ("B", k)]
    ensures k == 0 ==> Cost(TollStep(Toll, budget), p) == 10
    ensures k != 0 ==> k == 1 && 0 < budget && Cost(TollStep(Toll, budget), p) == 5
  {
    var step := TollStep(Toll, budget);
    assert |p| >= 2;
    assert step(p[0], p[1]).Some?;
    DeadEnd(step, p, 1);
    assert p[..1] == [("A", 0)];
  }

  /** The step to (B, 1), which a budget of at least one coupon allows. */
  lemma TollCouponWalk(budget: int)
    requires 0 < budget
    ensures WalkFromTo(TollStep(Toll, budget), [("A", 0), ("B", 1)], ("A", 0), ("B", 1))
    ensures Cost(TollStep(Toll, budget), [("A", 0), ("B", 1)]) == 5
  {
    assert [("A", 0), ("B", 1)][..1] == [("A", 0)];
  }

  /** tollways on A->B (10) with one coupon: cost 5, the coupon used, and no other answer. */
  lemma TollOneCoupon(cost: int, coupons: int)
    ensures Cheapest(Toll, 1, "A", "B", 5, 1)
    ensures Cheapest(Toll, 1, "A", "B", cost, coupons) ==> cost == 5 && coupons == 1
  {
    TollCouponWalk(1);
    forall k, p | WalkFromTo(TollStep(Toll, 1), p, ("A", 0), ("B", k))
      ensures 5 <= Cost(TollStep(Toll, 1), p) && (Cost(TollStep(Toll, 1), p) == 5 ==> 1 <= k)
    {
      TollWalks(1, p, k);
    }
    if Cheapest(Toll, 1, "A", "B", cost, coupons) {
      var p :| WalkFromTo(TollStep(Toll, 1), p, ("A", 0), ("B", coupons)) && Cost(TollStep(Toll, 1), p) == cost;
      TollWalks(1, p, coupons);
    }
  }

  /** tollways on A->B (10) with no coupon: cost 10, no coupon used, and no other answer. */
  lemma TollNoCoupon(cost: int, coupons: int)
    ensures Cheapest(Toll, 0, "A", "B", 10, 0)
    ensures Cheapest(Toll, 0, "A", "B", cost, coupons) ==> cost == 10 && coupons == 0
  {
    var step := TollStep(Toll, 0);
    assert [("A", 0), ("B", 0)][..1] == [("A", 0)];
    assert WalkFromTo(step, [("A", 0), ("B", 0)], ("A", 0), ("B", 0));
    forall k, p | WalkFromTo(step, p, ("A", 0), ("B", k)) ensures 10 <= Cost(step, p) && 0 <= k {
      TollWalks(0, p, k);
    }
    if Cheapest(Toll, 0, "A", "B", cost, coupons) {
      var p :| WalkFromTo(step, p, ("A", 0), ("B", coupons)) && Cost(step, p) == cost;
      TollWalks(0, p, coupons);
    }
  }

  /**
   * tollways on A->B (0) with one coupon: the coupon saves nothing, both
   * (B, 0) and (B, 1) cost 0, and the answer is the one that uses no coupon.
   */
  lemma TollTieFewest(cost: int, coupons: int)
    ensures Cheapest(Free, 1, "A", "B", 0, 0)
    ensures Cheapest(Free, 1, "A", "B", cost, coupons) ==> cost == 0 && coupons == 0
  {
    var step := TollStep(Free, 1);
    var p0 := [("A", 0), ("B", 0)];
    assert p0[..1] == [("A", 0)];
    assert WalkFromTo(step, p0, ("A", 0), ("B", 0)) && Cost(step, p0) == 0;
    forall k, p | WalkFromTo(step, p, ("A", 0), ("B", k)) ensures Cost(step, p) == 0 && 0 <= k {
      assert |p| >= 2;
      assert step(p[0], p[1]).Some?;
      DeadEnd(step, p, 1);
      assert p[..1] == [("A", 0)];
    }
  }

  /** Nothing leaves C, so no path goes from C to A. */
  lemma TriangleNoWayBack()
    ensures !Reachable(Triangle, "C", "A")
  {
    forall p | PathFromTo(Triangle, p, "C", "A") ensures false {
      DeadEnd(Edge(Triangle), p, 0);
    }
  }

  /** The zero estimate is consistent when no weight is negative. */
  lemma ZeroEstimateConsistent(A: Adjacency, metric: (Point, Point) -> int, pos: map<Id, Point>, target: Point)
    requires NonNegativeWeights(A) && forall a, b :: metric(a, b) == 0
    ensures Consistent(Edge(A), Estimate(metric, pos, target))
  {
  }

  /** The triangle as the model add_to_graph builds: ids in the order they first appear. */
  const TriangleModel: GraphModel := GraphModel(["A", "B", "C"], Triangle)

  /** A->B (10) as the model add_to_graph builds. */
  const TollModel: GraphModel := GraphModel(["A", "B"], Toll)

  /** add_to_graph(A, B, 1) on an empty graph. */
  lemma FirstEdge()
    ensures AddToModel(EmptyModel(), "A", Some("B"), 1) == GraphModel(["A", "B"], map["A" := map["B" := 1], "B" := map[]])
  {
  }

  /** add_to_graph(B, C, 1) next. */
  lemma SecondEdge()
    ensures AddToModel(GraphModel(["A", "B"], map["A" := map["B" := 1], "B" := map[]]), "B", Some("C"), 1)
         == GraphModel(["A", "B", "C"], map["A" := map["B" := 1], "B" := map["C" := 1], "C" := map[]])
  {
  }

  /** add_to_graph(A, C, 5) last: the triangle. */
  lemma ThirdEdge()
    ensures AddToModel(GraphModel(["A", "B", "C"], map["A" := map["B" := 1], "B" := map["C" := 1], "C" := map[]]), "A", Some("C"), 5)
         == TriangleModel
  {
  }

  /** add_to_graph(A, B, 10) on an empty graph. */
  lemma TollEdge()
    ensures AddToModel(EmptyModel(), "A", Some("B"), 10) == TollModel
  {
  }

  /** add_to_graph(A, B, 10) on an empty graph. */
  method BuildToll() returns (g: Graph)
    ensures g.Valid() && g.Model() == TollModel
  {
    g := new Graph();
    TollEdge();
    g.AddToGraph("A", Some("B"), 10);
  }

  /** bfs from A to C on the triangle: the direct edge, of weight 5. */
  method BfsOnTriangle() returns (path: seq<Id>, dist: int)
    ensures path == ["A", "C"] && dist == 5
  {
    TriangleWeights();
    path, dist := BreadthSearch.Bfs(Triangle, "A", "C");
    TriangleFewestEdges(path);
  }

  /** bfs from C to A on the triangle: no path, ([], 0). */
  method BfsBackOnTriangle() returns (path: seq<Id>, dist: int)
    ensures path == [] && dist == 0
  {
    TriangleNoWayBack();
    path, dist := BreadthSearch.Bfs(Triangle, "C", "A");
  }

  /** a_star from A to C on the triangle with the zero estimate: the way through B, of weight 2. */
  method AStarOnTriangle() returns (path: seq<Id>, dist: int)
    ensures path == ["A", "B", "C"] && dist == 2
  {
    var a := new Vertex("A");
    var b := new Vertex("B");
    var c := new Vertex("C");
    var V := map["A" := a, "B" := b, "C" := c];
    var P := map["A" := Point(0, 0), "B" := Point(1, 0), "C" := Point(2, 0)];
    var zero := (a: Point, b: Point) => 0;
    TriangleWeights();
    ZeroEstimateConsistent(Triangle, zero, P, P["C"]);
    var popped;
    path, dist, popped := AStarSearch.Search(Triangle, V, P, zero, "A", "C");
    TriangleLightest(path);
  }

  /** tollways from A to B on A->B (10) with one coupon: (5, 1). */
  method TollwaysOneCoupon() returns (r: Option<(int, int)>)
    ensures r == Some((5, 1))
  {
    var a := new Vertex("A");
    var b := new Vertex("B");
    var V := map["A" := a, "B" := b];
    assert PathFromTo(Toll, ["A", "B"], "A", "B");
    r := Tollways(Toll, V, "A", "B", 1);
    TollOneCoupon(r.value.0, r.value.1);
  }

  /** tollways from A to B on A->B (10) with no coupon: (10, 0). */
  method TollwaysNoCoupon() returns (r: Option<(int, int)>)
    ensures r == Some((10, 0))
  {
    var a := new Vertex("A");
    var b := new Vertex("B");
    var V := map["A" := a, "B" := b];
    assert PathFromTo(Toll, ["A", "B"], "A", "B");
    r := Tollways(Toll, V, "A", "B", 0);
    TollNoCoupon(r.value.0, r.value.1);
  }
}
