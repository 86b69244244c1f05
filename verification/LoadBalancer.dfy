/**
 The load balancer's own steps: filtering, affinity, the weighted draw, and the release of a
 node. How they interleave is the subject of BalancerProtocol. Weights are real numbers, and
 the random number is an input.
 */
module LoadBalancer {
  import opened Wrappers

  class LBNode {
    const id: int
    const weight: int
    const maxConn: int
    const patterns: seq<string>
    var active: int
    var healthy: bool

    constructor (id: int, weight: int, maxConn: int, patterns: seq<string>)
      ensures active == 0 && !healthy
      ensures this.id == id && this.weight == weight && this.maxConn == maxConn && this.patterns == patterns
    {
      this.id, this.weight, this.maxConn, this.patterns := id, weight, maxConn, patterns;
      active, healthy := 0, false;
    }

    predicate HasRoom()
      reads this
    {
      healthy && active < maxConn
    }

    /** The decrement, and the repair when it went below zero. */
    method Release()
      modifies this`active
      ensures active == if old(active) > 0 then old(active) - 1 else 0
    {
      active := active - 1;
      if active < 0 { active := 0; }
    }
  }

  /** A stream that gives its node back when it is closed for the first time. */
  class ReleaseOnCloseReader {
    const node: LBNode
    var once: bool

    constructor (node: LBNode)
      ensures this.node == node && !once
    {
      this.node := node;
      once := false;
    }

    method Close()
      modifies this`once, node`active
      ensures once
      ensures node.active ==
              if old(once) then old(node.active) else if old(node.active) > 0 then old(node.active) - 1 else 0
    {
      if !once {
        once := true;
        node.Release();
      }
    }
  }

  // ----- The weighted draw -----

  function Sum(ws: seq<real>): real {
    if ws == [] then 0.0 else Sum(ws[..|ws| - 1]) + ws[|ws| - 1]
  }

  ghost predicate Positive(ws: seq<real>) { forall i | 0 <= i < |ws| :: ws[i] >= 1.0 }

  /** The point `x` of the line of all weights falls on item `i`. */
  ghost predicate FallsOn(ws: seq<real>, x: real, i: nat)
    requires i < |ws|
  {
    (i == 0 || Sum(ws[..i]) < x) && x <= Sum(ws[..i + 1])
  }

  lemma SumStep(ws: seq<real>, i: nat)
    requires i < |ws|
    ensures Sum(ws[..i + 1]) == Sum(ws[..i]) + ws[i]
  {
    assert ws[..i + 1][..i] == ws[..i];
  }

  lemma {:induction false} SumGrows(ws: seq<real>, i: nat, j: nat)
    requires Positive(ws) && i <= j <= |ws|
    ensures Sum(ws[..i]) + (j - i) as real <= Sum(ws[..j])
    decreases j
  {
    if i < j {
      SumGrows(ws, i, j - 1);
      SumStep(ws, j - 1);
    }
  }

  /** A point falls on one item only. */
  lemma FallsOnOne(ws: seq<real>, x: real, i: nat, j: nat)
    requires Positive(ws) && i < |ws| && j < |ws| && FallsOn(ws, x, i) && FallsOn(ws, x, j)
    ensures i == j
  {
    if i < j { SumGrows(ws, i + 1, j); }
    if j < i { SumGrows(ws, j + 1, i); }
  }

  function Product(x: real, y: real): real { x * y }

  lemma Scale(x: real, y: real, t: real)
    requires t > 0.0
    ensures x < y <==> Product(x, t) < Product(y, t)
    ensures Product(0.0, t) == 0.0 && Product(1.0, t) == t
  {
  }

  /** Every item can be drawn, with a share of the draws in proportion to its weight: exactly
      the draws between `low` and `high` fall on it. */
  lemma ShareOfDraws(ws: seq<real>, i: nat, draw: real, x: real) returns (low: real, high: real)
    requires Positive(ws) && i < |ws| && x == Product(draw, Sum(ws))
    ensures 0.0 <= low < high <= 1.0 && Product(high - low, Sum(ws)) == ws[i]
    ensures FallsOn(ws, x, i) <==> (i == 0 || low < draw) && draw <= high
    ensures i == 0 ==> low == 0.0
    ensures i == |ws| - 1 ==> high == 1.0
  {
    hide Sum, Product;
    NoWeight();
    assert ws[..|ws|] == ws && ws[..0] == [];
    SumGrows(ws, 0, i);
    SumGrows(ws, i + 1, |ws|);
    SumStep(ws, i);
    low, high := Bounds(Sum(ws[..i]), Sum(ws[..i + 1]), Sum(ws), ws[i], draw, x);
  }

  lemma NoWeight()
    ensures Sum([]) == 0.0
  {
  }

  lemma Bounds(a: real, b: real, t: real, w: real, draw: real, x: real) returns (p: real, q: real)
    requires 0.0 <= a < b <= t && b == a + w && x == Product(draw, t)
    ensures 0.0 <= p < q <= 1.0 && Product(q - p, t) == w
    ensures (a < x <==> p < draw) && (x <= b <==> draw <= q)
    ensures (a == 0.0 ==> p == 0.0) && (b == t ==> q == 1.0)
  {
    hide Product;
    p := Part(a, t);
    q := Part(b, t);
    Difference(p, q, t);
    Scale(p, q, t);
    Scale(p, draw, t);
    Scale(q, draw, t);
    Scale(p, 0.0, t);
    Scale(0.0, p, t);
    Scale(1.0, q, t);
    Scale(q, 1.0, t);
  }

  lemma Part(a: real, t: real) returns (p: real)
    requires t > 0.0
    ensures p == a / t && Product(p, t) == a
  {
    p := a / t;
  }

  lemma Difference(p: real, q: real, t: real)
    ensures Product(q - p, t) == Product(q, t) - Product(p, t)
  {
  }

  /** How full the node is, at most 1. */
  function LoadRatio(active: int, maxConn: int): real
    requires maxConn >= 1
  {
    var ratio := active as real / maxConn as real;
    if ratio > 1.0 then 1.0 else ratio
  }

  /** The configured weight, up to 70 per cent less the busier the node is, and at least one. */
  function Score(weight: int, active: int, maxConn: int): real
    requires maxConn >= 1
  {
    AtLeastOne(Weighted(weight as real, LoadRatio(active, maxConn)))
  }

  function Weighted(weight: real, ratio: real): real { weight * (1.0 - ratio * 0.7) }

  lemma WeightedOrder(weight: real, a: real, b: real)
    requires weight >= 0.0 && 0.0 <= a <= b <= 1.0
    ensures 0.3 * weight <= Weighted(weight, b) <= Weighted(weight, a) <= weight
  {
    Times(weight, 1.0 - b * 0.7, 1.0 - a * 0.7);
    Times(weight, 0.3, 1.0 - b * 0.7);
    Times(weight, 1.0 - a * 0.7, 1.0);
  }

  function AtLeastOne(w: real): (r: real)
    ensures r >= 1.0
  {
    if w < 1.0 then 1.0 else w
  }

  /** An idle node counts with its full weight, a full or overfull one with 30 per cent of it. */
  lemma ScoreExtremes(weight: int, active: int, maxConn: int)
    requires maxConn >= 1 && active >= maxConn
    ensures Score(weight, 0, maxConn) == AtLeastOne(weight as real)
    ensures Score(weight, active, maxConn) == AtLeastOne(0.3 * weight as real)
  {
    hide Product;
    var m := maxConn as real;
    var none := Part(0.0, m);
    var p := Part(active as real, m);
    Scale(none, 0.0, m);
    Scale(0.0, none, m);
    Scale(p, 1.0, m);
    assert LoadRatio(0, maxConn) == 0.0 && LoadRatio(active, maxConn) == 1.0;
    AtBothEnds(weight as real);
  }

  /** In between, the score falls in proportion: of the configured weight, 70 per cent go with
      the part of the connections that is in use. */
  lemma ScoreInProportion(weight: int, active: int, maxConn: int) returns (x: real)
    requires maxConn >= 1 && 0 <= active <= maxConn
    ensures Score(weight, active, maxConn) == if x < 1.0 then 1.0 else x
    ensures x * (10 * maxConn) as real == (weight * (10 * maxConn - 7 * active)) as real
  {
    hide Product;
    var m := maxConn as real;
    var p := Part(active as real, m);
    Scale(1.0, p, m);
    assert LoadRatio(active, maxConn) == p;
    x := Weighted(weight as real, p);
    InProportion(weight as real, p, m, active as real);
    var a, b := weight, 10 * maxConn - 7 * active;
    assert (a * b) as real == a as real * b as real;
  }

  lemma InProportion(w: real, p: real, m: real, a: real)
    requires Product(p, m) == a
    ensures Weighted(w, p) * (10.0 * m) == w * (10.0 * m - 7.0 * a)
  {
    assert p * m == a;
    assert Weighted(w, p) * (10.0 * m) == w * ((1.0 - p * 0.7) * (10.0 * m));
    assert (1.0 - p * 0.7) * (10.0 * m) == 10.0 * m - 7.0 * (p * m);
  }

  lemma AtBothEnds(weight: real)
    ensures Weighted(weight, 0.0) == weight && Weighted(weight, 1.0) == 0.3 * weight
  {
  }

  lemma RatioOrder(a: int, b: int, maxConn: int)
    requires maxConn >= 1 && 0 <= a <= b
    ensures 0.0 <= LoadRatio(a, maxConn) <= LoadRatio(b, maxConn) <= 1.0
  {
    var m := maxConn as real;
    hide Product;
    var p := Part(a as real, m);
    var q := Part(b as real, m);
    Scale(q, p, m);
    Scale(p, 0.0, m);
  }

  /** A busier node never has the higher score. */
  lemma BusierScoresLess(weight: int, a: int, b: int, maxConn: int)
    requires maxConn >= 1 && weight >= 0 && 0 <= a <= b
    ensures 1.0 <= Score(weight, b, maxConn) <= Score(weight, a, maxConn)
    ensures Score(weight, a, maxConn) <= (if weight > 1 then weight else 1) as real
    ensures Score(weight, b, maxConn) >= 0.3 * weight as real
  {
    hide LoadRatio, Weighted;
    RatioOrder(a, b, maxConn);
    WeightedOrder(weight as real, LoadRatio(a, maxConn), LoadRatio(b, maxConn));
  }

  lemma Times(w: real, x: real, y: real)
    requires w >= 0.0 && x <= y
    ensures w * x <= w * y
  {
  }

  function Scores(nodes: seq<LBNode>): (ws: seq<real>)
    requires forall n | n in nodes :: n.maxConn >= 1
    reads nodes
    ensures |ws| == |nodes| && Positive(ws)
    ensures forall i | 0 <= i < |nodes| :: ws[i] == Score(nodes[i].weight, nodes[i].active, nodes[i].maxConn)
  {
    if nodes == [] then []
    else
      var last := nodes[|nodes| - 1];
      Scores(nodes[..|nodes| - 1]) + [Score(last.weight, last.active, last.maxConn)]
  }

  /** Subtracts the weights from the drawn point until nothing is left of it. */
  method Draw(weights: seq<real>, point: real) returns (k: nat)
    requires Positive(weights) && weights != [] && point < Sum(weights)
    ensures k < |weights| && FallsOn(weights, point, k)
  {
    hide Sum;
    NoWeight();
    assert weights[..0] == [] && weights[..|weights|] == weights;
    var r := point;
    k := 0;
    while k < |weights|
      invariant 0 <= k <= |weights|
      invariant r == point - Sum(weights[..k])
      invariant k > 0 ==> Sum(weights[..k]) < point
    {
      SumStep(weights, k);
      r := r - weights[k];
      if r <= 0.0 { return k; }
      k := k + 1;
    }
    assert false;
  }

  method ScoreAll(candidates: seq<LBNode>) returns (weights: seq<real>, total: real)
    requires forall n | n in candidates :: n.maxConn >= 1
    ensures weights == Scores(candidates) && total == Sum(weights)
  {
    hide Score, Sum, Scores;
    NoWeight();
    ghost var ws := Scores(candidates);
    assert ws[..0] == [] && ws[..|ws|] == ws;
    weights, total := [], 0.0;
    for k := 0 to |candidates|
      invariant weights == ws[..k] && total == Sum(ws[..k])
    {
      SumStep(ws, k);
      var w := Score(candidates[k].weight, candidates[k].active, candidates[k].maxConn);
      assert ws[..k + 1] == ws[..k] + [w];
      weights := weights + [w];
      total := total + w;
    }
  }

  /** The draw falls on this candidate. */
  ghost predicate DrawnFrom(candidates: seq<LBNode>, draw: real, node: LBNode)
    reads candidates
  {
    && node in candidates
    && (forall n | n in candidates :: n.maxConn >= 1)
    && exists i: nat | i < |candidates| ::
         node == candidates[i] && FallsOn(Scores(candidates), Product(draw, Sum(Scores(candidates))), i)
  }

  /** The draw picks the node its point falls on; a single candidate needs no draw, and is
      what the draw would pick. */
  method WeightedSelect(candidates: seq<LBNode>, draw: real) returns (node: LBNode)
    requires candidates != [] && 0.0 <= draw < 1.0
    requires forall n | n in candidates :: n.maxConn >= 1
    ensures node in candidates && DrawnFrom(candidates, draw, node)
  {
    hide Score, Sum, Scores, FallsOn, Product;
    if |candidates| == 1 {
      OnlyOne(Scores(candidates), draw);
      return candidates[0];
    }
    var weights, total := ScoreAll(candidates);
    PointInside(weights, draw);
    var k := Draw(weights, Product(draw, total));
    return candidates[k];
  }

  lemma PointInside(ws: seq<real>, draw: real)
    requires Positive(ws) && ws != [] && draw < 1.0
    ensures Product(draw, Sum(ws)) < Sum(ws)
  {
    hide Sum, Product;
    NoWeight();
    assert ws[..0] == [] && ws[..|ws|] == ws;
    SumGrows(ws, 0, |ws|);
    Scale(draw, 1.0, Sum(ws));
  }

  lemma OnlyOne(ws: seq<real>, draw: real)
    requires Positive(ws) && |ws| == 1 && draw < 1.0
    ensures FallsOn(ws, Product(draw, Sum(ws)), 0)
  {
    hide Sum, Product;
    PointInside(ws, draw);
    assert ws[..0 + 1] == ws;
  }

  // ----- Selection -----

  /** Whether one of the patterns matches a model name. */
  type Matcher = (seq<string>, string) -> bool

  predicate Suits(n: LBNode, matches: Matcher, modelName: string)
    reads n
  {
    n.HasRoom() && matches(n.patterns, modelName)
  }

  function Suitable(nodes: seq<LBNode>, matches: Matcher, modelName: string): (r: seq<LBNode>)
    reads nodes
    ensures forall n | n in r :: n in nodes && Suits(n, matches, modelName)
    ensures forall n | n in nodes && Suits(n, matches, modelName) :: n in r
  {
    if nodes == [] then []
    else
      var k := |nodes| - 1;
      assert nodes == nodes[..k] + [nodes[k]];
      Suitable(nodes[..k], matches, modelName) + (if Suits(nodes[k], matches, modelName) then [nodes[k]] else [])
  }

  /** Every node is looked at by itself, in order, and kept at most once. */
  lemma SuitableSnoc(nodes: seq<LBNode>, n: LBNode, matches: Matcher, modelName: string)
    ensures Suitable([], matches, modelName) == []
    ensures Suitable(nodes + [n], matches, modelName) ==
            Suitable(nodes, matches, modelName) +
            (if n.healthy && n.active < n.maxConn && matches(n.patterns, modelName) then [n] else [])
  {
    assert (nodes + [n])[..|nodes|] == nodes;
  }

  class Balancer {
    var nodes: seq<LBNode>
    const hasStore: bool             // Redis is configured
    var affinity: map<int, int>      // node id last used by a user

    constructor (hasStore: bool)
      ensures nodes == [] && affinity == map[] && this.hasStore == hasStore
    {
      nodes, affinity := [], map[];
      this.hasStore := hasStore;
    }

    method UpdateNodes(newNodes: seq<LBNode>)
      modifies this`nodes, newNodes
      ensures nodes == newNodes
      ensures forall n | n in newNodes :: n.healthy && n.active == old(n.active)
    {
      for i := 0 to |newNodes|
        invariant forall j | 0 <= j < i :: newNodes[j].healthy
        invariant forall n | n in newNodes :: n.active == old(n.active)
        invariant nodes == old(nodes)
      {
        newNodes[i].healthy := true;
      }
      nodes := newNodes;
    }

    method FilterByModel(matches: Matcher, modelName: string) returns (r: seq<LBNode>)
      ensures r == Suitable(nodes, matches, modelName)
    {
      r := [];
      for i := 0 to |nodes|
        invariant r == Suitable(nodes[..i], matches, modelName)
      {
        assert nodes[..i + 1][..i] == nodes[..i];
        var n := nodes[i];
        if !n.healthy { continue; }
        if n.active >= n.maxConn { continue; }
        if matches(n.patterns, modelName) { r := r + [n]; }
      }
      assert nodes[..|nodes|] == nodes;
    }

    /** The first candidate with the remembered id, if it still has room. */
    method GetAffinityNode(userId: int, candidates: seq<LBNode>) returns (r: Option<LBNode>)
      ensures r.Some? ==> r.value in candidates && r.value.HasRoom()
                          && hasStore && userId in affinity && affinity[userId] == r.value.id
      ensures r.None? && hasStore && userId in affinity ==>
                forall n | n in candidates :: n.id == affinity[userId] ==> !n.HasRoom()
    {
      if !hasStore || userId !in affinity { return None; }
      var nodeId := affinity[userId];
      for i := 0 to |candidates|
        invariant forall j | 0 <= j < i :: candidates[j].id == nodeId ==> !candidates[j].HasRoom()
      {
        var n := candidates[i];
        if n.id == nodeId && n.healthy && n.active < n.maxConn { return Some(n); }
      }
      return None;
    }

    /** Run without interference, a selection fails only when no node suits, follows the
        user's affinity while it can, and takes one connection of one suitable node. */
    method SelectProvider(userId: int, matches: Matcher, modelName: string, draw: real) returns (r: Option<LBNode>)
      requires 0.0 <= draw < 1.0
      requires forall n | n in nodes :: n.active >= 0
      modifies this`affinity, nodes
      ensures nodes == old(nodes)
      ensures r.None? <==> forall n | n in nodes ::
                !(old(n.healthy) && old(n.active) < n.maxConn && matches(n.patterns, modelName))
      ensures r.Some? ==>
                && r.value in nodes && old(r.value.healthy) && old(r.value.active) < r.value.maxConn
                && matches(r.value.patterns, modelName)
                && r.value.active == old(r.value.active) + 1
      ensures r.Some? && hasStore && userId in old(affinity)
              && (exists n :: n in nodes && old(Suits(n, matches, modelName)) && n.id == old(affinity)[userId]) ==>
                r.value.id == old(affinity)[userId]
      ensures r.Some? && !(hasStore && userId in old(affinity) && r.value.id == old(affinity)[userId]) ==>
                old(DrawnFrom(Suitable(nodes, matches, modelName), draw, r.value))
      ensures affinity == if r.Some? && hasStore then old(affinity)[userId := r.value.id] else old(affinity)
      ensures forall n | n in nodes && Some(n) != r :: n.active == old(n.active)
      ensures forall n | n in nodes :: n.healthy == old(n.healthy)
    {
      hide Score, Sum, Scores, FallsOn, Suitable, Product, DrawnFrom;
      var candidates := FilterByModel(matches, modelName);
      if |candidates| == 0 {
        Nobody(nodes, matches, modelName);
        return None;
      }
      assert candidates == old(Suitable(nodes, matches, modelName));
      assert candidates[0] in nodes && Suits(candidates[0], matches, modelName);
      var near := GetAffinityNode(userId, candidates);
      if near.Some? {
        near.value.active := near.value.active + 1;
        assert affinity == affinity[userId := near.value.id];
        return near;
      }
      var node := WeightedSelect(candidates, draw);
      assert old(DrawnFrom(candidates, draw, node));
      if hasStore { affinity := affinity[userId := node.id]; }
      node.active := node.active + 1;
      return Some(node);
    }
  }

  lemma Nobody(nodes: seq<LBNode>, matches: Matcher, modelName: string)
    requires Suitable(nodes, matches, modelName) == []
    ensures forall n | n in nodes :: !Suits(n, matches, modelName)
  {
    forall n | n in nodes ensures !Suits(n, matches, modelName) {
      assert Suits(n, matches, modelName) ==> n in Suitable(nodes, matches, modelName);
    }
  }
}
