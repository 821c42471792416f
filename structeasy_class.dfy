/**
 * The geometry records of the structural model: a Node is a point with an identifier and a
 * physical-group tag, an Element is a line member that references two (or more) Nodes.
 *
 * Element does not inherit from Node: the source declares it a subclass but never runs the
 * Node initialiser, so an Element has none of a Node's identifier, coordinate or classifier
 * fields. Here the two are independent classes.
 */
module StructeasyClass {
  import opened Wrappers

  /** An entry of the caller-attached containers; never interpreted by the model. */
  type Datum

  /** The element-type classifier, which the source stores either as a number or as a name. */
  datatype Classifier = Code(code: int) | Label(name: string)

  /** A coordinate triple, the Python list `[x, y, z]`. */
  datatype Vec3 = Vec3(x: real, y: real, z: real)

  const Zero: Vec3 := Vec3(0.0, 0.0, 0.0)

  /** The global vertical axis, the default reference vector of `VecXZ`. */
  const Vertical: Vec3 := Vec3(0.0, 0.0, 1.0)

  function Sub(a: Vec3, b: Vec3): Vec3 {
    Vec3(a.x - b.x, a.y - b.y, a.z - b.z)
  }

  function Scale(c: real, v: Vec3): Vec3 {
    Vec3(c * v.x, c * v.y, c * v.z)
  }

  function Dot(a: Vec3, b: Vec3): real {
    a.x * b.x + a.y * b.y + a.z * b.z
  }

  function Cross(a: Vec3, b: Vec3): Vec3 {
    Vec3(a.y * b.z - a.z * b.y, a.z * b.x - a.x * b.z, a.x * b.y - a.y * b.x)
  }

  /** The square of the Euclidean distance between two points. */
  function SquaredDistance(p: Vec3, q: Vec3): real {
    (q.x - p.x) * (q.x - p.x) + (q.y - p.y) * (q.y - p.y) + (q.z - p.z) * (q.z - p.z)
  }

  lemma SquareNonNegative(a: real)
    ensures a * a >= 0.0
  {
  }

  /** A squared distance is never negative and is zero for coincident points. */
  lemma SquaredDistanceNonNegative(p: Vec3, q: Vec3)
    ensures SquaredDistance(p, q) >= 0.0
    ensures p == q ==> SquaredDistance(p, q) == 0.0
  {
    SquareNonNegative(q.x - p.x);
    SquareNonNegative(q.y - p.y);
    SquareNonNegative(q.z - p.z);
  }

  /** Swapping the two points does not change their squared distance. */
  lemma SquaredDistanceSymmetric(p: Vec3, q: Vec3)
    ensures SquaredDistance(p, q) == SquaredDistance(q, p)
  {
    var d, e := Sub(q, p), Sub(p, q);
    assert e.x * e.x == d.x * d.x && e.y * e.y == d.y * d.y && e.z * e.z == d.z * d.z by {
      assert e == Scale(-1.0, d);
    }
  }

  /** A cross product is orthogonal to both of its factors. */
  lemma CrossOrthogonal(a: Vec3, v: Vec3)
    ensures Dot(Cross(a, v), a) == 0.0
    ensures Dot(Cross(a, v), v) == 0.0
  {
  }

  /** The cross product of a vector with a multiple of itself is the zero vector. */
  lemma CrossParallel(v: Vec3, c: real)
    ensures Cross(Scale(c, v), v) == Zero
  {
    assert c * v.y * v.z - c * v.z * v.y == 0.0;
    assert c * v.z * v.x - c * v.x * v.z == 0.0;
    assert c * v.x * v.y - c * v.y * v.x == 0.0;
  }

  /** A point of the model. */
  class Node {
    const nnumber: int
    const x: real
    const y: real
    const z: real
    const tag: int
    /** The coordinate list, built from the three coordinates when the node is created. */
    const coord: Vec3 := Vec3(x, y, z)
    const eltype: Classifier
    var container: seq<Datum>
    var dataAnalysis: seq<Datum>

    constructor (nnumber: int, x: real, y: real, z: real, tag: int, eltype: Classifier := Code(0))
      ensures this.nnumber == nnumber && this.tag == tag && this.eltype == eltype
      ensures this.x == x && this.y == y && this.z == z
      ensures coord == Vec3(x, y, z) && coord == Vec3(this.x, this.y, this.z)
      ensures container == [] && dataAnalysis == []
    {
      this.nnumber, this.x, this.y, this.z, this.tag, this.eltype := nnumber, x, y, z, tag, eltype;
      container, dataAnalysis := [], [];
    }
  }

  /** A line member joining the first two of its nodes. */
  class Element {
    const enumber: int
    const nodes: seq<Node>
    const nodei: int
    const nodej: int
    const tag: int
    const etype: Classifier
    var container: seq<Datum>
    var dataAnalysis: seq<Datum>

    /** What construction establishes: at least two nodes, the first two named by nodei and nodej. */
    predicate Valid() {
      |nodes| >= 2 && nodei == nodes[0].nnumber && nodej == nodes[1].nnumber
    }

    constructor (enumber: int, nodes: seq<Node>, tag: int, etype: Classifier := Code(1))
      requires |nodes| >= 2
      ensures Valid()
      ensures this.enumber == enumber && this.nodes == nodes && this.tag == tag && this.etype == etype
      ensures nodei == nodes[0].nnumber && nodej == nodes[1].nnumber
      ensures container == [] && dataAnalysis == []
    {
      this.enumber, this.nodes, this.tag, this.etype := enumber, nodes, tag, etype;
      nodei, nodej := nodes[0].nnumber, nodes[1].nnumber;
      container, dataAnalysis := [], [];
    }

    /** Creating an Element, with the IndexError raised when fewer than two nodes are given. */
    static method Make(enumber: int, nodes: seq<Node>, tag: int, etype: Classifier := Code(1))
      returns (r: Result<Element>)
      ensures r.Err? <==> |nodes| < 2
      ensures r.Err? ==> r.error == IndexError
      ensures r.Ok? ==> fresh(r.value) && r.value.Valid()
      ensures r.Ok? ==> r.value.enumber == enumber && r.value.nodes == nodes
      ensures r.Ok? ==> r.value.tag == tag && r.value.etype == etype
      ensures r.Ok? ==> r.value.nodei == nodes[0].nnumber && r.value.nodej == nodes[1].nnumber
      ensures r.Ok? ==> r.value.container == [] && r.value.dataAnalysis == []
    {
      if |nodes| < 2 {
        return Err(IndexError);
      }
      var e := new Element(enumber, nodes, tag, etype);
      return Ok(e);
    }

    /** The axial direction, from the first node to the second. */
    function Axis(): Vec3
      requires |nodes| >= 2
    {
      Sub(nodes[1].coord, nodes[0].coord)
    }

    /**
     * The square of `length()`: undefined (None) unless the element has exactly two nodes,
     * otherwise the squared Euclidean distance between them.
     */
    function SquaredLength(): (r: Option<real>)
      ensures r.None? <==> |nodes| != 2
      ensures r.Some? ==> r.value == SquaredDistance(nodes[0].coord, nodes[1].coord)
      ensures r.Some? ==> r.value >= 0.0
      ensures r.Some? && nodes[0].coord == nodes[1].coord ==> r.value == 0.0
    {
      if |nodes| == 2 then
        SquaredDistanceNonNegative(nodes[0].coord, nodes[1].coord);
        Some(SquaredDistance(nodes[0].coord, nodes[1].coord))
      else
        None
    }

    /**
     * The local out-of-plane vector: the axis crossed with a reference vector, by default the
     * global vertical. The reference vector is a value, so the call cannot change it.
     */
    function VecXZ(v: Vec3 := Vertical): (r: Vec3)
      requires |nodes| >= 2
      ensures r == Cross(Axis(), v)
      ensures Dot(r, Axis()) == 0.0 && Dot(r, v) == 0.0
    {
      CrossOrthogonal(Axis(), v);
      Cross(Axis(), v)
    }
  }

  /** With the default reference vector the out-of-plane vector is (dy, -dx, 0). */
  lemma VecXZDefault(e: Element)
    requires |e.nodes| >= 2
    ensures e.VecXZ() == Vec3(e.Axis().y, -e.Axis().x, 0.0)
  {
  }

  /** With the default reference vector the out-of-plane vector vanishes exactly for a vertical axis. */
  lemma VecXZDegenerateIffVertical(e: Element)
    requires |e.nodes| >= 2
    ensures e.VecXZ() == Zero <==> e.Axis().x == 0.0 && e.Axis().y == 0.0
  {
  }

  /** An axis parallel to the reference vector gives the zero vector. */
  lemma VecXZParallel(e: Element, v: Vec3, c: real)
    requires |e.nodes| >= 2
    requires e.Axis() == Scale(c, v)
    ensures e.VecXZ(v) == Zero
  {
    CrossParallel(v, c);
  }

  /** The out-of-plane vector depends only on the coordinates of the first two nodes. */
  lemma VecXZFirstTwoNodes(e: Element, f: Element, v: Vec3)
    requires |e.nodes| >= 2 && |f.nodes| >= 2
    requires e.nodes[0].coord == f.nodes[0].coord && e.nodes[1].coord == f.nodes[1].coord
    ensures e.VecXZ(v) == f.VecXZ(v)
  {
  }

  /** Listing the two nodes in the other order leaves the length unchanged. */
  lemma SquaredLengthSwap(e: Element, f: Element)
    requires |e.nodes| == 2 && f.nodes == [e.nodes[1], e.nodes[0]]
    ensures e.SquaredLength() == f.SquaredLength()
  {
    SquaredDistanceSymmetric(e.nodes[0].coord, e.nodes[1].coord);
  }

  /** Nodes at (0, 0, 0) and (3, 4, 0): the squared length is 25 (a length of 5). */
  lemma SquaredLengthExample(e: Element)
    requires |e.nodes| == 2
    requires e.nodes[0].coord == Vec3(0.0, 0.0, 0.0) && e.nodes[1].coord == Vec3(3.0, 4.0, 0.0)
    ensures e.SquaredLength() == Some(25.0)
  {
    assert Sub(e.nodes[1].coord, e.nodes[0].coord) == Vec3(3.0, 4.0, 0.0);
    assert SquaredDistance(e.nodes[0].coord, e.nodes[1].coord) == 3.0 * 3.0 + 4.0 * 4.0 + 0.0 * 0.0;
  }
}
