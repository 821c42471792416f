/**
 * The library functions: the tag lookup and the two dictionary-building loops of the geometry
 * import, the colour, label and trace rules of the 3D plot, and the dimension dispatch that
 * starts a solver model.
 *
 * The mesh engine (gmsh), the charting library (plotly) and the solver (openseespy) are not
 * modelled. What the import asks the mesh engine for is passed in as a `GeoModel` value; the
 * plot is modelled as the list of traces it would hand to the charting library.
 */
module StructeasyLib {
  import opened Wrappers
  import opened StructeasyClass

  // ---------------------------------------------------------------------------------------
  // Tag lookup (assign_tag)
  // ---------------------------------------------------------------------------------------

  /** A physical group as the mesh engine lists it: (dimension, group id). */
  type Group = (int, int)

  /** The mesh engine's answer to "which entities belong to group (dim, id)?". */
  type GroupQuery = (int, int) -> seq<int>

  /** Group `g` has dimension `dim` and contains `entity`: the test made for each group. */
  predicate InGroup(entity: int, dim: int, g: Group, members: GroupQuery) {
    g.0 == dim && entity in members(dim, g.1)
  }

  /** The tag of an entity: the id of the last group in scan order that contains it, or -1. */
  function GroupTag(entity: int, dim: int, groups: seq<Group>, members: GroupQuery): int {
    if |groups| == 0 then -1
    else if InGroup(entity, dim, groups[|groups| - 1], members) then groups[|groups| - 1].1
    else GroupTag(entity, dim, groups[..|groups| - 1], members)
  }

  /**
   * The tag is -1 when no group of that dimension contains the entity; otherwise it is the id
   * of a containing group with no containing group after it (the last match wins).
   */
  lemma {:induction false} GroupTagLastMatch(entity: int, dim: int, groups: seq<Group>, members: GroupQuery)
    ensures (forall j | 0 <= j < |groups| :: !InGroup(entity, dim, groups[j], members)) ==>
              GroupTag(entity, dim, groups, members) == -1
    ensures (exists j | 0 <= j < |groups| :: InGroup(entity, dim, groups[j], members)) ==>
              exists j | 0 <= j < |groups| ::
                && InGroup(entity, dim, groups[j], members)
                && GroupTag(entity, dim, groups, members) == groups[j].1
                && forall k | j < k < |groups| :: !InGroup(entity, dim, groups[k], members)
  {
    if |groups| > 0 {
      var n := |groups| - 1;
      var front := groups[..n];
      assert forall j | 0 <= j < n :: front[j] == groups[j];
      GroupTagLastMatch(entity, dim, front, members);
      if !InGroup(entity, dim, groups[n], members) {
        if exists j | 0 <= j < |groups| :: InGroup(entity, dim, groups[j], members) {
          var j :| 0 <= j < |groups| && InGroup(entity, dim, groups[j], members);
          assert InGroup(entity, dim, front[j], members);
        }
      }
    }
  }

  /** Any tag other than -1 is the id of a group of that dimension containing the entity. */
  lemma GroupTagSound(entity: int, dim: int, groups: seq<Group>, members: GroupQuery)
    ensures var t := GroupTag(entity, dim, groups, members);
      t == -1 || exists j | 0 <= j < |groups| :: InGroup(entity, dim, groups[j], members) && t == groups[j].1
  {
    GroupTagLastMatch(entity, dim, groups, members);
  }

  /** The scan of `assign_tag`: start at -1 and overwrite the tag at every matching group. */
  method AssignTag(nnumber: int, eltype: int, modelTags: seq<Group>, members: GroupQuery) returns (tag: int)
    ensures tag == GroupTag(nnumber, eltype, modelTags, members)
  {
    tag := -1;
    for i := 0 to |modelTags|
      invariant tag == GroupTag(nnumber, eltype, modelTags[..i], members)
    {
      var g := modelTags[i];
      if g.0 == eltype && nnumber in members(eltype, g.1) {
        tag := g.1;
      }
      assert modelTags[..i + 1][..i] == modelTags[..i];
    }
    assert modelTags[..|modelTags|] == modelTags;
  }

  // ---------------------------------------------------------------------------------------
  // Geometry import (import_geofile)
  // ---------------------------------------------------------------------------------------

  /** What the import asks the mesh engine about the opened file. */
  datatype GeoModel = GeoModel(
    points: seq<(int, int)>,              // the dimension-0 entities, (0, id)
    lines: seq<(int, int)>,               // the dimension-1 entities, (1, id)
    groups: seq<Group>,                   // the physical groups
    members: GroupQuery,                  // the entities of a physical group
    pointCoord: int -> Vec3,              // the coordinates of a point
    boundary: int -> seq<(int, int)>)     // the boundary points of a line, in order

  /** The ids of a list of entities. */
  function EntityIds(es: seq<(int, int)>): set<int> {
    set k | 0 <= k < |es| :: es[k].1
  }

  /** The first boundary point whose id is not a key, if any. */
  function FirstMissing(bs: seq<(int, int)>, keys: set<int>): (r: Option<int>)
    ensures r.None? <==> forall k | 0 <= k < |bs| :: bs[k].1 in keys
    ensures r.Some? ==> exists k | 0 <= k < |bs| ::
      bs[k].1 == r.value && r.value !in keys && forall j | 0 <= j < k :: bs[j].1 in keys
  {
    if |bs| == 0 then None
    else if bs[0].1 !in keys then Some(bs[0].1)
    else
      var r := FirstMissing(bs[1..], keys);
      assert forall k | 0 <= k < |bs| - 1 :: bs[1..][k] == bs[k + 1];
      r
  }

  /** `[nodes_db[n[1]] for n in bound_node]`: the nodes of the boundary points, or a KeyError. */
  function LookupNodes(bs: seq<(int, int)>, db: map<int, Node>): (r: Result<seq<Node>>)
    ensures r.Err? <==> FirstMissing(bs, db.Keys).Some?
    ensures r.Err? ==> r.error == KeyError(FirstMissing(bs, db.Keys).value)
    ensures r.Ok? ==> |r.value| == |bs| && forall k | 0 <= k < |bs| :: r.value[k] == db[bs[k].1]
  {
    if |bs| == 0 then Ok([])
    else if bs[0].1 !in db then Err(KeyError(bs[0].1))
    else
      match LookupNodes(bs[1..], db)
      case Ok(rest) => Ok([db[bs[0].1]] + rest)
      case Err(e) => Err(e)
  }

  /** Why building the Element of a line fails: a missing boundary point, or too few of them. */
  function LineFault(bs: seq<(int, int)>, keys: set<int>): Option<Exception> {
    match FirstMissing(bs, keys)
    case Some(key) => Some(KeyError(key))
    case None => if |bs| < 2 then Some(IndexError) else None
  }

  /** A node built by the import for point `id`. */
  predicate NodeOfPoint(n: Node, id: int, m: GeoModel) {
    && n.nnumber == id
    && n.coord == m.pointCoord(id)
    && n.tag == GroupTag(id, 0, m.groups, m.members)
    && n.eltype == Code(0)
  }

  /** An element built by the import for line `id`, referencing the nodes of `nodesDb`. */
  predicate ElementOfLine(e: Element, id: int, nodesDb: map<int, Node>, m: GeoModel) {
    && e.enumber == id
    && e.Valid()
    && |e.nodes| == |m.boundary(id)|
    && (forall k | 0 <= k < |e.nodes| :: m.boundary(id)[k].1 in nodesDb && e.nodes[k] == nodesDb[m.boundary(id)[k].1])
    && e.tag == GroupTag(id, 1, m.groups, m.members)
    && e.etype == Label("uniaxial")
  }

  /** The points loop of `import_geofile`: one fresh Node per point, keyed by the point id. */
  method BuildNodes(m: GeoModel) returns (nodesDb: map<int, Node>)
    ensures nodesDb.Keys == EntityIds(m.points)
    ensures forall id | id in nodesDb :: NodeOfPoint(nodesDb[id], id, m)
    ensures forall id | id in nodesDb :: fresh(nodesDb[id]) && nodesDb[id].container == [] && nodesDb[id].dataAnalysis == []
  {
    nodesDb := map[];
    for i := 0 to |m.points|
      invariant nodesDb.Keys == EntityIds(m.points[..i])
      invariant forall id | id in nodesDb :: NodeOfPoint(nodesDb[id], id, m)
      invariant forall id | id in nodesDb :: fresh(nodesDb[id]) && nodesDb[id].container == [] && nodesDb[id].dataAnalysis == []
    {
      var nnumber := m.points[i].1;
      var c := m.pointCoord(nnumber);
      var tag := AssignTag(nnumber, 0, m.groups, m.members);
      var node := new Node(nnumber, c.x, c.y, c.z, tag);
      nodesDb := nodesDb[nnumber := node];
      EntityIdsSnoc(m.points, i);
    }
    assert m.points[..|m.points|] == m.points;
  }

  /**
   * The lines loop of `import_geofile`: one fresh Element per line, built from the nodes of its
   * boundary points, or the error of the first line that cannot be built.
   */
  method BuildElements(m: GeoModel, nodesDb: map<int, Node>) returns (r: Result<map<int, Element>>)
    ensures r.Ok? <==> forall k | 0 <= k < |m.lines| :: LineFault(m.boundary(m.lines[k].1), nodesDb.Keys).None?
    ensures r.Err? ==> exists k | 0 <= k < |m.lines| ::
      && (forall j | 0 <= j < k :: LineFault(m.boundary(m.lines[j].1), nodesDb.Keys).None?)
      && LineFault(m.boundary(m.lines[k].1), nodesDb.Keys) == Some(r.error)
    ensures r.Ok? ==> r.value.Keys == EntityIds(m.lines)
    ensures r.Ok? ==> forall id | id in r.value :: ElementOfLine(r.value[id], id, nodesDb, m)
    ensures r.Ok? ==> forall id | id in r.value ::
      fresh(r.value[id]) && r.value[id].container == [] && r.value[id].dataAnalysis == []
  {
    var elementsDb: map<int, Element> := map[];
    for i := 0 to |m.lines|
      invariant elementsDb.Keys == EntityIds(m.lines[..i])
      invariant forall k | 0 <= k < i :: LineFault(m.boundary(m.lines[k].1), nodesDb.Keys).None?
      invariant forall id | id in elementsDb :: ElementOfLine(elementsDb[id], id, nodesDb, m)
      invariant forall id | id in elementsDb ::
        fresh(elementsDb[id]) && elementsDb[id].container == [] && elementsDb[id].dataAnalysis == []
    {
      var enumber := m.lines[i].1;
      var bound := m.boundary(enumber);
      var found := LookupNodes(bound, nodesDb);
      if found.Err? {
        assert LineFault(bound, nodesDb.Keys) == Some(found.error);
        return Err(found.error);
      }
      var tag := AssignTag(enumber, 1, m.groups, m.members);
      var made := Element.Make(enumber, found.value, tag, Label("uniaxial"));
      if made.Err? {
        assert LineFault(bound, nodesDb.Keys) == Some(made.error);
        return Err(made.error);
      }
      var e := made.value;
      assert ElementOfLine(e, enumber, nodesDb, m);
      elementsDb := elementsDb[enumber := e];
      EntityIdsSnoc(m.lines, i);
    }
    assert m.lines[..|m.lines|] == m.lines;
    r := Ok(elementsDb);
  }

  /**
   * `import_geofile` without its session handling: the node dictionary, then the element
   * dictionary, or the error of the first line whose element cannot be built.
   */
  method ImportGeofile(m: GeoModel) returns (r: Result<(map<int, Node>, map<int, Element>)>)
    ensures r.Ok? <==> forall k | 0 <= k < |m.lines| :: LineFault(m.boundary(m.lines[k].1), EntityIds(m.points)).None?
    ensures r.Err? ==> exists k | 0 <= k < |m.lines| ::
      && (forall j | 0 <= j < k :: LineFault(m.boundary(m.lines[j].1), EntityIds(m.points)).None?)
      && LineFault(m.boundary(m.lines[k].1), EntityIds(m.points)) == Some(r.error)
    ensures r.Ok? ==> var (nodesDb, elementsDb) := r.value;
      && nodesDb.Keys == EntityIds(m.points)
      && elementsDb.Keys == EntityIds(m.lines)
      && (forall id | id in nodesDb :: NodeOfPoint(nodesDb[id], id, m))
      && (forall id | id in elementsDb :: ElementOfLine(elementsDb[id], id, nodesDb, m))
    ensures r.Ok? ==> var (nodesDb, elementsDb) := r.value;
      && (forall id | id in nodesDb :: fresh(nodesDb[id]) && nodesDb[id].container == [] && nodesDb[id].dataAnalysis == [])
      && (forall id | id in elementsDb :: fresh(elementsDb[id]) && elementsDb[id].container == [] && elementsDb[id].dataAnalysis == [])
  {
    var nodesDb := BuildNodes(m);
    var elements := BuildElements(m, nodesDb);
    match elements
    case Err(e) =>
      r := Err(e);
    case Ok(elementsDb) =>
      r := Ok((nodesDb, elementsDb));
  }

  lemma EntityIdsSnoc(es: seq<(int, int)>, i: nat)
    requires i < |es|
    ensures EntityIds(es[..i + 1]) == EntityIds(es[..i]) + {es[i].1}
  {
    var a, b := es[..i + 1], es[..i];
    assert forall k | 0 <= k < i :: a[k] == b[k];
    assert a[i] == es[i];
  }

  // ---------------------------------------------------------------------------------------
  // Plot (plot_model): colours, labels and traces
  // ---------------------------------------------------------------------------------------

  /** A colour: the two fixed fallbacks, or the k-th of n evenly spaced colours of the rainbow ramp. */
  datatype Color = Red | Black | Rainbow(position: nat, count: nat)

  /** The tags of all nodes, then of all elements, in dictionary order. */
  function AllTags(nodeItems: seq<(int, Node)>, elementItems: seq<(int, Element)>): seq<int> {
    seq(|nodeItems|, k requires 0 <= k < |nodeItems| => nodeItems[k].1.tag)
      + seq(|elementItems|, k requires 0 <= k < |elementItems| => elementItems[k].1.tag)
  }

  /** The tags of a list with the ungrouped marker -1 left out, in order. */
  function Grouped(tags: seq<int>): seq<int> {
    if |tags| == 0 then []
    else if tags[0] == -1 then Grouped(tags[1..])
    else [tags[0]] + Grouped(tags[1..])
  }

  lemma {:induction false} GroupedMembers(tags: seq<int>)
    ensures forall t :: t in Grouped(tags) <==> t in tags && t != -1
  {
    if |tags| > 0 {
      GroupedMembers(tags[1..]);
      assert tags == [tags[0]] + tags[1..];
    }
  }

  /** The tag set of the colour map: the distinct tags other than -1 of all nodes and elements. */
  function TagSet(nodeItems: seq<(int, Node)>, elementItems: seq<(int, Element)>): set<int> {
    set t | t in Grouped(AllTags(nodeItems, elementItems))
  }

  /** A tag is in the tag set exactly when it is not -1 and some node or element carries it. */
  lemma TagSetMembers(nodeItems: seq<(int, Node)>, elementItems: seq<(int, Element)>, t: int)
    ensures t in TagSet(nodeItems, elementItems) <==>
      && t != -1
      && ((exists k | 0 <= k < |nodeItems| :: nodeItems[k].1.tag == t)
          || (exists k | 0 <= k < |elementItems| :: elementItems[k].1.tag == t))
  {
    var all := AllTags(nodeItems, elementItems);
    GroupedMembers(all);
    if exists k | 0 <= k < |nodeItems| :: nodeItems[k].1.tag == t {
      var k :| 0 <= k < |nodeItems| && nodeItems[k].1.tag == t;
      assert all[k] == t;
    }
    if exists k | 0 <= k < |elementItems| :: elementItems[k].1.tag == t {
      var k :| 0 <= k < |elementItems| && elementItems[k].1.tag == t;
      assert all[|nodeItems| + k] == t;
    }
    if t in all {
      var i :| 0 <= i < |all| && all[i] == t;
      if i < |nodeItems| {
        assert nodeItems[i].1.tag == t;
      } else {
        assert elementItems[i - |nodeItems|].1.tag == t;
      }
    }
  }

  predicate NoDuplicates(s: seq<int>) {
    forall i, j | 0 <= i < j < |s| :: s[i] != s[j]
  }

  /** `order` lists the elements of `s`, each once: the iteration order of a Python set. */
  ghost predicate Enumerates(order: seq<int>, s: set<int>) {
    NoDuplicates(order) && forall t :: t in order <==> t in s
  }

  /** The tag-to-colour map: the k-th of n listed tags gets the k-th of n ramp colours. */
  function TagColorMap(order: seq<int>): (cmap: map<int, Color>)
    requires NoDuplicates(order)
    ensures forall t :: t in cmap <==> t in order
    ensures forall k | 0 <= k < |order| :: order[k] in cmap && cmap[order[k]] == Rainbow(k, |order|)
    ensures forall s, t | s in cmap && t in cmap && s != t :: cmap[s] != cmap[t]
  {
    var cmap := map k | 0 <= k < |order| :: order[k] := Rainbow(k, |order|);
    assert forall k | 0 <= k < |order| :: order[k] in cmap && cmap[order[k]] == Rainbow(k, |order|);
    cmap
  }

  /** The colour map: built from the tag set when colouring by tag, empty otherwise. */
  function ColorMap(colorByTag: bool, order: seq<int>): (cmap: map<int, Color>)
    requires colorByTag ==> NoDuplicates(order)
    ensures !colorByTag ==> cmap == map[]
    ensures colorByTag ==> forall t :: t in cmap <==> t in order
  {
    if colorByTag then TagColorMap(order) else map[]
  }

  function NodeColor(tag: int, colorByTag: bool, cmap: map<int, Color>): Color {
    if colorByTag then (if tag in cmap then cmap[tag] else Red) else Red
  }

  function ElementColor(tag: int, colorByTag: bool, cmap: map<int, Color>): Color {
    if colorByTag then (if tag in cmap then cmap[tag] else Black) else Black
  }

  /**
   * The colour rules: with the map built from an enumeration of the tag set, a node is red (an
   * element black) exactly when colouring by tag is off or it is ungrouped; otherwise it has the
   * ramp colour of its tag's position.
   */
  lemma ColorRules(nodeItems: seq<(int, Node)>, elementItems: seq<(int, Element)>, colorByTag: bool, order: seq<int>, tag: int)
    requires colorByTag ==> Enumerates(order, TagSet(nodeItems, elementItems))
    requires (exists k | 0 <= k < |nodeItems| :: nodeItems[k].1.tag == tag)
          || (exists k | 0 <= k < |elementItems| :: elementItems[k].1.tag == tag)
    ensures var cmap := ColorMap(colorByTag, order);
      && (NodeColor(tag, colorByTag, cmap) == Red <==> !colorByTag || tag == -1)
      && (ElementColor(tag, colorByTag, cmap) == Black <==> !colorByTag || tag == -1)
      && (colorByTag && tag != -1 ==> exists k | 0 <= k < |order| ::
            order[k] == tag && NodeColor(tag, colorByTag, cmap) == Rainbow(k, |order|)
            && ElementColor(tag, colorByTag, cmap) == Rainbow(k, |order|))
  {
    TagSetMembers(nodeItems, elementItems, tag);
    if colorByTag && tag != -1 {
      var k :| 0 <= k < |order| && order[k] == tag;
      assert TagColorMap(order)[order[k]] == Rainbow(k, |order|);
    }
  }

  /** The text of `str(n)` for an integer. */
  function Str(i: int): string {
    if i < 0 then "-" + NatStr(-i) else NatStr(i)
  }

  function NatStr(n: nat): string {
    if n < 10 then [DigitChar(n)] else NatStr(n / 10) + [DigitChar(n % 10)]
  }

  function DigitChar(d: nat): char
    requires d < 10
  {
    "0123456789"[d]
  }

  predicate IsDigit(c: char) {
    '0' <= c <= '9'
  }

  function DigitValue(c: char): nat
    requires IsDigit(c)
  {
    (c as int - '0' as int) as nat
  }

  /** The value of a non-empty string of decimal digits. */
  function ParseNat(s: string): Option<nat> {
    if |s| == 0 || !IsDigit(s[|s| - 1]) then None
    else if |s| == 1 then Some(DigitValue(s[0]))
    else match ParseNat(s[..|s| - 1])
      case Some(v) => Some(10 * v + DigitValue(s[|s| - 1]))
      case None => None
  }

  /** The value of an optionally signed decimal string: the inverse of `Str`. */
  function ParseInt(s: string): Option<int> {
    if |s| > 0 && s[0] == '-' then
      match ParseNat(s[1..])
      case Some(v) => Some(-(v as int))
      case None => None
    else
      match ParseNat(s)
      case Some(v) => Some(v)
      case None => None
  }

  lemma {:induction false} NatStrRoundTrip(n: nat)
    ensures |NatStr(n)| > 0
    ensures forall k | 0 <= k < |NatStr(n)| :: IsDigit(NatStr(n)[k])
    ensures ParseNat(NatStr(n)) == Some(n)
  {
    if n >= 10 {
      NatStrRoundTrip(n / 10);
      var s := NatStr(n);
      assert s[..|s| - 1] == NatStr(n / 10);
    }
  }

  /** `str` loses nothing: the text of an integer reads back as that integer. */
  lemma StrRoundTrip(i: int)
    ensures ParseInt(Str(i)) == Some(i)
    ensures forall k | 0 <= k < |Str(i)| :: IsDigit(Str(i)[k]) || Str(i)[k] == '-'
  {
    var s := Str(i);
    if i < 0 {
      var digits := NatStr(-i);
      NatStrRoundTrip(-i);
      assert s == "-" + digits;
      assert s[1..] == digits;
      assert ParseInt(s) == Some(-((-i) as int));
    } else {
      NatStrRoundTrip(i);
      assert IsDigit(s[0]);
    }
  }

  const TagSeparator: string := "<br>Tag: "

  /** The text showing an entity's number and its tag: `"<id><br>Tag: <tag>"`. */
  function TagLabel(id: int, tag: int): string {
    Str(id) + TagSeparator + Str(tag)
  }

  /** The position of the first `c` in `s`, or `|s|`. */
  function IndexOf(s: string, c: char): (i: nat)
    ensures i <= |s|
    ensures forall k | 0 <= k < i :: s[k] != c
    ensures i < |s| ==> s[i] == c
  {
    if |s| == 0 || s[0] == c then 0 else 1 + IndexOf(s[1..], c)
  }

  /** Reads a number-and-tag label back into its two integers. */
  function ParseTagLabel(s: string): Option<(int, int)> {
    var i := IndexOf(s, '<');
    var rest := s[i..];
    if |rest| < |TagSeparator| || rest[..|TagSeparator|] != TagSeparator then None
    else match (ParseInt(s[..i]), ParseInt(rest[|TagSeparator|..]))
      case (Some(id), Some(tag)) => Some((id, tag))
      case _ => None
  }

  /** A number-and-tag label names its entity and its tag unambiguously. */
  lemma TagLabelRoundTrip(id: int, tag: int)
    ensures ParseTagLabel(TagLabel(id, tag)) == Some((id, tag))
  {
    var s, head := TagLabel(id, tag), Str(id);
    StrRoundTrip(id);
    StrRoundTrip(tag);
    assert forall k | 0 <= k < |head| :: s[k] == head[k] && s[k] != '<';
    assert s[|head|] == '<';
    var i := IndexOf(s, '<');
    assert i == |head|;
    assert s[..i] == head;
    assert s[i..] == TagSeparator + Str(tag);
  }

  /**
   * The label of an entity: number and tag when tags are shown, else the number when numbers
   * are shown, else none.
   */
  function EntityLabel(id: int, tag: int, showNumbers: bool, showTags: bool): (r: Option<string>)
    ensures r.None? <==> !showNumbers && !showTags
    ensures showTags ==> r.Some? && ParseTagLabel(r.value) == Some((id, tag))
    ensures !showTags && showNumbers ==> r.Some? && ParseInt(r.value) == Some(id)
  {
    TagLabelRoundTrip(id, tag);
    StrRoundTrip(id);
    if showTags then Some(TagLabel(id, tag)) else if showNumbers then Some(Str(id)) else None
  }

  /** The node labels: present only when numbers are shown; then each is the node's entity label. */
  function NodeLabels(nodeItems: seq<(int, Node)>, showNumbers: bool, showTags: bool): (r: Option<seq<string>>)
    ensures r.None? <==> !showNumbers
    ensures r.Some? ==> |r.value| == |nodeItems| && forall k | 0 <= k < |nodeItems| ::
      Some(r.value[k]) == EntityLabel(nodeItems[k].0, nodeItems[k].1.tag, showNumbers, showTags)
  {
    if showNumbers then
      Some(seq(|nodeItems|, k requires 0 <= k < |nodeItems| =>
        if showTags then TagLabel(nodeItems[k].0, nodeItems[k].1.tag) else Str(nodeItems[k].0)))
    else None
  }

  /** With tags shown but numbers hidden, elements are labelled and nodes are not. */
  lemma TagsAloneLabelOnlyElements(nodeItems: seq<(int, Node)>, id: int, tag: int)
    ensures NodeLabels(nodeItems, false, true).None?
    ensures EntityLabel(id, tag, false, true) == Some(TagLabel(id, tag))
  {
  }

  function Sum(s: seq<real>): real {
    if |s| == 0 then 0.0 else Sum(s[..|s| - 1]) + s[|s| - 1]
  }

  /** The label position of an element: the mean of its nodes' coordinates. */
  function Midpoint(e: Element): Vec3
    requires |e.nodes| > 0
  {
    var n := |e.nodes| as real;
    Vec3(Sum(seq(|e.nodes|, k requires 0 <= k < |e.nodes| => e.nodes[k].x)) / n,
         Sum(seq(|e.nodes|, k requires 0 <= k < |e.nodes| => e.nodes[k].y)) / n,
         Sum(seq(|e.nodes|, k requires 0 <= k < |e.nodes| => e.nodes[k].z)) / n)
  }

  /** For a two-node element the label sits half way between the nodes. */
  lemma MidpointOfTwo(e: Element)
    requires |e.nodes| == 2
    ensures Midpoint(e) == Vec3((e.nodes[0].x + e.nodes[1].x) / 2.0,
                                (e.nodes[0].y + e.nodes[1].y) / 2.0,
                                (e.nodes[0].z + e.nodes[1].z) / 2.0)
  {
    var xs := seq(2, k requires 0 <= k < 2 => e.nodes[k].x);
    var ys := seq(2, k requires 0 <= k < 2 => e.nodes[k].y);
    var zs := seq(2, k requires 0 <= k < 2 => e.nodes[k].z);
    assert xs[..1] == [e.nodes[0].x] && ys[..1] == [e.nodes[0].y] && zs[..1] == [e.nodes[0].z];
    assert Sum(xs) == e.nodes[0].x + e.nodes[1].x by {
      assert Sum(xs[..1]) == Sum(xs[..1][..0]) + e.nodes[0].x;
    }
    assert Sum(ys) == e.nodes[0].y + e.nodes[1].y by {
      assert Sum(ys[..1]) == Sum(ys[..1][..0]) + e.nodes[0].y;
    }
    assert Sum(zs) == e.nodes[0].z + e.nodes[1].z by {
      assert Sum(zs[..1]) == Sum(zs[..1][..0]) + e.nodes[0].z;
    }
  }

  /** How a trace is drawn. */
  datatype Mode = Markers | MarkersText | Lines | Text

  /** A trace of the figure, without its styling (sizes, widths, fonts, legend). */
  datatype Trace =
    | NodeTrace(mode: Mode, points: seq<Vec3>, colors: seq<Color>, labels: Option<seq<string>>)
    | LineTrace(element: int, path: seq<Vec3>, color: Color)
    | LabelTrace(element: int, at: Vec3, text: Option<string>, color: Color)

  function LineTraceOf(id: int, e: Element, colorByTag: bool, cmap: map<int, Color>): Trace {
    LineTrace(id, seq(|e.nodes|, k requires 0 <= k < |e.nodes| => e.nodes[k].coord), ElementColor(e.tag, colorByTag, cmap))
  }

  function LabelTraceOf(id: int, e: Element, showNumbers: bool, showTags: bool, colorByTag: bool, cmap: map<int, Color>): Trace
    requires |e.nodes| > 0
  {
    LabelTrace(id, Midpoint(e), EntityLabel(id, e.tag, showNumbers, showTags), ElementColor(e.tag, colorByTag, cmap))
  }

  predicate AllHaveNodes(elementItems: seq<(int, Element)>) {
    forall k | 0 <= k < |elementItems| :: |elementItems[k].1.nodes| >= 2
  }

  /**
   * The element traces: one line trace per element in dictionary order, each preceded by a
   * label trace at the element's midpoint when numbers or tags are shown.
   */
  predicate IsElementTraces(traces: seq<Trace>, elementItems: seq<(int, Element)>, showNumbers: bool, showTags: bool,
                            colorByTag: bool, cmap: map<int, Color>)
    requires AllHaveNodes(elementItems)
  {
    if showNumbers || showTags then
      && |traces| == 2 * |elementItems|
      && forall k | 0 <= k < |elementItems| ::
           && traces[2 * k] == LabelTraceOf(elementItems[k].0, elementItems[k].1, showNumbers, showTags, colorByTag, cmap)
           && traces[2 * k + 1] == LineTraceOf(elementItems[k].0, elementItems[k].1, colorByTag, cmap)
    else
      && |traces| == |elementItems|
      && forall k | 0 <= k < |elementItems| ::
           traces[k] == LineTraceOf(elementItems[k].0, elementItems[k].1, colorByTag, cmap)
  }

  /** The traces `plot_model` appends for one element: a label trace first when labels are shown. */
  function TracesOfElement(item: (int, Element), showNumbers: bool, showTags: bool, colorByTag: bool,
                           cmap: map<int, Color>): seq<Trace>
    requires |item.1.nodes| > 0
  {
    var line := LineTraceOf(item.0, item.1, colorByTag, cmap);
    if showNumbers || showTags then [LabelTraceOf(item.0, item.1, showNumbers, showTags, colorByTag, cmap), line]
    else [line]
  }

  /** The traces of a list of elements, element by element. */
  function ElementTraceList(elementItems: seq<(int, Element)>, showNumbers: bool, showTags: bool, colorByTag: bool,
                            cmap: map<int, Color>): seq<Trace>
    requires AllHaveNodes(elementItems)
  {
    if |elementItems| == 0 then []
    else
      var n := |elementItems| - 1;
      ElementTraceList(elementItems[..n], showNumbers, showTags, colorByTag, cmap)
        + TracesOfElement(elementItems[n], showNumbers, showTags, colorByTag, cmap)
  }

  /** The trace list has the positional shape of `IsElementTraces`. */
  lemma {:induction false} ElementTraceListShape(elementItems: seq<(int, Element)>, showNumbers: bool, showTags: bool,
                                                 colorByTag: bool, cmap: map<int, Color>)
    requires AllHaveNodes(elementItems)
    ensures IsElementTraces(ElementTraceList(elementItems, showNumbers, showTags, colorByTag, cmap),
                            elementItems, showNumbers, showTags, colorByTag, cmap)
  {
    if |elementItems| > 0 {
      var n := |elementItems| - 1;
      var front := elementItems[..n];
      assert AllHaveNodes(front) by {
        assert forall k | 0 <= k < n :: front[k] == elementItems[k];
      }
      ElementTraceListShape(front, showNumbers, showTags, colorByTag, cmap);
      ElementTracesAppend(front, elementItems[n], showNumbers, showTags, colorByTag, cmap,
                          ElementTraceList(front, showNumbers, showTags, colorByTag, cmap));
      assert front + [elementItems[n]] == elementItems;
    }
  }

  /** Appending one element's traces extends the positional shape by that element. */
  lemma ElementTracesAppend(front: seq<(int, Element)>, last: (int, Element), showNumbers: bool, showTags: bool,
                            colorByTag: bool, cmap: map<int, Color>, traces: seq<Trace>)
    requires AllHaveNodes(front) && |last.1.nodes| >= 2
    requires IsElementTraces(traces, front, showNumbers, showTags, colorByTag, cmap)
    ensures AllHaveNodes(front + [last])
    ensures IsElementTraces(traces + TracesOfElement(last, showNumbers, showTags, colorByTag, cmap),
                            front + [last], showNumbers, showTags, colorByTag, cmap)
  {
    var items := front + [last];
    var all := traces + TracesOfElement(last, showNumbers, showTags, colorByTag, cmap);
    assert forall k | 0 <= k < |front| :: items[k] == front[k];
    assert items[|front|] == last;
    if showNumbers || showTags {
      forall k | 0 <= k < |items|
        ensures all[2 * k] == LabelTraceOf(items[k].0, items[k].1, showNumbers, showTags, colorByTag, cmap)
        ensures all[2 * k + 1] == LineTraceOf(items[k].0, items[k].1, colorByTag, cmap)
      {
        if k < |front| {
          assert all[2 * k] == traces[2 * k] && all[2 * k + 1] == traces[2 * k + 1];
        }
      }
    } else {
      forall k | 0 <= k < |items|
        ensures all[k] == LineTraceOf(items[k].0, items[k].1, colorByTag, cmap)
      {
        if k < |front| {
          assert all[k] == traces[k];
        }
      }
    }
  }

  /** The loop of `plot_model` that appends the element traces. */
  method ElementTraces(elementItems: seq<(int, Element)>, showNumbers: bool, showTags: bool, colorByTag: bool,
                       cmap: map<int, Color>) returns (traces: seq<Trace>)
    requires AllHaveNodes(elementItems)
    ensures traces == ElementTraceList(elementItems, showNumbers, showTags, colorByTag, cmap)
    ensures IsElementTraces(traces, elementItems, showNumbers, showTags, colorByTag, cmap)
  {
    traces := [];
    for i := 0 to |elementItems|
      invariant traces == ElementTraceList(elementItems[..i], showNumbers, showTags, colorByTag, cmap)
    {
      var (enumber, element) := elementItems[i];
      var lineTrace := LineTraceOf(enumber, element, colorByTag, cmap);
      if showNumbers || showTags {
        traces := traces + [LabelTraceOf(enumber, element, showNumbers, showTags, colorByTag, cmap)];
      }
      traces := traces + [lineTrace];
      assert elementItems[..i + 1][..i] == elementItems[..i];
    }
    assert elementItems[..|elementItems|] == elementItems;
    ElementTraceListShape(elementItems, showNumbers, showTags, colorByTag, cmap);
  }

  /** The node trace: every node as a marker, coloured by tag, labelled when numbers are shown. */
  function NodeTraceOf(nodeItems: seq<(int, Node)>, showNumbers: bool, showTags: bool, colorByTag: bool,
                       cmap: map<int, Color>): (t: Trace)
    ensures t.NodeTrace? && |t.points| == |nodeItems| && |t.colors| == |nodeItems|
    ensures t.mode == MarkersText <==> showNumbers || showTags
    ensures forall k | 0 <= k < |nodeItems| ::
      t.points[k] == nodeItems[k].1.coord && t.colors[k] == NodeColor(nodeItems[k].1.tag, colorByTag, cmap)
    ensures t.labels == NodeLabels(nodeItems, showNumbers, showTags)
  {
    NodeTrace(
      if showNumbers || showTags then MarkersText else Markers,
      seq(|nodeItems|, k requires 0 <= k < |nodeItems| => nodeItems[k].1.coord),
      if colorByTag then seq(|nodeItems|, k requires 0 <= k < |nodeItems| => if nodeItems[k].1.tag in cmap then cmap[nodeItems[k].1.tag] else Red)
      else seq(|nodeItems|, _ => Red),
      NodeLabels(nodeItems, showNumbers, showTags))
  }

  /**
   * The figure of `plot_model`: the node trace, then the element traces. `tagOrder` is the
   * iteration order of the tag set, which Python leaves unspecified.
   */
  method PlotModel(nodeItems: seq<(int, Node)>, elementItems: seq<(int, Element)>, showNumbers: bool := false,
                   showTags: bool := false, colorByTag: bool := false, tagOrder: seq<int> := [])
    returns (figure: seq<Trace>)
    requires colorByTag ==> Enumerates(tagOrder, TagSet(nodeItems, elementItems))
    requires AllHaveNodes(elementItems)
    ensures |figure| == 1 + (if showNumbers || showTags then 2 else 1) * |elementItems|
    ensures figure[0] == NodeTraceOf(nodeItems, showNumbers, showTags, colorByTag, ColorMap(colorByTag, tagOrder))
    ensures IsElementTraces(figure[1..], elementItems, showNumbers, showTags, colorByTag, ColorMap(colorByTag, tagOrder))
  {
    var cmap := ColorMap(colorByTag, tagOrder);
    var nodeTrace := NodeTraceOf(nodeItems, showNumbers, showTags, colorByTag, cmap);
    var elementTraces := ElementTraces(elementItems, showNumbers, showTags, colorByTag, cmap);
    figure := [nodeTrace] + elementTraces;
    assert figure[1..] == elementTraces;
  }

  // ---------------------------------------------------------------------------------------
  // Solver model start (start_model)
  // ---------------------------------------------------------------------------------------

  /** The solver's model dimensions: space dimensions and degrees of freedom per node. */
  datatype Dimensions = Dimensions(ndm: nat, ndf: nat)

  /**
   * The dimension dispatch: "2d" and "3d" start a model with that many space dimensions and the
   * matching rigid-body degrees of freedom per node (ndm translations and ndm(ndm-1)/2
   * rotations); anything else is a NameError.
   */
  function StartModel(typology: string): (r: Result<Dimensions>)
    ensures r.Ok? <==> typology == "2d" || typology == "3d"
    ensures r.Err? ==> r.error == NameError
    ensures r.Ok? ==> r.value.ndm == DigitValue(typology[0]) && typology[1] == 'd'
    ensures r.Ok? ==> r.value.ndf == r.value.ndm + r.value.ndm * (r.value.ndm - 1) / 2
  {
    if typology == "3d" then Ok(Dimensions(3, 6))
    else if typology == "2d" then Ok(Dimensions(2, 3))
    else Err(NameError)
  }

  /** The three cases of the dispatch. */
  lemma StartModelCases()
    ensures StartModel("3d") == Ok(Dimensions(3, 6))
    ensures StartModel("2d") == Ok(Dimensions(2, 3))
    ensures StartModel("tower") == Err(NameError)
  {
  }
}
