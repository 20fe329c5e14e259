/** The border rebuild of the `create_borders` management command.

    The topology tables that PostGIS builds are inputs here: the edge table
    (each edge with its left and right face), the face table, the relation
    table tying faces to topogeometries, and the topology layer tying each
    area to its topogeometry. The `with ... insert` statement is a chain of
    pure relational steps (RelationFaces, AreaFaces, AreaToEdge, then the
    group-and-count of BorderLinks); the truncate, insert and update
    statements change two tables, modelled as the fields of BorderTables.

    SQL tables are bags: they are sequences here, in scan order. SQL leaves
    the order of grouped rows and of `array_agg` unspecified; the model fixes
    one order (first occurrence, table order) and its contracts state only
    what holds in every order, plus the absence of duplicates. */
module Borders {
  import opened Wrappers

  /** A row of the topology's edge table: `edge_id`, `left_face`, `right_face`. */
  datatype EdgeRow = EdgeRow(edgeId: int, leftFace: int, rightFace: int)

  /** A row of the topology's relation table. */
  datatype RelationRow = RelationRow(topogeoId: int, layerId: int, elementId: int, elementType: int)

  /** A row of the topology layer table: an area and the id of its topogeometry. */
  datatype LayerRow = LayerRow(areaId: int, topoId: int)

  /** The planar topology, as the command's SQL reads it. */
  datatype Topology = Topology(
    edges: seq<EdgeRow>,
    faces: set<int>,
    relations: seq<RelationRow>,
    layer: seq<LayerRow>)

  /** A row of `relation_faces`. */
  datatype FaceRef = FaceRef(faceId: int, topogeoId: int)

  /** A row of `area_faces`. */
  datatype AreaFace = AreaFace(faceId: int, areaId: int)

  /** An (edge, area) pair: a row of `area_to_edge`, a group key of
      `count_edges`, and a row of the border-to-area link table, whose
      `border_id` is the edge id. */
  datatype EdgeArea = EdgeArea(edgeId: int, areaId: int)

  /** A row of the border table apart from its id (the map key) and its
      line geometry: the two integer arrays. */
  datatype Border = Border(areaIds: seq<int>, areaTypes: seq<int>)

  /** Relation `element_type` of a polygon (1 point, 2 line, 3 polygon). */
  const PolygonElement := 3
  /** The topology layer the areas were loaded into. */
  const AreaLayer := 1

  predicate NoDup<T(==)>(s: seq<T>)
  {
    forall i, j :: 0 <= i < j < |s| ==> s[i] != s[j]
  }

  /** Edge ids are the edge table's primary key. */
  predicate EdgeIdsUnique(edges: seq<EdgeRow>)
  {
    forall i, j :: 0 <= i < j < |edges| ==> edges[i].edgeId != edges[j].edgeId
  }

  function EdgeIds(edges: seq<EdgeRow>): set<int>
  {
    set ed | ed in edges :: ed.edgeId
  }

  // ---------------------------------------------------------------------
  // The CTE chain of the border-to-area insert
  // ---------------------------------------------------------------------

  /** A relation row that `relation_faces` keeps: a polygon element in layer
      1 whose element id names a face. */
  predicate IsAreaPolygonFace(r: RelationRow, faces: set<int>)
  {
    r.elementType == PolygonElement && r.layerId == AreaLayer && r.elementId in faces
  }

  /** `relation_faces`: the face table joined with the relation rows that
      are polygon elements of layer 1. */
  function RelationFaces(faces: set<int>, rels: seq<RelationRow>): (rf: seq<FaceRef>)
    ensures |rf| <= |rels|
    ensures forall x :: x in rf <==>
      exists r :: r in rels && IsAreaPolygonFace(r, faces) && x == FaceRef(r.elementId, r.topogeoId)
  {
    if |rels| == 0 then []
    else
      var rest := RelationFaces(faces, rels[1..]);
      assert forall r :: r in rels[1..] ==> r in rels;
      assert forall r :: r in rels ==> r == rels[0] || r in rels[1..];
      if IsAreaPolygonFace(rels[0], faces) then [FaceRef(rels[0].elementId, rels[0].topogeoId)] + rest
      else rest
  }

  /** The `area_faces` rows one layer row contributes: each relation face of its topogeometry. */
  function FacesOfLayerRow(row: LayerRow, rf: seq<FaceRef>): seq<AreaFace>
  {
    if |rf| == 0 then []
    else
      var head := if rf[0].topogeoId == row.topoId then [AreaFace(rf[0].faceId, row.areaId)] else [];
      head + FacesOfLayerRow(row, rf[1..])
  }

  /** `area_faces`: the topology layer joined with `relation_faces` on the topogeometry id. */
  function AreaFacesOf(layer: seq<LayerRow>, rf: seq<FaceRef>): seq<AreaFace>
  {
    if |layer| == 0 then [] else FacesOfLayerRow(layer[0], rf) + AreaFacesOf(layer[1..], rf)
  }

  function AreaFaces(t: Topology): seq<AreaFace>
  {
    AreaFacesOf(t.layer, RelationFaces(t.faces, t.relations))
  }

  /** The `area_to_edge` rows one edge contributes: one per area-face row
      whose face is the edge's left face or its right face. */
  function EdgePairs(ed: EdgeRow, af: seq<AreaFace>): seq<EdgeArea>
  {
    if |af| == 0 then []
    else
      var touches := ed.leftFace == af[0].faceId || ed.rightFace == af[0].faceId;
      (if touches then [EdgeArea(ed.edgeId, af[0].areaId)] else []) + EdgePairs(ed, af[1..])
  }

  /** `area_to_edge`: the edge table joined with `area_faces`. */
  function AreaToEdgeOf(edges: seq<EdgeRow>, af: seq<AreaFace>): seq<EdgeArea>
  {
    if |edges| == 0 then [] else EdgePairs(edges[0], af) + AreaToEdgeOf(edges[1..], af)
  }

  function AreaToEdge(t: Topology): seq<EdgeArea>
  {
    AreaToEdgeOf(t.edges, AreaFaces(t))
  }

  /** The `count` column of `count_edges` for the group (edge, area). */
  function PairCount(t: Topology, edgeId: int, areaId: int): nat
  {
    multiset(AreaToEdge(t))[EdgeArea(edgeId, areaId)]
  }

  /** The distinct values of `s` in order of first occurrence: the group keys of a `group by`. */
  function Distinct(s: seq<EdgeArea>): (d: seq<EdgeArea>)
    ensures NoDup(d)
    ensures forall x :: x in d <==> x in s
  {
    if |s| == 0 then []
    else
      var d := Distinct(s[..|s| - 1]);
      assert forall x :: x in s <==> x in s[..|s| - 1] || x == s[|s| - 1];
      if s[|s| - 1] in d then d else d + [s[|s| - 1]]
  }

  /** The keys whose count in `m` is exactly one, in the order of `keys`. */
  function CountedOnce(keys: seq<EdgeArea>, m: multiset<EdgeArea>): (r: seq<EdgeArea>)
    ensures NoDup(keys) ==> NoDup(r)
    ensures forall x :: x in r <==> x in keys && m[x] == 1
  {
    if |keys| == 0 then []
    else
      var rest := CountedOnce(keys[1..], m);
      assert forall x :: x in keys <==> x == keys[0] || x in keys[1..];
      if m[keys[0]] == 1 then [keys[0]] + rest else rest
  }

  /** The rows the statement inserts into the link table: the groups of
      `count_edges` whose count is 1. */
  function BorderLinks(t: Topology): seq<EdgeArea>
  {
    var pairs := AreaToEdge(t);
    CountedOnce(Distinct(pairs), multiset(pairs))
  }

  /** A link is recorded exactly when its (edge, area) pairing occurs
      exactly once, and no link is recorded twice. */
  lemma BorderLinksSpec(t: Topology, edgeId: int, areaId: int)
    ensures NoDup(BorderLinks(t))
    ensures EdgeArea(edgeId, areaId) in BorderLinks(t) <==> PairCount(t, edgeId, areaId) == 1
  {
    var pairs := AreaToEdge(t);
    var x := EdgeArea(edgeId, areaId);
    assert x in pairs <==> multiset(pairs)[x] > 0;
  }

  // ---------------------------------------------------------------------
  // Counting the pairings of one edge with one area
  // ---------------------------------------------------------------------

  /** The faces of one area, one entry per `area_faces` row. */
  function FacesOf(af: seq<AreaFace>, areaId: int): seq<int>
  {
    if |af| == 0 then []
    else (if af[0].areaId == areaId then [af[0].faceId] else []) + FacesOf(af[1..], areaId)
  }

  /** How many of `faces` are the edge's left face or its right face. */
  function TouchCount(ed: EdgeRow, faces: seq<int>): nat
  {
    if |faces| == 0 then 0
    else (if faces[0] == ed.leftFace || faces[0] == ed.rightFace then 1 else 0) + TouchCount(ed, faces[1..])
  }

  /** An edge touching an area's faces: each face occurrence equal to the
      left face counts, each equal to the right face counts, and a face that
      is both (an edge with the same face on either side) counts once. */
  lemma {:induction false} TouchCountSides(ed: EdgeRow, faces: seq<int>)
    ensures TouchCount(ed, faces) ==
      if ed.leftFace == ed.rightFace then multiset(faces)[ed.leftFace]
      else multiset(faces)[ed.leftFace] + multiset(faces)[ed.rightFace]
  {
    if |faces| > 0 {
      TouchCountSides(ed, faces[1..]);
      assert faces == [faces[0]] + faces[1..];
      assert multiset(faces) == multiset{faces[0]} + multiset(faces[1..]);
    }
  }

  /** One edge's pairings: with its own id they number its touches of the
      area's faces; with any other id there are none. */
  lemma {:induction false} EdgePairsCount(ed: EdgeRow, af: seq<AreaFace>, edgeId: int, areaId: int)
    ensures multiset(EdgePairs(ed, af))[EdgeArea(edgeId, areaId)] ==
      if edgeId == ed.edgeId then TouchCount(ed, FacesOf(af, areaId)) else 0
  {
    if |af| > 0 {
      EdgePairsCount(ed, af[1..], edgeId, areaId);
      var faces := FacesOf(af, areaId);
      if af[0].areaId == areaId {
        assert faces == [af[0].faceId] + FacesOf(af[1..], areaId);
        assert faces[1..] == FacesOf(af[1..], areaId);
      } else {
        assert faces == FacesOf(af[1..], areaId);
      }
    }
  }

  /** With unique edge ids, the pairing count of an edge and an area is the
      number of that area's face occurrences the edge touches. */
  lemma {:induction false} AreaToEdgeCount(edges: seq<EdgeRow>, af: seq<AreaFace>, i: nat, areaId: int)
    requires EdgeIdsUnique(edges)
    requires i < |edges|
    ensures multiset(AreaToEdgeOf(edges, af))[EdgeArea(edges[i].edgeId, areaId)] ==
      TouchCount(edges[i], FacesOf(af, areaId))
  {
    var key := EdgeArea(edges[i].edgeId, areaId);
    EdgePairsCount(edges[0], af, edges[i].edgeId, areaId);
    if i == 0 {
      if |edges| > 1 {
        AreaToEdgeAbsent(edges[1..], af, edges[0].edgeId, areaId);
      } else {
        assert AreaToEdgeOf(edges[1..], af) == [];
      }
    } else {
      assert edges[0].edgeId != edges[i].edgeId;
      AreaToEdgeCount(edges[1..], af, i - 1, areaId);
    }
  }

  /** No pairing names an edge id that no edge row carries. */
  lemma {:induction false} AreaToEdgeAbsent(edges: seq<EdgeRow>, af: seq<AreaFace>, edgeId: int, areaId: int)
    requires forall ed :: ed in edges ==> ed.edgeId != edgeId
    ensures multiset(AreaToEdgeOf(edges, af))[EdgeArea(edgeId, areaId)] == 0
  {
    if |edges| > 0 {
      EdgePairsCount(edges[0], af, edgeId, areaId);
      assert forall ed :: ed in edges[1..] ==> ed in edges;
      AreaToEdgeAbsent(edges[1..], af, edgeId, areaId);
    }
  }

  /** The classification rule. With unique edge ids, an edge is linked to an
      area exactly when the area's faces, counted with multiplicity, meet the
      edge once: one side in the area and the other side outside it. */
  lemma LinkClassification(t: Topology, i: nat, areaId: int)
    requires EdgeIdsUnique(t.edges)
    requires i < |t.edges|
    ensures var ed := t.edges[i];
      var faces := multiset(FacesOf(AreaFaces(t), areaId));
      EdgeArea(ed.edgeId, areaId) in BorderLinks(t) <==>
        if ed.leftFace == ed.rightFace then faces[ed.leftFace] == 1
        else faces[ed.leftFace] + faces[ed.rightFace] == 1
  {
    var ed := t.edges[i];
    BorderLinksSpec(t, ed.edgeId, areaId);
    AreaToEdgeCount(t.edges, AreaFaces(t), i, areaId);
    TouchCountSides(ed, FacesOf(AreaFaces(t), areaId));
  }

  /** An interior cut-line: an edge whose two distinct sides are both faces
      of the same area pairs with it twice and is not a border of it. */
  lemma InteriorEdgeDropped(t: Topology, i: nat, areaId: int)
    requires EdgeIdsUnique(t.edges)
    requires i < |t.edges|
    requires t.edges[i].leftFace != t.edges[i].rightFace
    requires t.edges[i].leftFace in FacesOf(AreaFaces(t), areaId)
    requires t.edges[i].rightFace in FacesOf(AreaFaces(t), areaId)
    ensures PairCount(t, t.edges[i].edgeId, areaId) >= 2
    ensures EdgeArea(t.edges[i].edgeId, areaId) !in BorderLinks(t)
  {
    var ed := t.edges[i];
    AreaToEdgeCount(t.edges, AreaFaces(t), i, areaId);
    TouchCountSides(ed, FacesOf(AreaFaces(t), areaId));
    LinkClassification(t, i, areaId);
  }

  /** An outer edge: one side is a single face of the area and the other
      side is no face of it; the edge is a border of that area. */
  lemma OuterEdgeKept(t: Topology, i: nat, areaId: int)
    requires EdgeIdsUnique(t.edges)
    requires i < |t.edges|
    requires multiset(FacesOf(AreaFaces(t), areaId))[t.edges[i].leftFace] == 1
    requires t.edges[i].rightFace !in FacesOf(AreaFaces(t), areaId)
    ensures EdgeArea(t.edges[i].edgeId, areaId) in BorderLinks(t)
  {
    LinkClassification(t, i, areaId);
  }

  /** The faces `area_faces` gives an area: those named by a polygon relation
      of layer 1 on one of the area's topogeometries. */
  lemma AreaFacesSpec(t: Topology, areaId: int, face: int)
    ensures face in FacesOf(AreaFaces(t), areaId) <==>
      exists row, r :: row in t.layer && r in t.relations && row.areaId == areaId &&
        r.topogeoId == row.topoId && IsAreaPolygonFace(r, t.faces) && r.elementId == face
  {
    var rf := RelationFaces(t.faces, t.relations);
    AreaFacesOfSpec(t.layer, rf, areaId, face);
    if face in FacesOf(AreaFaces(t), areaId) {
      var row :| row in t.layer && row.areaId == areaId && FaceRef(face, row.topoId) in rf;
      var r :| r in t.relations && IsAreaPolygonFace(r, t.faces) && FaceRef(face, row.topoId) == FaceRef(r.elementId, r.topogeoId);
    }
  }

  lemma {:induction false} FacesOfLayerRowSpec(row: LayerRow, rf: seq<FaceRef>, areaId: int, face: int)
    ensures face in FacesOf(FacesOfLayerRow(row, rf), areaId) <==>
      row.areaId == areaId && FaceRef(face, row.topoId) in rf
  {
    if |rf| > 0 {
      FacesOfLayerRowSpec(row, rf[1..], areaId, face);
      FacesOfAppend(if rf[0].topogeoId == row.topoId then [AreaFace(rf[0].faceId, row.areaId)] else [],
        FacesOfLayerRow(row, rf[1..]), areaId);
      assert forall x :: x in rf <==> x == rf[0] || x in rf[1..];
      var head := if rf[0].topogeoId == row.topoId then [AreaFace(rf[0].faceId, row.areaId)] else [];
      if head != [] {
        assert FacesOf(head, areaId) == (if row.areaId == areaId then [rf[0].faceId] else []) + FacesOf(head[1..], areaId);
      }
    }
  }

  lemma {:induction false} AreaFacesOfSpec(layer: seq<LayerRow>, rf: seq<FaceRef>, areaId: int, face: int)
    ensures face in FacesOf(AreaFacesOf(layer, rf), areaId) <==>
      exists row :: row in layer && row.areaId == areaId && FaceRef(face, row.topoId) in rf
  {
    if |layer| > 0 {
      AreaFacesOfSpec(layer[1..], rf, areaId, face);
      FacesOfLayerRowSpec(layer[0], rf, areaId, face);
      FacesOfAppend(FacesOfLayerRow(layer[0], rf), AreaFacesOf(layer[1..], rf), areaId);
      assert forall x :: x in layer <==> x == layer[0] || x in layer[1..];
    }
  }

  lemma {:induction false} FacesOfAppend(a: seq<AreaFace>, b: seq<AreaFace>, areaId: int)
    ensures FacesOf(a + b, areaId) == FacesOf(a, areaId) + FacesOf(b, areaId)
  {
    if |a| == 0 {
      assert a + b == b;
    } else {
      assert (a + b)[0] == a[0];
      assert (a + b)[1..] == a[1..] + b;
      FacesOfAppend(a[1..], b, areaId);
    }
  }

  // ---------------------------------------------------------------------
  // The two array updates
  // ---------------------------------------------------------------------

  /** `array_agg(area_id)` of one border's links, in table order. */
  function AreaIdsOf(links: seq<EdgeArea>, borderId: int): (ids: seq<int>)
    ensures |ids| <= |links|
    ensures forall a :: a in ids <==> EdgeArea(borderId, a) in links
  {
    if |links| == 0 then []
    else
      var rest := AreaIdsOf(links[1..], borderId);
      assert forall x :: x in links <==> x == links[0] || x in links[1..];
      if links[0].edgeId == borderId then [links[0].areaId] + rest else rest
  }

  /** Without duplicate links, a border's area list names each linked area once. */
  lemma {:induction false} AreaIdsDistinct(links: seq<EdgeArea>, borderId: int)
    requires NoDup(links)
    ensures NoDup(AreaIdsOf(links, borderId))
  {
    if |links| > 0 {
      assert NoDup(links[1..]) by {
        forall i, j | 0 <= i < j < |links[1..]| ensures links[1..][i] != links[1..][j] {
          assert links[1..][i] == links[i + 1] && links[1..][j] == links[j + 1];
        }
      }
      AreaIdsDistinct(links[1..], borderId);
    }
  }

  /** The kind ids of a border's linked areas, in link order: the join of
      the links with the area table and the area-type table. An area
      without a kind, or missing from the area table, contributes nothing. */
  function KindsOf(links: seq<EdgeArea>, areaKinds: map<int, Option<int>>, types: set<int>, borderId: int): (kinds: seq<int>)
    ensures forall k :: k in kinds <==>
      exists l :: l in links && l.edgeId == borderId && l.areaId in areaKinds &&
        areaKinds[l.areaId] == Some(k) && k in types
  {
    if |links| == 0 then []
    else
      var rest := KindsOf(links[1..], areaKinds, types, borderId);
      assert forall x :: x in links <==> x == links[0] || x in links[1..];
      var l := links[0];
      if l.edgeId == borderId && l.areaId in areaKinds && areaKinds[l.areaId].Some? &&
         areaKinds[l.areaId].value in types
      then [areaKinds[l.areaId].value] + rest
      else rest
  }

  predicate StrictlyIncreasing(s: seq<int>)
  {
    forall i, j :: 0 <= i < j < |s| ==> s[i] < s[j]
  }

  /** A value below everything in an ascending list, and below `x`,
      keeps the list ascending when put in front of it with `x` added. */
  lemma PrependSmaller(h: int, rest: seq<int>, x: int, tail: seq<int>)
    requires StrictlyIncreasing(rest) && StrictlyIncreasing(tail)
    requires forall y :: y in rest ==> h < y
    requires h < x
    requires forall y :: y in tail <==> y == x || y in rest
    ensures StrictlyIncreasing([h] + tail)
  {
    var r' := [h] + tail;
    forall i, j | 0 <= i < j < |r'|
      ensures r'[i] < r'[j]
    {
      assert r'[j] == tail[j - 1] && r'[j] in tail;
      if i > 0 {
        assert r'[i] == tail[i - 1];
      }
    }
  }

  /** Inserts `x` into an ascending list that may already hold it. */
  function InsertSorted(x: int, r: seq<int>): (r': seq<int>)
    requires StrictlyIncreasing(r)
    ensures StrictlyIncreasing(r')
    ensures forall y :: y in r' <==> y == x || y in r
  {
    if |r| == 0 then [x]
    else if x < r[0] then [x] + r
    else if x == r[0] then r
    else
      var tail := InsertSorted(x, r[1..]);
      assert forall y :: y in r <==> y == r[0] || y in r[1..];
      PrependSmaller(r[0], r[1..], x, tail);
      [r[0]] + tail
  }

  /** `array_agg(distinct ...)`: PostgreSQL sorts the input of a DISTINCT
      aggregate, so the array lists the distinct values in ascending order. */
  function SortedDistinct(s: seq<int>): (r: seq<int>)
    ensures StrictlyIncreasing(r)
    ensures forall x :: x in r <==> x in s
  {
    if |s| == 0 then []
    else
      assert forall x :: x in s <==> x == s[0] || x in s[1..];
      InsertSorted(s[0], SortedDistinct(s[1..]))
  }

  /** `update_border_type_array`: borders named by the aggregate get their
      sorted distinct kinds; the others keep their arrays. */
  function WithAreaTypes(borders: map<int, Border>, links: seq<EdgeArea>,
                         areaKinds: map<int, Option<int>>, types: set<int>): map<int, Border>
  {
    map b | b in borders ::
      var kinds := KindsOf(links, areaKinds, types, b);
      if kinds != [] then borders[b].(areaTypes := SortedDistinct(kinds)) else borders[b]
  }

  /** `update_border_area_array`: borders with at least one link get the
      aggregated area ids; the others keep their arrays. */
  function WithAreaIds(borders: map<int, Border>, links: seq<EdgeArea>): map<int, Border>
  {
    map b | b in borders ::
      var ids := AreaIdsOf(links, b);
      if ids != [] then borders[b].(areaIds := ids) else borders[b]
  }

  /** The two array updates touch different columns and read only the link
      table, so the order in which the command runs them does not matter. */
  lemma ArrayUpdatesCommute(borders: map<int, Border>, links: seq<EdgeArea>,
                            areaKinds: map<int, Option<int>>, types: set<int>)
    ensures WithAreaIds(WithAreaTypes(borders, links, areaKinds, types), links) ==
            WithAreaTypes(WithAreaIds(borders, links), links, areaKinds, types)
  {
  }

  /** `populate_edge_table`: one border per distinct edge id, both arrays empty. */
  function FreshBorders(edges: seq<EdgeRow>): (borders: map<int, Border>)
    ensures borders.Keys == EdgeIds(edges)
    ensures forall b :: b in borders ==> borders[b] == Border([], [])
  {
    map e | e in EdgeIds(edges) :: Border([], [])
  }

  /** The border table after a whole run of the command. */
  function RebuiltBorders(t: Topology, areaKinds: map<int, Option<int>>, types: set<int>): map<int, Border>
  {
    var links := BorderLinks(t);
    WithAreaIds(WithAreaTypes(FreshBorders(t.edges), links, areaKinds, types), links)
  }

  /** What a run leaves in the border table: one row per distinct edge;
      each row lists every area linked to it exactly once, and the sorted
      distinct kinds of those areas; an edge with no surviving link keeps
      empty arrays. */
  lemma RebuiltBordersSpec(t: Topology, areaKinds: map<int, Option<int>>, types: set<int>, b: int)
    ensures RebuiltBorders(t, areaKinds, types).Keys == EdgeIds(t.edges)
    ensures b in EdgeIds(t.edges) ==>
      var row := RebuiltBorders(t, areaKinds, types)[b];
      NoDup(row.areaIds) &&
      (forall a :: a in row.areaIds <==> EdgeArea(b, a) in BorderLinks(t)) &&
      StrictlyIncreasing(row.areaTypes) &&
      (forall k :: k in row.areaTypes <==>
        exists a :: a in row.areaIds && a in areaKinds && areaKinds[a] == Some(k) && k in types)
  {
    var links := BorderLinks(t);
    BorderLinksSpec(t, 0, 0);
    if b in EdgeIds(t.edges) {
      AreaIdsDistinct(links, b);
      var row := RebuiltBorders(t, areaKinds, types)[b];
      var kinds := KindsOf(links, areaKinds, types, b);
      forall k ensures k in row.areaTypes <==>
        exists a :: a in row.areaIds && a in areaKinds && areaKinds[a] == Some(k) && k in types
      {
        if k in row.areaTypes {
          assert k in kinds;
          var l :| l in links && l.edgeId == b && l.areaId in areaKinds &&
            areaKinds[l.areaId] == Some(k) && k in types;
          assert l == EdgeArea(b, l.areaId);
          assert l.areaId in row.areaIds;
        }
        if exists a :: a in row.areaIds && a in areaKinds && areaKinds[a] == Some(k) && k in types {
          var a :| a in row.areaIds && a in areaKinds && areaKinds[a] == Some(k) && k in types;
          assert EdgeArea(b, a) in links;
          assert k in kinds;
        }
      }
    }
  }

  /** An edge that no area kept keeps the empty arrays it was created with. */
  lemma UnlinkedBorderStaysEmpty(t: Topology, areaKinds: map<int, Option<int>>, types: set<int>, b: int)
    requires b in EdgeIds(t.edges)
    requires forall a :: EdgeArea(b, a) !in BorderLinks(t)
    ensures RebuiltBorders(t, areaKinds, types)[b] == Border([], [])
  {
    var links := BorderLinks(t);
    NoLinksNoArrays(links, areaKinds, types, b);
    var created := FreshBorders(t.edges);
    var typed := WithAreaTypes(created, links, areaKinds, types);
    assert typed[b] == created[b] == Border([], []);
    assert b in typed;
    assert WithAreaIds(typed, links)[b] == typed[b];
  }

  lemma {:induction false} NoLinksNoArrays(links: seq<EdgeArea>, areaKinds: map<int, Option<int>>, types: set<int>, b: int)
    requires forall a :: EdgeArea(b, a) !in links
    ensures AreaIdsOf(links, b) == [] && KindsOf(links, areaKinds, types, b) == []
  {
    if |links| > 0 {
      assert links[0] == EdgeArea(links[0].edgeId, links[0].areaId);
      assert forall x :: x in links[1..] ==> x in links;
      NoLinksNoArrays(links[1..], areaKinds, types, b);
    }
  }

  /** The two tables the command rebuilds. */
  class BorderTables {
    /** `simple_locations_border`, keyed by id (the edge id). */
    var borders: map<int, Border>
    /** `simple_locations_border_area`, in table order. */
    var links: seq<EdgeArea>

    constructor ()
      ensures borders == map[] && links == []
    {
      borders := map[];
      links := [];
    }

    /** `truncate simple_locations_border cascade` (which also empties the
        link table that references it), then one empty row per distinct edge. */
    method PopulateEdgeTable(edges: seq<EdgeRow>)
      modifies this
      ensures borders == FreshBorders(edges)
      ensures links == []
    {
      links := [];
      borders := FreshBorders(edges);
    }

    /** Truncates the link table, then inserts the (edge, area) pairs counted once. */
    method PopulateBorderAreas(t: Topology)
      modifies this`links
      ensures links == BorderLinks(t)
    {
      links := [];
      links := BorderLinks(t);
    }

    method UpdateBorderTypeArray(areaKinds: map<int, Option<int>>, types: set<int>)
      modifies this`borders
      ensures borders == WithAreaTypes(old(borders), links, areaKinds, types)
    {
      borders := WithAreaTypes(borders, links, areaKinds, types);
    }

    method UpdateBorderAreaArray()
      modifies this`borders
      ensures borders == WithAreaIds(old(borders), links)
    {
      borders := WithAreaIds(borders, links);
    }

    /** The statements of the command in the order it runs them. The
        result does not depend on what the tables held before. */
    method Handle(t: Topology, areaKinds: map<int, Option<int>>, types: set<int>)
      modifies this
      ensures borders == RebuiltBorders(t, areaKinds, types)
      ensures links == BorderLinks(t)
    {
      PopulateEdgeTable(t.edges);
      PopulateBorderAreas(t);
      UpdateBorderTypeArray(areaKinds, types);
      UpdateBorderAreaArray();
    }
  }
}
