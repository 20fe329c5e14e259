/** The area queryset's GeoJSON text writer and the geometry expression
    it annotates each row with.

    Each row's GeoJSON geometry is text the database produced; it is
    opaque here. A row whose geometry column is null has no text. */
module GeoJson {
  import opened Wrappers
  import Text
  import GisFunctions

  /** The opening of the document: a FeatureCollection in EPSG:4326. */
  const Prefix := "{\"type\": \"FeatureCollection\", \"crs\": {\"type\": \"name\", \"properties\": {\"name\": \"EPSG:4326\"}}, \"features\": ["
  /** The closing of the document. */
  const Suffix := "]}"

  const DefaultSimplify: real := 0.001
  const DefaultQuantize: int := 5

  /** A row of the area queryset: its id, whether its `geom` column is
      non-null (what the writer filters on), and the annotation's GeoJSON
      text, None where the database returns NULL for it. */
  datatype Row = Row(id: int, hasGeom: bool, geojson: Option<string>)

  /** `_annotate_geometries`: the geometry column simplified (without
      topology preservation), then quantized, then made a multi-geometry,
      whatever the parameters' values, which default to DefaultSimplify
      and DefaultQuantize. The ORM's own AsGeoJSON is applied
      on top and is not modelled. */
  function AnnotateGeometries(simplify: real := DefaultSimplify, quantize: int := DefaultQuantize): GisFunctions.Geometry
  {
    GisFunctions.Multi(GisFunctions.Quantize(GisFunctions.Simplify(GisFunctions.Column("geom"), simplify), quantize))
  }

  /** The annotation's chain, innermost first, and its SQL text: the
      Multi default template around the quantize template around the
      simplify template around the column. */
  lemma AnnotateGeometriesSpec(simplify: real, quantize: int, column: string -> string, number: real -> string)
    ensures GisFunctions.Base(AnnotateGeometries(simplify, quantize)) == "geom"
    ensures GisFunctions.Layers(AnnotateGeometries(simplify, quantize)) ==
      [GisFunctions.SimplifyStep(simplify), GisFunctions.QuantizeStep(quantize), GisFunctions.MultiStep]
    ensures GisFunctions.Sql(AnnotateGeometries(simplify, quantize), column, number) ==
      GisFunctions.DefaultTemplate("ST_Multi",
        GisFunctions.Template("ST_QuantizeCoordinates",
          GisFunctions.Template("ST_SIMPLIFY", column("geom"), number(simplify)),
          Text.IntString(quantize)))
  {
    var inner := GisFunctions.Simplify(GisFunctions.Column("geom"), simplify);
    var middle := GisFunctions.Quantize(inner, quantize);
    assert GisFunctions.Layers(inner) == [GisFunctions.SimplifyStep(simplify)];
    assert GisFunctions.Base(inner) == "geom";
    assert GisFunctions.Base(middle) == "geom";
    var innerSql := GisFunctions.Template("ST_SIMPLIFY", column("geom"), number(simplify));
    assert GisFunctions.Sql(inner, column, number) == innerSql;
    assert GisFunctions.Sql(middle, column, number) ==
      GisFunctions.Template("ST_QuantizeCoordinates", innerSql, Text.IntString(quantize));
  }

  /** With the defaults, the chain simplifies by 0.001 and quantizes to 5 digits. */
  lemma AnnotateGeometriesDefaults()
    ensures GisFunctions.Layers(AnnotateGeometries()) ==
      [GisFunctions.SimplifyStep(0.001), GisFunctions.QuantizeStep(5), GisFunctions.MultiStep]
  {
    AnnotateGeometriesSpec(DefaultSimplify, DefaultQuantize, s => s, x => "");
  }

  /** The opening of a feature, up to its geometry. */
  const FeatureOpen := "{\"type\": \"Feature\", \"geometry\": "

  /** Python's `%s` of the annotation: the text itself, or "None" for NULL. */
  function GeometryText(geojson: Option<string>): string
  {
    match geojson
    case None => "None"
    case Some(text) => text
  }

  /** One feature of the collection, as the writer's pattern renders it. */
  function Feature(geojson: Option<string>, id: int): string
  {
    FeatureOpen + GeometryText(geojson) + ", \"properties\": {\"id\": " + Text.IntString(id) + " } }"
  }

  /** A feature carries its geometry text right after the opening: the
      annotation's own text, or the bare word None (not JSON) for NULL. */
  lemma FeatureGeometry(geojson: Option<string>, id: int)
    ensures var f := Feature(geojson, id);
      var g := GeometryText(geojson);
      |f| > |FeatureOpen| + |g| && f[..|FeatureOpen|] == FeatureOpen &&
      f[|FeatureOpen|..|FeatureOpen| + |g|] == g
    ensures geojson.Some? ==>
      Feature(geojson, id)[|FeatureOpen|..|FeatureOpen| + |geojson.value|] == geojson.value
    ensures geojson.None? ==> Feature(geojson, id)[|FeatureOpen|..|FeatureOpen| + 4] == "None"
  {
    var g := GeometryText(geojson);
    var rest := ", \"properties\": {\"id\": " + Text.IntString(id) + " } }";
    Middle(FeatureOpen, g, rest);
  }

  /** The pieces of a three-part concatenation sit at their offsets. */
  lemma Middle(x: string, y: string, z: string)
    ensures |x + y + z| == |x| + |y| + |z|
    ensures (x + y + z)[..|x|] == x && (x + y + z)[|x|..|x| + |y|] == y
  {
    assert x + y + z == x + (y + z);
    assert (y + z)[..|y|] == y;
  }

  /** The rows the writer iterates over: those with a geometry, in order. */
  function WithGeometry(rows: seq<Row>): (kept: seq<Row>)
    ensures |kept| <= |rows|
    ensures forall r :: r in kept <==> r in rows && r.hasGeom
  {
    if |rows| == 0 then []
    else
      var last := rows[|rows| - 1];
      assert forall r :: r in rows <==> r in rows[..|rows| - 1] || r == last;
      WithGeometry(rows[..|rows| - 1]) + if last.hasGeom then [last] else []
  }

  /** The features written, one per row with a geometry, in order. */
  function Features(rows: seq<Row>): seq<string>
  {
    if |rows| == 0 then []
    else
      var last := rows[|rows| - 1];
      Features(rows[..|rows| - 1]) + if last.hasGeom then [Feature(last.geojson, last.id)] else []
  }

  /** Each row with a geometry gives exactly one feature, in queryset
      order, rendered from its own text and id. */
  lemma {:induction false} FeaturesSpec(rows: seq<Row>)
    ensures |Features(rows)| == |WithGeometry(rows)|
    ensures forall k :: 0 <= k < |Features(rows)| ==>
      var r := WithGeometry(rows)[k]; r.hasGeom && Features(rows)[k] == Feature(r.geojson, r.id)
  {
    if |rows| > 0 {
      FeaturesSpec(rows[..|rows| - 1]);
    }
  }

  /** The whole document: the prefix, the features separated by commas, the suffix. */
  function Document(rows: seq<Row>): string
  {
    Prefix + Text.JoinWith(Features(rows), ',') + Suffix
  }

  /** `to_geojson`: writes the prefix, then each row with a geometry,
      preceded by a comma unless it is the first one written, then the
      suffix. */
  method ToGeoJson(rows: seq<Row>) returns (output: string)
    ensures output == Document(rows)
  {
    output := Prefix;
    ghost var written: seq<string> := [];
    var isFirst := true;
    var i := 0;
    while i < |rows|
      invariant 0 <= i <= |rows|
      invariant written == Features(rows[..i])
      invariant isFirst <==> written == []
      invariant output == Prefix + Text.JoinWith(written, ',')
    {
      var row := rows[i];
      FeaturesSnoc(rows, i);
      if row.hasGeom {
        var feature := Feature(row.geojson, row.id);
        WriteFeature(written, feature);
        if isFirst {
          isFirst := false;
        } else {
          output := output + ",";
        }
        output := output + feature;
        written := written + [feature];
      }
      i := i + 1;
    }
    assert rows[..i] == rows;
    output := output + Suffix;
  }

  /** Writing one more feature: after the prefix alone it follows
      directly, otherwise after a comma. */
  lemma WriteFeature(written: seq<string>, feature: string)
    ensures written == [] ==> Prefix + Text.JoinWith(written + [feature], ',') == Prefix + feature
    ensures written != [] ==>
      Prefix + Text.JoinWith(written + [feature], ',') == Prefix + Text.JoinWith(written, ',') + "," + feature
  {
    Text.JoinWithSnoc(written, feature, ',');
  }

  /** The features of one more row: its feature, if it has a geometry, after the others. */
  lemma FeaturesSnoc(rows: seq<Row>, i: nat)
    requires i < |rows|
    ensures Features(rows[..i + 1]) ==
      Features(rows[..i]) + if rows[i].hasGeom then [Feature(rows[i].geojson, rows[i].id)] else []
  {
    assert rows[..i + 1][..i] == rows[..i];
  }

  /** The document always opens with the prefix and closes with the
      suffix; without rows to write it is exactly the two; otherwise the
      first feature follows the prefix directly and the last precedes the
      suffix directly, with one comma between each two consecutive
      features. */
  lemma DocumentSpec(rows: seq<Row>)
    ensures var d := Document(rows);
      |d| >= |Prefix| + |Suffix| && d[..|Prefix|] == Prefix && d[|d| - |Suffix|..] == Suffix
    ensures WithGeometry(rows) == [] ==> Document(rows) == Prefix + Suffix
    ensures var fs := Features(rows);
      |fs| >= 1 ==>
        Text.CountChar(Text.JoinWith(fs, ','), ',') == Text.CountCharAll(fs, ',') + |fs| - 1
  {
    var d := Document(rows);
    var body := Text.JoinWith(Features(rows), ',');
    assert d == Prefix + (body + Suffix);
    assert d[|d| - |Suffix|..] == Suffix;
    FeaturesSpec(rows);
    if |Features(rows)| >= 1 {
      Text.JoinWithSeparators(Features(rows), ',');
    }
  }
}
