/** The database expressions the repository defines: the geometry wrappers
    with their SQL templates, and the expression list of the feature
    builder.

    Geometries stay symbolic: a column wrapped by simplification,
    quantization and conversion to a multi-geometry. What the database does
    with them is not modelled; only the expression tree and its SQL text are.
    The SQL text of a column reference and of a float parameter is
    produced by the ORM and by Python's `str`, which are parameters here. */
module GisFunctions {
  import opened Wrappers
  import Text

  /** A geometry expression: a model column, possibly wrapped. */
  datatype Geometry =
    | Column(name: string)
    | Simplify(arg: Geometry, tolerance: real)
    | SimplifyPreserve(arg: Geometry, tolerance: real)
    | Quantize(arg: Geometry, digits: int)
    | Multi(arg: Geometry)

  /** One wrapper with its parameter, as it appears in a wrapping chain. */
  datatype Wrapper =
    | SimplifyStep(tolerance: real)
    | SimplifyPreserveStep(tolerance: real)
    | QuantizeStep(digits: int)
    | MultiStep

  /** The column at the bottom of a geometry expression. */
  function Base(g: Geometry): string
  {
    match g
    case Column(name) => name
    case Simplify(x, _) => Base(x)
    case SimplifyPreserve(x, _) => Base(x)
    case Quantize(x, _) => Base(x)
    case Multi(x) => Base(x)
  }

  /** The wrappers of a geometry expression, innermost first. */
  function Layers(g: Geometry): seq<Wrapper>
  {
    match g
    case Column(_) => []
    case Simplify(x, t) => Layers(x) + [SimplifyStep(t)]
    case SimplifyPreserve(x, t) => Layers(x) + [SimplifyPreserveStep(t)]
    case Quantize(x, d) => Layers(x) + [QuantizeStep(d)]
    case Multi(x) => Layers(x) + [MultiStep]
  }

  /** Applies wrappers to a column, innermost first. */
  function Wrap(column: string, layers: seq<Wrapper>): Geometry
  {
    if |layers| == 0 then Column(column)
    else
      var inner := Wrap(column, layers[..|layers| - 1]);
      match layers[|layers| - 1]
      case SimplifyStep(t) => Simplify(inner, t)
      case SimplifyPreserveStep(t) => SimplifyPreserve(inner, t)
      case QuantizeStep(d) => Quantize(inner, d)
      case MultiStep => Multi(inner)
  }

  /** A geometry expression is its column with its wrappers applied in order. */
  lemma {:induction false} WrapLayers(g: Geometry)
    ensures Wrap(Base(g), Layers(g)) == g
  {
    match g
    case Column(_) =>
    case Simplify(x, _) => WrapLayers(x); assert Layers(g)[..|Layers(g)| - 1] == Layers(x);
    case SimplifyPreserve(x, _) => WrapLayers(x); assert Layers(g)[..|Layers(g)| - 1] == Layers(x);
    case Quantize(x, _) => WrapLayers(x); assert Layers(g)[..|Layers(g)| - 1] == Layers(x);
    case Multi(x) => WrapLayers(x); assert Layers(g)[..|Layers(g)| - 1] == Layers(x);
  }

  /** Wrapping a column gives back that column and those wrappers. */
  lemma {:induction false} LayersOfWrap(column: string, layers: seq<Wrapper>)
    ensures Base(Wrap(column, layers)) == column
    ensures Layers(Wrap(column, layers)) == layers
  {
    if |layers| > 0 {
      LayersOfWrap(column, layers[..|layers| - 1]);
      assert layers[..|layers| - 1] + [layers[|layers| - 1]] == layers;
    }
  }

  // ---------------------------------------------------------------------
  // SQL templates
  // ---------------------------------------------------------------------

  const QuantizeFunction := "ST_QuantizeCoordinates"
  const SimplifyFunction := "ST_SIMPLIFY"
  const SimplifyPreserveFunction := "ST_SIMPLIFYPRESERVETOPOLOGY"
  const MultiFunction := "ST_Multi"

  /** `%(function)s(%(expressions)s, %(param)s)`: the template of Quantize,
      Simplify and SimplifyPreserve. */
  function Template(name: string, expressions: string, param: string): string
  {
    name + "(" + expressions + ", " + param + ")"
  }

  /** `%(function)s(%(expressions)s)`: the ORM's default template, which
      Multi keeps. */
  function DefaultTemplate(name: string, expressions: string): string
  {
    name + "(" + expressions + ")"
  }

  /** The SQL text of a geometry expression. */
  function Sql(g: Geometry, column: string -> string, number: real -> string): string
  {
    match g
    case Column(name) => column(name)
    case Simplify(x, t) => Template(SimplifyFunction, Sql(x, column, number), number(t))
    case SimplifyPreserve(x, t) => Template(SimplifyPreserveFunction, Sql(x, column, number), number(t))
    case Quantize(x, d) => Template(QuantizeFunction, Sql(x, column, number), Text.IntString(d))
    case Multi(x) => DefaultTemplate(MultiFunction, Sql(x, column, number))
  }

  /** The SQL function an outermost wrapper names. */
  function WrapperFunction(w: Wrapper): string
  {
    match w
    case SimplifyStep(_) => SimplifyFunction
    case SimplifyPreserveStep(_) => SimplifyPreserveFunction
    case QuantizeStep(_) => QuantizeFunction
    case MultiStep => MultiFunction
  }

  /** The SQL of a wrapped geometry opens with the outermost wrapper's
      function and an opening parenthesis and ends with a closing one; a
      bare column is the column's own text. */
  lemma SqlOutermost(g: Geometry, column: string -> string, number: real -> string)
    ensures Layers(g) == [] ==> Sql(g, column, number) == column(Base(g))
    ensures Layers(g) != [] ==>
      var f := WrapperFunction(Layers(g)[|Layers(g)| - 1]);
      var s := Sql(g, column, number);
      |s| >= |f| + 2 && s[..|f| + 1] == f + "(" && s[|s| - 1] == ')'
  {
    match g
    case Column(_) =>
    case Simplify(x, t) =>
      assert Layers(g)[|Layers(g)| - 1] == SimplifyStep(t);
      TemplateEnds(SimplifyFunction, Sql(x, column, number), number(t));
    case SimplifyPreserve(x, t) =>
      assert Layers(g)[|Layers(g)| - 1] == SimplifyPreserveStep(t);
      TemplateEnds(SimplifyPreserveFunction, Sql(x, column, number), number(t));
    case Quantize(x, d) =>
      assert Layers(g)[|Layers(g)| - 1] == QuantizeStep(d);
      TemplateEnds(QuantizeFunction, Sql(x, column, number), Text.IntString(d));
    case Multi(x) =>
      assert Layers(g)[|Layers(g)| - 1] == MultiStep;
      DefaultTemplateEnds(MultiFunction, Sql(x, column, number));
  }

  lemma TemplateEnds(name: string, expressions: string, param: string)
    ensures var s := Template(name, expressions, param);
      |s| >= |name| + 2 && s[..|name| + 1] == name + "(" && s[|s| - 1] == ')'
  {
    var s := Template(name, expressions, param);
    assert s == (name + "(") + (expressions + ", " + param + ")");
  }

  lemma DefaultTemplateEnds(name: string, expressions: string)
    ensures var s := DefaultTemplate(name, expressions);
      |s| >= |name| + 2 && s[..|name| + 1] == name + "(" && s[|s| - 1] == ')'
  {
    var s := DefaultTemplate(name, expressions);
    assert s == (name + "(") + (expressions + ")");
  }

  // ---------------------------------------------------------------------
  // The feature builder
  // ---------------------------------------------------------------------

  /** A `**fields` keyword argument: a property name and the model field it reads. */
  datatype Property = Property(key: string, field: string)

  /** One entry of the feature builder's argument list. */
  datatype Expr =
    | Literal(s: string)
    | FieldRef(name: string)
    | AsGeoJson(geometry: Geometry, bbox: bool, crs: bool, precision: int)
    | JsonObject(properties: seq<Property>)

  /** The builder's keyword arguments. Optional ones are None when the
      caller passes None. */
  datatype FeatureOptions = FeatureOptions(
    geomField: string,
    simplify: Option<real>,
    quantize: Option<int>,
    multi: Option<bool>,
    includeIdField: Option<bool>,
    bbox: bool,
    crs: bool,
    precision: int,
    properties: seq<Property>)

  /** The builder's defaults. */
  const DefaultFeatureOptions := FeatureOptions("geom", None, None, Some(false), Some(true), false, false, 6, [])

  /** Python truthiness of the optional arguments. */
  predicate TruthyReal(x: Option<real>) { x.Some? && x.value != 0.0 }
  predicate TruthyInt(x: Option<int>) { x.Some? && x.value != 0 }
  predicate TruthyBool(x: Option<bool>) { x == Some(true) }

  /** The wrappers the builder applies, innermost first: the
      topology-preserving simplification, then quantization, then Multi,
      each only when its argument is truthy. */
  function FeatureLayers(o: FeatureOptions): seq<Wrapper>
  {
    (if TruthyReal(o.simplify) then [SimplifyPreserveStep(o.simplify.value)] else []) +
    (if TruthyInt(o.quantize) then [QuantizeStep(o.quantize.value)] else []) +
    (if TruthyBool(o.multi) then [MultiStep] else [])
  }

  /** An argument list of alternating keys (literals) and values. */
  predicate IsKeyValueList(exprs: seq<Expr>)
  {
    |exprs| % 2 == 0 && forall i :: 0 <= i < |exprs| && i % 2 == 0 ==> exprs[i].Literal?
  }

  /** The keys of a key/value argument list, in order. */
  function Keys(exprs: seq<Expr>): seq<string>
    requires IsKeyValueList(exprs)
    decreases |exprs|
  {
    if |exprs| == 0 then []
    else
      assert IsKeyValueList(exprs[2..]) by {
        forall i | 0 <= i < |exprs[2..]| && i % 2 == 0 ensures exprs[2..][i].Literal? {
          assert exprs[2..][i] == exprs[i + 2];
        }
      }
      [exprs[0].s] + Keys(exprs[2..])
  }

  /** The value paired with the first occurrence of `key`. */
  function Lookup(exprs: seq<Expr>, key: string): Option<Expr>
    decreases |exprs|
  {
    if |exprs| < 2 then None
    else if exprs[0] == Literal(key) then Some(exprs[1])
    else Lookup(exprs[2..], key)
  }

  /** `JsonFeature.__init__`: builds the argument list of
      `JSONB_BUILD_OBJECT` step by step. */
  method JsonFeature(o: FeatureOptions) returns (expressions: seq<Expr>)
    ensures IsKeyValueList(expressions)
    ensures Keys(expressions) ==
      (if TruthyBool(o.includeIdField) then ["id"] else []) + ["type", "geometry", "properties"]
    ensures |expressions| == if TruthyBool(o.includeIdField) then 8 else 6
    ensures Lookup(expressions, "id") == if TruthyBool(o.includeIdField) then Some(FieldRef("pk")) else None
    ensures Lookup(expressions, "type") == Some(Literal("Feature"))
    ensures Lookup(expressions, "properties") == Some(JsonObject(o.properties))
    ensures var v := Lookup(expressions, "geometry");
      v.Some? && v.value.AsGeoJson? &&
      v.value.bbox == o.bbox && v.value.crs == o.crs && v.value.precision == o.precision &&
      Base(v.value.geometry) == o.geomField && Layers(v.value.geometry) == FeatureLayers(o)
  {
    expressions := [];
    if TruthyBool(o.includeIdField) {
      expressions := expressions + [Literal("id"), FieldRef("pk")];
    }
    var g := Column(o.geomField);
    assert Layers(g) == [];
    if TruthyReal(o.simplify) {
      g := SimplifyPreserve(g, o.simplify.value);
      assert Layers(g) == [] + [SimplifyPreserveStep(o.simplify.value)];
    }
    ghost var simplified := if TruthyReal(o.simplify) then [SimplifyPreserveStep(o.simplify.value)] else [];
    assert Base(g) == o.geomField && Layers(g) == simplified;
    if TruthyInt(o.quantize) {
      g := Quantize(g, o.quantize.value);
    }
    ghost var quantized := simplified + if TruthyInt(o.quantize) then [QuantizeStep(o.quantize.value)] else [];
    assert Base(g) == o.geomField && Layers(g) == quantized;
    if TruthyBool(o.multi) {
      g := Multi(g);
    }
    assert Base(g) == o.geomField && Layers(g) == FeatureLayers(o);
    expressions := expressions + [Literal("type"), Literal("Feature")];
    expressions := expressions + [Literal("geometry"), AsGeoJson(g, o.bbox, o.crs, o.precision)];
    expressions := expressions + [Literal("properties"), JsonObject(o.properties)];
    FeatureTail(AsGeoJson(g, o.bbox, o.crs, o.precision), o.properties);
    ghost var tail := [Literal("type"), Literal("Feature"), Literal("geometry"),
                       AsGeoJson(g, o.bbox, o.crs, o.precision), Literal("properties"), JsonObject(o.properties)];
    if TruthyBool(o.includeIdField) {
      assert expressions == [Literal("id"), FieldRef("pk")] + tail;
      IdPairFirst(tail);
    } else {
      assert expressions == tail;
    }
  }

  /** The list the builder always ends with: the type, geometry and
      properties pairs, in that order, and no id. */
  lemma FeatureTail(geometry: Expr, properties: seq<Property>)
    ensures var tail := [Literal("type"), Literal("Feature"), Literal("geometry"), geometry,
                         Literal("properties"), JsonObject(properties)];
      IsKeyValueList(tail) && Keys(tail) == ["type", "geometry", "properties"] &&
      Lookup(tail, "id") == None && Lookup(tail, "type") == Some(Literal("Feature")) &&
      Lookup(tail, "geometry") == Some(geometry) &&
      Lookup(tail, "properties") == Some(JsonObject(properties))
  {
    var tail := [Literal("type"), Literal("Feature"), Literal("geometry"), geometry,
                 Literal("properties"), JsonObject(properties)];
    var tail2 := tail[2..];
    var tail3 := tail2[2..];
    assert tail3 == [Literal("properties"), JsonObject(properties)];
    assert tail3[2..] == [];
    assert Keys(tail3) == ["properties"];
    assert Keys(tail2) == ["geometry", "properties"];
    assert "properties" != "id" && "geometry" != "id" && "type" != "id";
    assert Lookup(tail3, "id") == None;
    assert Lookup(tail2, "id") == None;
    assert "geometry" != "properties" && "type" != "properties" && "type" != "geometry";
    assert Lookup(tail2, "properties") == Some(JsonObject(properties));
  }

  /** Putting the id pair in front makes "id" the first key and adds no other. */
  lemma IdPairFirst(tail: seq<Expr>)
    requires IsKeyValueList(tail)
    ensures var exprs := [Literal("id"), FieldRef("pk")] + tail;
      IsKeyValueList(exprs) && Keys(exprs) == ["id"] + Keys(tail) &&
      Lookup(exprs, "id") == Some(FieldRef("pk")) &&
      forall key :: key != "id" ==> Lookup(exprs, key) == Lookup(tail, key)
  {
    var exprs := [Literal("id"), FieldRef("pk")] + tail;
    assert exprs[2..] == tail;
    assert IsKeyValueList(exprs) by {
      forall i | 0 <= i < |exprs| && i % 2 == 0 ensures exprs[i].Literal? {
        if i >= 2 { assert exprs[i] == tail[i - 2]; }
      }
    }
  }

  /** With the defaults the list has the id pair and the bare column, and
      a zero simplification or quantization adds no wrapper. */
  lemma DefaultAndFalsyOptions(o: FeatureOptions)
    ensures FeatureLayers(DefaultFeatureOptions) == []
    ensures TruthyBool(DefaultFeatureOptions.includeIdField)
    ensures o.simplify == Some(0.0) && o.quantize == Some(0) && !TruthyBool(o.multi) ==>
      FeatureLayers(o) == []
  {
  }
}
