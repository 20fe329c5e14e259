# simple_locations in Dafny

A verified model of the logic that the `simple_locations` Django app
implements itself. Its ORM, HTTP, PostGIS and tree-library plumbing is
not modelled. The model covers six pieces:

- **Border rebuild** (`create_borders` command), in `borders.dfy`. The
  planar topology is an input: edges with their left and right faces,
  face-to-topogeometry relations, and area-to-topogeometry rows. The CTE
  chain `relation_faces → area_faces → area_to_edge → count_edges` is a
  sequence of pure functions over bags, which are sequences in scan order.
  The truncate, insert and update statements are methods of
  `BorderTables`, a class whose two fields are the border table and the
  border-to-area link table. An (edge, area) pair is linked exactly when
  the area's faces meet the edge once. The join uses `left_face = face OR
  right_face = face`, so an edge with the same face on both sides meets
  that face once.
- **Area helpers** (`models.py`), in `areas.dfy`. The tree is abstract:
  each area carries its parent, and the level and the root-first
  ancestor list follow from that chain. The display formatters return
  `None` where Python raises because a kind is missing. The
  `(code, kind)` uniqueness constraint is the invariant of `AreaStore`.
  A NULL kind equals nothing in SQL, so it never collides.
- **Coordinate validation** (`LocationForm.clean`), in `forms.dfy`.
  Zero counts as missing, because the checks use truthiness. The error
  map is a field that `Clean` updates in place. The longitude range
  message is modelled exactly as written, and it names the latitude.
- **GeoJSON writer** (`to_geojson` and `_annotate_geometries`), in
  `geojson.dfy`. The writer is a loop over the rows that appends to an
  output string. Each row's geometry JSON is an opaque string. A row
  carries both whether its `geom` column is non-null, which the query
  filters on, and the annotation's text, which may be NULL on its own; a
  NULL annotation is written as Python's `None`.
- **Expression builders** (`JsonFeature.__init__` and the `Func`
  templates), in `gis_functions.dfy`. The geometry is a datatype of
  wrappers around a column. The argument list is a sequence of
  expressions with alternating keys and values.
- **TSV dump** (`dump_locations` command), in `dump_locations.dfy`. The
  printed lines are the method's result.

`text.dfy` holds Python's `%d` integer rendering, with its parse-back
round trip, and tab/comma joining and splitting. `wrappers.dfy` holds
`Option`.

## Model

| member | source | states |
|---|---|---|
| Borders.RelationFaces | simple_locations/management/commands/create_borders.py:59-67 | a (face, topogeometry) row is produced iff some relation row is a polygon element (type 3) of layer 1 whose element id is an existing face |
| Borders.AreaFacesSpec | simple_locations/management/commands/create_borders.py:68-75 | a face belongs to an area iff one of the area's topology-layer rows has a topogeometry id that a qualifying polygon relation of that face carries |
| Borders.TouchCountSides | simple_locations/management/commands/create_borders.py:77-82 | the number of an area's face occurrences an edge touches is the count of its left face plus the count of its right face, or one side's count alone when both sides are the same face (the OR join) |
| Borders.EdgePairsCount | simple_locations/management/commands/create_borders.py:77-82 | one edge pairs with an area once per touched face occurrence, and never under another edge id |
| Borders.AreaToEdgeCount | simple_locations/management/commands/create_borders.py:77-82 | with unique edge ids, the `area_to_edge` multiplicity of (edge, area) is that edge's touch count for the area |
| Borders.AreaToEdgeAbsent | simple_locations/management/commands/create_borders.py:77-82 | no `area_to_edge` row names an edge id that no edge row carries |
| Borders.Distinct | simple_locations/management/commands/create_borders.py:90-92 | the group keys of `group by edge_id, area_id` have no duplicates and are exactly the pairs present |
| Borders.CountedOnce | simple_locations/management/commands/create_borders.py:99-100 | the inserted links are exactly the keys whose count is 1, without duplicates when the keys have none |
| Borders.BorderLinksSpec | simple_locations/management/commands/create_borders.py:90-100 | the link table has no duplicate pair, and (edge, area) is linked iff the pairing occurs exactly once |
| Borders.LinkClassification | simple_locations/management/commands/create_borders.py:77-100 | an edge is linked to an area iff the area's faces, counted with multiplicity, meet the edge's two sides exactly once in total |
| Borders.InteriorEdgeDropped | simple_locations/management/commands/create_borders.py:52-100 | an edge whose two distinct sides are both faces of an area pairs with it at least twice and is not one of its borders |
| Borders.OuterEdgeKept | simple_locations/management/commands/create_borders.py:52-100 | an edge with exactly one side on a single face of an area, and the other side off it, is one of its borders |
| Borders.AreaIdsOf | simple_locations/management/commands/create_borders.py:103-109 | a border's `area_ids` aggregate holds exactly the areas linked to it |
| Borders.AreaIdsDistinct | simple_locations/management/commands/create_borders.py:104-108 | without duplicate links, a border's `area_ids` lists each area once |
| Borders.KindsOf | simple_locations/management/commands/create_borders.py:113-119 | the joined kind ids of a border are exactly the kinds, present in the area-type table, of its linked areas |
| Borders.SortedDistinct | simple_locations/management/commands/create_borders.py:114 | `array_agg(distinct ...)` is strictly ascending and holds exactly the input's values |
| Borders.FreshBorders | simple_locations/management/commands/create_borders.py:41-46 | one border row per distinct edge id, both arrays empty |
| Borders.ArrayUpdatesCommute | simple_locations/management/commands/create_borders.py:156-160 | running the type update before the area update, as `handle` does, gives the same table as the other order |
| Borders.RebuiltBordersSpec | simple_locations/management/commands/create_borders.py:41-125 | after a run: one row per edge; `area_ids` names each linked area exactly once; `area_types` is the ascending set of their kinds |
| Borders.UnlinkedBorderStaysEmpty | simple_locations/management/commands/create_borders.py:103-125 | a border with no surviving link keeps both arrays empty, because the updates touch only aggregated ids |
| Borders.BorderTables.PopulateEdgeTable | simple_locations/management/commands/create_borders.py:41-46 | the border table becomes the fresh rows of the edges, and the cascade empties the link table |
| Borders.BorderTables.PopulateBorderAreas | simple_locations/management/commands/create_borders.py:48-101 | the link table is truncated and refilled with the pairs counted once; borders are untouched |
| Borders.BorderTables.UpdateBorderTypeArray | simple_locations/management/commands/create_borders.py:111-125 | only `area_types` of borders present in the aggregate change |
| Borders.BorderTables.UpdateBorderAreaArray | simple_locations/management/commands/create_borders.py:103-109 | only `area_ids` of borders present in the aggregate change |
| Borders.BorderTables.Handle | simple_locations/management/commands/create_borders.py:142-160 | after the statements in the command's order, both tables depend only on the topology: borders are RebuiltBorders and links are BorderLinks, whatever they held before |
| Areas.Ancestors | simple_locations/models.py:70 | the ancestor list has as many entries as the level |
| Areas.AncestorLevel | simple_locations/models.py:70 | the ancestors are root-first: the one at position i has level i |
| Areas.AncestorAtLevel | simple_locations/models.py:64-70 | the area itself when its level is at most the target; otherwise an ancestor whose level is the target; the target defaults to DefaultAncestorLevel |
| Areas.DefaultAncestorAtLevel | simple_locations/models.py:64 | called without a level, it returns the area itself up to level 2 and the level-2 ancestor below that |
| Areas.AncestorAtLevelUnique | simple_locations/models.py:64-70 | no other ancestor has the target level |
| Areas.DisplayNameAndTypeSpec | simple_locations/models.py:72-105 | defined iff the area has a kind, and then it is the kind name, " of ", then `__str__` (the name) |
| Areas.DisplayWithParentSpec | simple_locations/models.py:78-91 | when defined, it starts with the area's own display string; it equals that string iff there is no parent, no kind, or the kind is "District" |
| Areas.DisplayWithParentNamesParent | simple_locations/models.py:86-91 | otherwise it is defined iff the parent has a kind, and then it is exactly the own display string, " in ", and the parent's display string |
| Areas.AreaStore.Save | simple_locations/models.py:45 | a save that would share (code, kind) with another row fails with "This code already exists" (the message is from views.py:112-116) and changes nothing; any other save stores the row; uniqueness is kept |
| Forms.Verdict | simple_locations/forms.py:30-53 | no error iff neither coordinate is given, or both are given and in range; any error is on `lat` or `lon` |
| Forms.LatitudeErrorIff | simple_locations/forms.py:35-47 | the error is on `lat` iff lat is missing beside a given lon, or both are given and lat is outside [-90, 90] |
| Forms.LongitudeErrorIff | simple_locations/forms.py:39-51 | the error is on `lon` iff lon is missing beside a given lat, or both are given, lat is in range and lon is outside [-180, 180] |
| Forms.ZeroLatitudeIsMissing | simple_locations/forms.py:35-38 | a latitude of 0 with a nonzero longitude gives the "Please provide the latitude" error |
| Forms.LocationForm.Clean | simple_locations/forms.py:30-53 | on an error it writes exactly that one field's one-message list into the error map and returns the empty result; otherwise it returns the cleaned data and leaves the map alone |
| Forms.PositionChoicesSpec | simple_locations/forms.py:27-28 | each position's value and label are one of the three listed pairs (last-child/inside, left/before, right/after), and values tell positions apart |
| Forms.CleanPosition | simple_locations/forms.py:27-28 | the empty value, and exactly the three choices `last-child`, `left` and `right`, are accepted |
| GisFunctions.WrapLayers | simple_locations/gis_functions.py:99-105 | every geometry expression is its column wrapped in its layers, innermost first |
| GisFunctions.LayersOfWrap | simple_locations/gis_functions.py:99-105 | wrapping a column in layers gives back that column and those layers |
| GisFunctions.SqlOutermost | simple_locations/gis_functions.py:11-48 | the SQL of a wrapped geometry opens with the outermost wrapper's function (ST_SIMPLIFY, ST_SIMPLIFYPRESERVETOPOLOGY, ST_QuantizeCoordinates or ST_Multi) and "(", and ends with ")"; a bare column is its own text |
| GisFunctions.TemplateEnds | simple_locations/gis_functions.py:21 | `%(function)s(%(expressions)s, %(param)s)` starts with the function and "(" and ends with ")" |
| GisFunctions.DefaultTemplateEnds | simple_locations/gis_functions.py:42-48 | Multi's default template starts with its function and "(" and ends with ")" |
| GisFunctions.JsonFeature | simple_locations/gis_functions.py:75-109 | the list alternates key and value; its keys are (id,) type, geometry, properties; its length is 8 with the id pair and 6 without; "id" maps to pk only when include_id_field is truthy; the geometry wraps the column with SimplifyPreserve, Quantize and Multi in that order, each only when its argument is truthy |
| GisFunctions.FeatureTail | simple_locations/gis_functions.py:106-108 | the type, geometry and properties pairs form a key/value list in that order, with no id key |
| GisFunctions.IdPairFirst | simple_locations/gis_functions.py:97-98 | the id pair in front makes "id" the first key and changes no other lookup |
| GisFunctions.DefaultAndFalsyOptions | simple_locations/gis_functions.py:79-105 | the defaults add no wrapper and include the id; a zero simplify and quantize with a falsy multi add none |
| GeoJson.AnnotateGeometriesSpec | simple_locations/manager.py:11-24 | the geometry inside the annotation's AsGeoJSON is the `geom` column wrapped in Simplify, then Quantize, then Multi, and its SQL is `ST_Multi(ST_QuantizeCoordinates(ST_SIMPLIFY(geom, s), q))` |
| GeoJson.AnnotateGeometriesDefaults | simple_locations/manager.py:11 | without arguments the chain simplifies by 0.001 and quantizes with 5 |
| GeoJson.WithGeometry | simple_locations/manager.py:42 | the rows written are exactly the rows whose `geom` column is non-null |
| GeoJson.FeatureGeometry | simple_locations/manager.py:37-47 | a feature holds the pattern's opening and then the row's annotation text, or the bare word None when the annotation is NULL |
| GeoJson.FeaturesSpec | simple_locations/manager.py:37-47 | each row with a non-null `geom` gives exactly one feature, in queryset order, rendered from its own annotation and id |
| GeoJson.ToGeoJson | simple_locations/manager.py:26-51 | the buffer written by the loop with its first-feature flag is the prefix, the features joined by commas, then the suffix |
| GeoJson.DocumentSpec | simple_locations/manager.py:35-51 | the document starts with the EPSG:4326 FeatureCollection prefix and ends with "]}"; without rows to write it is exactly the two; n features add exactly n-1 separating commas |
| DumpLocations.Dump | simple_locations/management/commands/dump_locations.py:10-22 | the header comes first, then one line per area in the given order; it stops at the first area whose line raises, and `complete` says whether every area was written |
| DumpLocations.HeaderSpec | simple_locations/management/commands/dump_locations.py:11 | the header splits at tabs into exactly the six column names, in order |
| DumpLocations.LineSplits | simple_locations/management/commands/dump_locations.py:13-22 | a line splits at tabs back into its six fields when no name holds a tab |
| DumpLocations.LineFieldsSpec | simple_locations/management/commands/dump_locations.py:13-22 | the fields read back as pk, name, kind name, then the parent's pk, name and kind name; without a parent they are -1, "" and "" |

## Left out

- The nested-set engine of the tree library (insert, move, delete, rebuild, and the lft/rght/tree_id/level numbers) is not part of this model. Level and ancestors come from the parent chain.
- PostGIS is not modelled: topology construction, reprojection, and the geometry computations behind ST_SIMPLIFY, ST_QuantizeCoordinates, ST_Multi and AsGeoJSON. The topology tables are inputs, and geometry text is opaque.
- The `init_topology`, `insert_areas`, `insert_areas_2` and `remove_topology` statements of `create_borders` only build and drop the PostGIS topology, so they are left out. The same goes for the console echo of each statement.
- The border table's line geometry column is not modelled; only its id and its two arrays are.
- SQL leaves the order of grouped rows and of `array_agg(area_id)` unspecified. The model fixes table order, and its lemmas state only order-free facts and the absence of duplicates. `array_agg(distinct ...)` is modelled ascending, the order PostgreSQL produces for a DISTINCT aggregate.
- The cascade of `truncate simple_locations_border cascade` relies on the link table's foreign key to the border table. That schema file is not part of this model.
- Transactions, cursor handling and atomicity of the rebuild are left out.
- The views, routers, JSON views, API, schemas, admin, translation, migrations and the `import_dird` and `create_projected_areas` commands are request, I/O or configuration code and are not part of this model.
- Areas.DisplayNameAndTypeSpec: every `name` is one fixed string here. The `name` fields of areas and area types are registered for per-language translation (simple_locations/translation.py:6-15), so the source reads the active language's value; those per-language fields are not modelled. This affects Areas.DisplayNameAndType, Areas.DisplayWithParent, Areas.Str and DumpLocations.LineFields.
- Forms.LocationForm.Clean: field-level validation is not modelled. That includes a missing `cleaned_data` key raising KeyError, and the parsing of the decimal inputs.
- GeoJson.ToGeoJson: the database query, the ORM's AsGeoJSON rendering and the JSON text of each geometry are inputs. When the annotation can be NULL for a non-null `geom` is decided by PostGIS and not modelled; such a row is written with the word None.
- GisFunctions.Sql: how the ORM renders a column reference and a float parameter is taken as a function parameter, not modelled.
- AncestorAtLevel: a negative level makes the source raise, because the ancestor QuerySet rejects negative indices. The level is a natural number here, so that error path is not modelled.
- Dump output goes to standard output in the source. Here the printed lines are the method's result, and an exception is the `complete = false` result after the lines already printed.
