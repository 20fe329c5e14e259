/** The area hierarchy's own helpers: the ancestor at a level, the display
    formatters, and the `(code, kind)` uniqueness of the area table.

    The tree is abstract: each area carries its parent, and the root-first
    ancestor list and the level (distance from the root) are derived from
    that chain. The nested-set numbering that the tree library keeps in the
    database is not part of this model. */
module Areas {
  import opened Wrappers

  datatype AreaType = AreaType(id: int, name: string, slug: string)

  /** An area with its optional kind and its optional parent area. */
  datatype Area = Area(id: int, name: string, code: string, kind: Option<AreaType>, parent: Option<Area>)

  /** The tree level: 0 for a root, one more than the parent's otherwise. */
  function Level(a: Area): nat
  {
    match a.parent
    case None => 0
    case Some(p) => Level(p) + 1
  }

  /** The ancestors, root first, as the tree library's `get_ancestors` lists them. */
  function Ancestors(a: Area): (anc: seq<Area>)
    ensures |anc| == Level(a)
  {
    match a.parent
    case None => []
    case Some(p) => Ancestors(p) + [p]
  }

  /** Root-first order: the ancestor at position i sits at level i. */
  lemma {:induction false} AncestorLevel(a: Area, i: nat)
    requires i < |Ancestors(a)|
    ensures Level(Ancestors(a)[i]) == i
  {
    match a.parent
    case Some(p) =>
      if i < |Ancestors(p)| {
        AncestorLevel(p, i);
      }
  }

  /** The target level `get_ancestor_at_level` uses when given none. */
  const DefaultAncestorLevel: nat := 2

  /** `get_ancestor_at_level`: the area itself when it is at or above the
      requested level, otherwise its ancestor at that level. The level
      defaults to DefaultAncestorLevel. */
  function AncestorAtLevel(a: Area, level: nat := DefaultAncestorLevel): (r: Area)
    ensures Level(a) <= level ==> r == a
    ensures Level(a) > level ==> r in Ancestors(a) && Level(r) == level
  {
    if Level(a) <= level then a
    else
      AncestorLevel(a, level);
      Ancestors(a)[level]
  }

  /** The ancestor at a level is the only ancestor at that level. */
  lemma AncestorAtLevelUnique(a: Area, level: nat, other: Area)
    requires Level(a) > level
    requires other in Ancestors(a) && Level(other) == level
    ensures other == AncestorAtLevel(a, level)
  {
    var i :| 0 <= i < |Ancestors(a)| && Ancestors(a)[i] == other;
    AncestorLevel(a, i);
  }

  /** `__str__`: the name alone. */
  function Str(a: Area): string
  {
    a.name
  }

  /** `display_name_and_type`: "<kind name> of <name>"; None where the
      source raises because the area has no kind. */
  function DisplayNameAndType(a: Area): Option<string>
  {
    match a.kind
    case None => None
    case Some(k) => Some(k.name + " of " + a.name)
  }

  /** The kind name for which `display_with_parent` leaves out the parent. */
  const DistrictKindName := "District"

  /** `display_with_parent`: the own display string for a root or a
      district, otherwise "<own> in <parent's>"; None where the source
      raises because the area or its parent has no kind. */
  function DisplayWithParent(a: Area): Option<string>
  {
    match a.parent
    case None => DisplayNameAndType(a)
    case Some(p) =>
      if a.kind.None? then None
      else if a.kind.value.name == DistrictKindName then DisplayNameAndType(a)
      else
        match (DisplayNameAndType(a), DisplayNameAndType(p))
        case (Some(own), Some(up)) => Some(own + " in " + up)
        case _ => None
  }

  /** The display string ends with the area's `__str__` after its kind name. */
  lemma DisplayNameAndTypeSpec(a: Area)
    ensures DisplayNameAndType(a).Some? <==> a.kind.Some?
    ensures a.kind.Some? ==>
      var s := DisplayNameAndType(a).value;
      var n := |a.kind.value.name|;
      |s| == n + 4 + |Str(a)| && s[..n] == a.kind.value.name &&
      s[n..n + 4] == " of " && s[n + 4..] == Str(a)
  {
  }

  /** `display_with_parent` always begins with the area's own display
      string, and equals it exactly for a root, for a district, and where
      both fail for want of a kind. */
  lemma DisplayWithParentSpec(a: Area)
    ensures DisplayWithParent(a).Some? ==>
      DisplayNameAndType(a).Some? && DisplayNameAndType(a).value <= DisplayWithParent(a).value
    ensures DisplayWithParent(a) == DisplayNameAndType(a) <==>
      a.parent.None? || a.kind.None? || a.kind.value.name == DistrictKindName
  {
    if a.parent.Some? && a.kind.Some? && a.kind.value.name != DistrictKindName {
      var p := a.parent.value;
      var own := DisplayNameAndType(a).value;
      if DisplayNameAndType(p).Some? {
        var whole := DisplayWithParent(a).value;
        assert whole == own + " in " + DisplayNameAndType(p).value;
        assert whole[..|own|] == own;
        assert |whole| > |own|;
      }
    }
  }

  /** With a parent outside the district rule, the string is exactly the
      area's own display string, " in ", then the parent's; without a kind
      on the parent it fails. */
  lemma DisplayWithParentNamesParent(a: Area)
    requires a.parent.Some? && a.kind.Some? && a.kind.value.name != DistrictKindName
    ensures DisplayWithParent(a).Some? <==> a.parent.value.kind.Some?
    ensures a.parent.value.kind.Some? ==>
      var own := DisplayNameAndType(a).value;
      var up := DisplayNameAndType(a.parent.value).value;
      var s := DisplayWithParent(a).value;
      s == own + " in " + up && |s| == |own| + 4 + |up| && s[|s| - |up| - 4..] == " in " + up
  {
  }

  /** The ancestor at the default level 2: a root, a child of a root or an
      area at level 2 is its own answer; deeper areas get their level-2
      ancestor. */
  lemma DefaultAncestorAtLevel(a: Area)
    ensures Level(a) <= 2 ==> AncestorAtLevel(a) == a
    ensures Level(a) > 2 ==> AncestorAtLevel(a) == Ancestors(a)[2]
  {
    if Level(a) > 2 {
      AncestorAtLevelUnique(a, 2, Ancestors(a)[2]) by {
        AncestorLevel(a, 2);
      }
    }
  }

  // ---------------------------------------------------------------------
  // The (code, kind) constraint of the area table
  // ---------------------------------------------------------------------

  /** The message the area form shows when a save breaks the constraint. */
  const DuplicateCodeMessage := "This code already exists"

  /** Two rows collide under `unique_together = ('code', 'kind')`. A missing
      kind is SQL NULL, which equals nothing, so it never collides. */
  predicate SameCodeAndKind(x: Area, y: Area)
  {
    x.code == y.code && x.kind.Some? && y.kind.Some? && x.kind.value.id == y.kind.value.id
  }

  /** No two distinct rows of the table collide. */
  predicate UniqueCodeKind(rows: map<int, Area>)
  {
    forall i, j :: i in rows && j in rows && i != j ==> !SameCodeAndKind(rows[i], rows[j])
  }

  /** Some other row collides with `a`. */
  predicate Collides(rows: map<int, Area>, a: Area)
  {
    exists j :: j in rows && j != a.id && SameCodeAndKind(rows[j], a)
  }

  /** The area table, keyed by primary key. */
  class AreaStore {
    var rows: map<int, Area>

    ghost predicate Valid()
      reads this
    {
      UniqueCodeKind(rows) && forall i :: i in rows ==> rows[i].id == i
    }

    constructor ()
      ensures Valid() && rows == map[]
    {
      rows := map[];
    }

    /** Inserts or updates the row with `a`'s key. A row that would collide
        is refused with the duplicate-code message and changes nothing. */
    method Save(a: Area) returns (error: Option<string>)
      requires Valid()
      modifies this
      ensures Valid()
      ensures error.Some? <==> old(Collides(rows, a))
      ensures error.Some? ==> error.value == DuplicateCodeMessage && rows == old(rows)
      ensures error.None? ==> rows == old(rows)[a.id := a]
    {
      if j :| j in rows && j != a.id && SameCodeAndKind(rows[j], a) {
        error := Some(DuplicateCodeMessage);
      } else {
        rows := rows[a.id := a];
        error := None;
      }
    }
  }
}
