/** The `dump_locations` command: a tab-separated listing of every area,
    one line per area in tree order after a header line. The printed lines
    are the method's result. */
module DumpLocations {
  import opened Wrappers
  import Text
  import Areas

  /** The header line: the six column names, tab-separated. */
  const Header := "id" + "\t" + "name" + "\t" + "type" + "\t" + "parent_id" + "\t" + "parent_name" + "\t" + "parent_type"
  const HeaderColumns := ["id", "name", "type", "parent_id", "parent_name", "parent_type"]

  /** The parent id written for an area without a parent. */
  const NoParentId := -1

  /** The six fields of an area's line: its id, name and kind name, then
      its parent's id, name and kind name, or -1 and two empty strings
      without a parent. None where the source raises: the area, or its
      parent, has no kind. */
  function LineFields(a: Areas.Area): Option<seq<string>>
  {
    match a.kind
    case None => None
    case Some(k) =>
      match a.parent
      case None => Some([Text.IntString(a.id), a.name, k.name, Text.IntString(NoParentId), "", ""])
      case Some(p) =>
        if p.kind.None? then None
        else Some([Text.IntString(a.id), a.name, k.name, Text.IntString(p.id), p.name, p.kind.value.name])
  }

  /** The line `"%d\t%s\t%s\t%d\t%s\t%s"` formats for an area. */
  function Line(a: Areas.Area): Option<string>
  {
    match LineFields(a)
    case None => None
    case Some(fields) => Some(Text.JoinWith(fields, '\t'))
  }

  /** `handle`: the header, then one line per area in the given (tree)
      order. An area whose line cannot be formatted stops the command:
      the lines printed before it are the output and `complete` is false. */
  method Dump(areas: seq<Areas.Area>) returns (lines: seq<string>, complete: bool)
    ensures 1 <= |lines| <= |areas| + 1 && lines[0] == Header
    ensures forall k :: 0 <= k < |lines| - 1 ==> Line(areas[k]).Some? && lines[k + 1] == Line(areas[k]).value
    ensures complete <==> forall k :: 0 <= k < |areas| ==> Line(areas[k]).Some?
    ensures complete ==> |lines| == |areas| + 1
    ensures !complete ==> Line(areas[|lines| - 1]).None?
  {
    lines := [Header];
    var i := 0;
    while i < |areas|
      invariant 0 <= i <= |areas|
      invariant |lines| == i + 1 && lines[0] == Header
      invariant forall k :: 0 <= k < i ==> Line(areas[k]).Some? && lines[k + 1] == Line(areas[k]).value
    {
      var line := Line(areas[i]);
      if line.None? {
        return lines, false;
      }
      lines := lines + [line.value];
      i := i + 1;
    }
    return lines, true;
  }

  /** The header splits into the six column names, in order. */
  lemma HeaderSpec()
    ensures |HeaderColumns| == 6
    ensures Text.SplitOn(Header, '\t') == HeaderColumns
  {
    var c := HeaderColumns;
    var t4 := "parent_name" + ['\t'] + "parent_type";
    var t3 := "parent_id" + ['\t'] + t4;
    var t2 := "type" + ['\t'] + t3;
    var t1 := "name" + ['\t'] + t2;
    assert Text.JoinWith(c[5..], '\t') == "parent_type";
    JoinStep(c, 4, "parent_type", t4);
    JoinStep(c, 3, t4, t3);
    JoinStep(c, 2, t3, t2);
    JoinStep(c, 1, t2, t1);
    JoinStep(c, 0, t1, Header);
    assert c[0..] == c;
    forall k | 0 <= k < |c| ensures '\t' !in c[k] {
    }
    Text.SplitJoinRoundTrip(c, '\t');
  }

  /** One unfolding of the tab join over a suffix of the columns. */
  lemma JoinStep(c: seq<string>, i: nat, tail: string, whole: string)
    requires i + 1 < |c|
    requires Text.JoinWith(c[i + 1..], '\t') == tail
    requires whole == c[i] + ['\t'] + tail
    ensures Text.JoinWith(c[i..], '\t') == whole
  {
    assert c[i..][1..] == c[i + 1..];
  }

  /** No name on the line holds a tab. */
  predicate TabFreeNames(a: Areas.Area)
  {
    '\t' !in a.name &&
    (a.kind.Some? ==> '\t' !in a.kind.value.name) &&
    (a.parent.Some? ==>
      '\t' !in a.parent.value.name &&
      (a.parent.value.kind.Some? ==> '\t' !in a.parent.value.kind.value.name))
  }

  /** Splitting a line at its tabs gives back its six fields when the
      names hold no tab. */
  lemma LineSplits(a: Areas.Area)
    requires Line(a).Some? && TabFreeNames(a)
    ensures Text.SplitOn(Line(a).value, '\t') == LineFields(a).value
  {
    var fields := LineFields(a).value;
    assert forall k :: 0 <= k < |fields| ==> '\t' !in fields[k];
    Text.SplitJoinRoundTrip(fields, '\t');
  }

  /** The fields read back as the area's id, name and kind name, then its
      parent's id, name and kind name, or -1 and two empty fields for a
      root. */
  lemma LineFieldsSpec(a: Areas.Area)
    requires LineFields(a).Some?
    ensures var f := LineFields(a).value;
      |f| == 6 && Text.IsIntText(f[0]) && Text.IsIntText(f[3]) &&
      Text.ParseInt(f[0]) == a.id && f[1] == a.name && f[2] == a.kind.value.name
    ensures var f := LineFields(a).value;
      a.parent.None? ==> Text.ParseInt(f[3]) == NoParentId && f[4] == "" && f[5] == ""
    ensures var f := LineFields(a).value;
      a.parent.Some? ==>
        Text.ParseInt(f[3]) == a.parent.value.id && f[4] == a.parent.value.name &&
        f[5] == a.parent.value.kind.value.name
  {
    Text.IntStringRoundTrip(a.id);
    Text.IntStringRoundTrip(NoParentId);
    if a.parent.Some? {
      Text.IntStringRoundTrip(a.parent.value.id);
    }
  }
}
