/** Filesystem paths as the location resolver builds them.

    A path is kept as its components: whether it starts at the root
    directory, then its names in order. `PathBuf::join` with a relative,
    single-name argument (the only kind the resolver passes) adds one
    level, so `Join` appends one name. `Render` gives the path's normalised
    Unix text and `Push` is the text-level rule of `PathBuf::push`; the lemma
    `JoinMatchesPush` ties the two views together. */
module Paths {
  import opened Results

  datatype Path = Path(absolute: bool, segments: seq<string>)

  const Separator: char := '/'

  /** A name that `join` adds as exactly one new level: non-empty, and
      without a separator (so in particular not absolute). */
  predicate IsSegment(name: string) {
    |name| > 0 && Separator !in name
  }

  /** Every component of the path is a proper name. */
  predicate WellFormed(p: Path) {
    forall i :: 0 <= i < |p.segments| ==> IsSegment(p.segments[i])
  }

  /** `Path::parent` for a path of normal components: the path without its
      last component; `None` for a path with no components (the root, or
      the empty path). `.` and `..` get no special treatment here. */
  function Parent(p: Path): (r: Option<Path>)
    ensures r.Some? <==> |p.segments| > 0
    ensures r.Some? ==> r.value.absolute == p.absolute && r.value.segments + [p.segments[|p.segments| - 1]] == p.segments
  {
    if |p.segments| == 0 then None
    else Some(Path(p.absolute, p.segments[..|p.segments| - 1]))
  }

  /** `Path::file_name` for a path of normal components: the last
      component, if there is one (Rust also answers `None` for a trailing
      `..`, which this does not model). */
  function FileName(p: Path): (r: Option<string>)
    ensures r.Some? <==> |p.segments| > 0
    ensures r.Some? ==> r.value in p.segments
  {
    if |p.segments| == 0 then None else Some(p.segments[|p.segments| - 1])
  }

  /** `Path::starts_with` for paths of normal components: `base` names this
      path or one of its ancestors. */
  predicate StartsWith(p: Path, base: Path) {
    p.absolute == base.absolute && base.segments <= p.segments
  }

  /** `PathBuf::join(name)` for a relative single-name argument: the child
      of `p` called `name`. Parent and FileName undo it. */
  function Join(p: Path, name: string): (r: Path)
    ensures Parent(r) == Some(p) && FileName(r) == Some(name)
    ensures StartsWith(r, p) && r != p
    ensures WellFormed(p) && IsSegment(name) ==> WellFormed(r)
  {
    Path(p.absolute, p.segments + [name])
  }

  /** A path is fixed by its parent and its last name. */
  lemma ParentFileNameDetermine(p: Path, parent: Path, name: string)
    requires Parent(p) == Some(parent) && FileName(p) == Some(name)
    ensures p == Join(parent, name)
  {
  }

  /** The names joined by single separators. */
  function Intercalate(names: seq<string>): string {
    if |names| == 0 then ""
    else if |names| == 1 then names[0]
    else names[0] + [Separator] + Intercalate(names[1..])
  }

  /** The normalised Unix text of a path: a leading separator for an
      absolute path, then its components separated by single separators.
      A text with a trailing or doubled separator is not the rendering of
      any well-formed path. */
  function Render(p: Path): string {
    (if p.absolute then [Separator] else []) + Intercalate(p.segments)
  }

  /** `PathBuf::push(name)` on the text of a Unix path, the reference for
      `Join`: an absolute `name` replaces the path; otherwise a separator
      is added unless the text is empty or already ends in one. */
  function Push(text: string, name: string): string {
    if |name| > 0 && name[0] == Separator then name
    else if |text| == 0 || text[|text| - 1] == Separator then text + name
    else text + [Separator] + name
  }

  lemma {:induction false} IntercalateSnoc(names: seq<string>, name: string)
    requires |names| > 0
    ensures Intercalate(names + [name]) == Intercalate(names) + [Separator] + name
  {
    if |names| > 1 {
      assert (names + [name])[1..] == names[1..] + [name];
      IntercalateSnoc(names[1..], name);
    }
  }

  /** The text of one or more proper names ends in the last name's last
      character, never in a separator. */
  lemma {:induction false} IntercalateEndsInName(names: seq<string>)
    requires |names| > 0
    requires forall i :: 0 <= i < |names| ==> IsSegment(names[i])
    ensures |Intercalate(names)| > 0
    ensures Intercalate(names)[|Intercalate(names)| - 1] != Separator
  {
    if |names| == 1 {
      assert IsSegment(names[0]);
      assert Intercalate(names) == names[0];
      assert names[0][|names[0]| - 1] in names[0];
    } else {
      assert forall i :: 0 <= i < |names[1..]| ==> IsSegment(names[1..][i]) by {
        forall i | 0 <= i < |names[1..]| ensures IsSegment(names[1..][i]) {
          assert names[1..][i] == names[i + 1];
        }
      }
      IntercalateEndsInName(names[1..]);
      var rest := Intercalate(names[1..]);
      assert Intercalate(names) == names[0] + [Separator] + rest;
    }
  }

  /** The text of a well-formed path with at least one component does not
      end in a separator. */
  lemma {:induction false} RenderEndsInName(p: Path)
    requires WellFormed(p) && |p.segments| > 0
    ensures |Render(p)| > 0 && Render(p)[|Render(p)| - 1] != Separator
  {
    var lead: string := if p.absolute then [Separator] else [];
    var text := Intercalate(p.segments);
    IntercalateEndsInName(p.segments);
    assert Render(p) == lead + text;
    assert Render(p)[|Render(p)| - 1] == text[|text| - 1];
  }

  /** Joining a name onto a path with at least one component adds one
      separator and the name to its text. */
  lemma {:induction false} RenderJoin(p: Path, name: string)
    requires |p.segments| > 0
    ensures Render(Join(p, name)) == Render(p) + [Separator] + name
  {
    var lead: string := if p.absolute then [Separator] else [];
    IntercalateSnoc(p.segments, name);
    assert Render(Join(p, name)) == lead + (Intercalate(p.segments) + [Separator] + name);
  }

  /** Appending a name to the components of a well-formed path gives the
      text that `PathBuf::push` produces on the path's text. */
  lemma {:induction false} JoinMatchesPush(p: Path, name: string)
    requires WellFormed(p) && IsSegment(name)
    ensures Render(Join(p, name)) == Push(Render(p), name)
  {
    assert name[0] != Separator by { assert name[0] in name; }
    if |p.segments| == 0 {
      assert Join(p, name).segments == [name];
    } else {
      RenderEndsInName(p);
      RenderJoin(p, name);
    }
  }

  /** The text of an absolute path with three components: the definition
      of `Render` unfolded, for the worked examples. */
  lemma RenderAbsoluteThree(a: string, b: string, c: string)
    ensures Render(Path(true, [a, b, c])) == "/" + a + "/" + b + "/" + c
  {
    assert [a, b, c][1..] == [b, c];
    assert [b, c][1..] == [c];
    assert Intercalate([b, c]) == b + "/" + c;
  }

  /** The text of an absolute path with four components, likewise. */
  lemma RenderAbsoluteFour(a: string, b: string, c: string, d: string)
    ensures Render(Path(true, [a, b, c, d])) == "/" + a + "/" + b + "/" + c + "/" + d
  {
    assert [a, b, c, d][1..] == [b, c, d];
    assert [b, c, d][1..] == [c, d];
    assert [c, d][1..] == [d];
    assert Intercalate([c, d]) == c + "/" + d;
    assert Intercalate([b, c, d]) == b + "/" + c + "/" + d;
  }
}
