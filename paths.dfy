/** Paths as `pathlib.PurePosixPath` treats them, the keys of a staged
    file map, and the file system the staging layer reads, as a value. */
module Paths {
  import opened Text

  /** A path: whether it is rooted, and its parts. */
  datatype Path = Path(absolute: bool, parts: seq<string>)

  /** A single path part: not empty, not `.`, and without a slash. */
  predicate PlainName(n: string) {
    n != "" && n != "." && '/' !in n
  }

  /** Every part is plain, as in any path `pathlib` builds. */
  predicate WellFormed(p: Path) {
    forall i :: 0 <= i < |p.parts| ==> PlainName(p.parts[i])
  }

  /** Drops the empty and `.` parts, as `pathlib` does when it parses. */
  function CleanParts(pieces: seq<string>): (r: seq<string>)
    ensures forall i :: 0 <= i < |r| ==> r[i] in pieces && r[i] != "" && r[i] != "."
    decreases |pieces|
  {
    if pieces == [] then []
    else (if pieces[0] == "" || pieces[0] == "." then [] else [pieces[0]]) + CleanParts(pieces[1..])
  }

  /** `Path(s)` for a string `s`. */
  function Parse(s: string): (p: Path)
    ensures WellFormed(p)
  {
    Path(|s| > 0 && s[0] == '/', CleanParts(Split(s, '/')))
  }

  /** A plain name parses to a relative path of that one part. */
  lemma ParsePlain(n: string)
    requires PlainName(n)
    ensures Parse(n) == Path(false, [n])
  {
    SplitJoin([n], '/');
    assert Split(n, '/') == [n];
    assert CleanParts([n]) == [n] + CleanParts([]);
  }

  /** The `/` operator: `a / b`. A rooted right operand replaces the left. */
  function Combine(a: Path, b: Path): Path {
    if b.absolute then b else Path(a.absolute, a.parts + b.parts)
  }

  /** `str(p)`. */
  function ToText(p: Path): string {
    if !p.absolute && p.parts == [] then "."
    else (if p.absolute then "/" else "") + Join(p.parts, "/")
  }

  /** `p.name`: the last part, or the empty string. */
  function Name(p: Path): string {
    if p.parts == [] then "" else p.parts[|p.parts| - 1]
  }

  /** `p.suffix` for a path named `name`: from the last dot, unless that
      dot starts the name or ends it. */
  function Suffix(name: string): string {
    var ext := AfterLast(name, '.');
    if 0 < |ext| < |name| - 1 then "." + ext else ""
  }

  /** The suffix of a name made of a stem, a dot and a dot-free extension. */
  lemma SuffixOfExtension(stem: string, ext: string)
    requires stem != "" && ext != "" && '.' !in ext
    ensures Suffix(stem + "." + ext) == "." + ext
  {
    AfterLastOfTail(stem, '.', ext);
  }

  /** The suffix that counts for the triple formats: a trailing `.gz` is
      taken off once (`p.with_suffix("")`) and the suffix looked up again. */
  function EffectiveSuffix(p: Path): string {
    var name := Name(p);
    if Suffix(name) == ".gz" then Suffix(name[..|name| - 3]) else Suffix(name)
  }

  /** A key of a staged file map. Python compares a `str` key and a `Path`
      key as different even when they spell the same path. */
  datatype Key = TextKey(text: string) | PathKey(path: Path)

  /** What a path names on disk: a file and its text, or a directory and
      the names it holds, in listing order. */
  datatype Node = File(content: string) | Dir(children: seq<string>)

  type FileSystem = map<Path, Node>

  /** Every name a directory lists is there, under the directory. */
  predicate Consistent(fs: FileSystem) {
    forall p, j :: p in fs && fs[p].Dir? && 0 <= j < |fs[p].children| ==>
      Combine(p, Path(false, [fs[p].children[j]])) in fs
  }
}
