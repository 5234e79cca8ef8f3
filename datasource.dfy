/** One unit of input to the conversion stage: a map of staged files, a
    load script for RDFox and the mapping rules, built from fact text, from
    a list or mapping of files, or from a path on disk
    (src/probs_runner/datasource.py). */
module Datasources {
  import opened Wrappers
  import opened Text
  import opened Dicts
  import opened Paths
  import opened Errors

  /** A value in a staged file map, or in the mapping given to `from_files`. */
  datatype Source =
    /** a `pathlib.Path` */
    | FromPath(path: Path)
    /** a `str` */
    | FromText(text: string)
    /** an open file object, which has a `name` */
    | NamedFile(name: string)
    /** an in-memory stream such as `StringIO`, which has no `name` */
    | Stream(content: string)

  datatype Datasource = Datasource(inputFiles: Dict<Key, Source>, loadDataScript: string, rules: string)

  /** What the staging code takes from its surroundings: the file system,
      md5 as the hex digest of the UTF-8 encoding of a text, and `id()` of
      the value at each position of the sequence being hashed. */
  datatype Env = Env(fs: FileSystem, md5: string -> string, ids: nat -> nat)

  // ---------------------------------------------------------------------
  // Datasource.from_facts

  /** Facts staged as `data/<h>.ttl`, with `h` the digest of the facts,
      and imported by name. */
  function FromFacts(facts: string, md5: string -> string): (d: Datasource)
    ensures |d.inputFiles| == 1
    ensures d.inputFiles[0] == (TextKey("data/" + md5(facts) + ".ttl"), Stream(facts))
    ensures d.loadDataScript == "import " + md5(facts) + ".ttl\n"
    ensures d.rules == ""
  {
    var hash := md5(facts);
    Datasource([(TextKey("data/" + hash + ".ttl"), Stream(facts))], "import " + hash + ".ttl\n", "")
  }

  /** Two fact texts are staged under the same name, and imported by the
      same statement, exactly when their digests agree. */
  lemma FromFactsSameNameIff(facts1: string, facts2: string, md5: string -> string)
    ensures FromFacts(facts1, md5).inputFiles[0].0 == FromFacts(facts2, md5).inputFiles[0].0
        <==> md5(facts1) == md5(facts2)
    ensures FromFacts(facts1, md5).loadDataScript == FromFacts(facts2, md5).loadDataScript
        <==> md5(facts1) == md5(facts2)
  {
    var h1, h2 := md5(facts1), md5(facts2);
    var k1, k2 := "data/" + h1 + ".ttl", "data/" + h2 + ".ttl";
    if k1 == k2 {
      assert k1[5..5 + |h1|] == h1;
      assert k2[5..5 + |h2|] == h2;
    }
    var s1, s2 := "import " + h1 + ".ttl\n", "import " + h2 + ".ttl\n";
    if s1 == s2 {
      assert s1[7..7 + |h1|] == h1;
      assert s2[7..7 + |h2|] == h2;
    }
  }

  // ---------------------------------------------------------------------
  // from_files, list form: base name -> path

  predicate IsPathOrStr(s: Source) {
    s.FromPath? || s.FromText?
  }

  /** `Path(source_path)`. */
  function AsPath(s: Source): Path
    requires IsPathOrStr(s)
  {
    if s.FromPath? then s.path else Parse(s.text)
  }

  /** The base name a list item is staged under. */
  function BaseName(s: Source): string
    requires IsPathOrStr(s)
  {
    Name(AsPath(s))
  }

  /** The entry a list item becomes: its base name and its path. */
  function ListEntry(s: Source): (string, Source)
    requires IsPathOrStr(s)
  {
    (BaseName(s), FromPath(AsPath(s)))
  }

  /** Every item is a string or a path, and no two have the same base name. */
  predicate Nameable(items: seq<Source>) {
    && (forall i :: 0 <= i < |items| ==> IsPathOrStr(items[i]))
    && (forall i, j :: 0 <= i < j < |items| ==> BaseName(items[i]) != BaseName(items[j]))
  }

  /** The name -> path dictionary that the list form builds, failing at
      the first item that is not a path or repeats a base name. */
  function NamedSources(items: seq<Source>): Result<Dict<string, Source>, Error>
    decreases |items|
  {
    if items == [] then Success([])
    else match NamedSources(items[..|items| - 1])
      case Failure(e) => Failure(e)
      case Success(named) =>
        var item := items[|items| - 1];
        if !IsPathOrStr(item) then Failure(NotPathOrStr)
        else if BaseName(item) in Keys(named) then Failure(DuplicatePathName)
        else Success(Insert(named, ListEntry(item).0, ListEntry(item).1))
  }

  /** A successful list form ends with the entry of its last item. */
  lemma NamedSourcesLast(items: seq<Source>)
    requires items != [] && NamedSources(items).Success?
    ensures var n := |items| - 1;
      && NamedSources(items[..n]).Success? && IsPathOrStr(items[n])
      && NamedSources(items).value == NamedSources(items[..n]).value + [ListEntry(items[n])]
  {
  }

  /** When the list form succeeds, every item is a path or a string, the
      keys are the base names and the values the paths, in list order. */
  lemma {:induction false} NamedSourcesEntries(items: seq<Source>)
    requires NamedSources(items).Success?
    ensures var named := NamedSources(items).value;
      && |named| == |items|
      && forall i :: 0 <= i < |items| ==> IsPathOrStr(items[i]) && named[i] == ListEntry(items[i])
    decreases |items|
  {
    if items != [] {
      var n := |items| - 1;
      var front := items[..n];
      NamedSourcesLast(items);
      NamedSourcesEntries(front);
      EntriesSnoc(items, NamedSources(items).value, NamedSources(front).value);
    }
  }

  /** The step of the induction above. */
  lemma EntriesSnoc(items: seq<Source>, all: seq<(string, Source)>, front: seq<(string, Source)>)
    requires items != [] && IsPathOrStr(items[|items| - 1])
    requires |front| == |items| - 1 && all == front + [ListEntry(items[|items| - 1])]
    requires var before := items[..|items| - 1];
      forall i :: 0 <= i < |front| ==> IsPathOrStr(before[i]) && front[i] == ListEntry(before[i])
    ensures |all| == |items|
    ensures forall i :: 0 <= i < |items| ==> IsPathOrStr(items[i]) && all[i] == ListEntry(items[i])
  {
    var n := |items| - 1;
    assert forall i :: 0 <= i < n ==> items[..n][i] == items[i];
  }

  /** A list is nameable when the list before its last item is, and the
      last item is a path or string whose base name is new. */
  lemma NameableSnoc(items: seq<Source>)
    requires items != []
    ensures var n := |items| - 1;
      Nameable(items)
      <==> && Nameable(items[..n]) && IsPathOrStr(items[n])
           && forall j :: 0 <= j < n ==> BaseName(items[..n][j]) != BaseName(items[n])
  {
    var n := |items| - 1;
    assert forall j :: 0 <= j < n ==> items[..n][j] == items[j];
  }

  /** The list form succeeds exactly when every item is a path or a string
      and the base names are distinct. */
  lemma {:induction false} NamedSourcesSuccess(items: seq<Source>)
    ensures NamedSources(items).Success? <==> Nameable(items)
    decreases |items|
  {
    if items != [] {
      var n := |items| - 1;
      var front := items[..n];
      NamedSourcesSuccess(front);
      NameableSnoc(items);
      if NamedSources(front).Success? {
        NamedSourcesEntries(front);
        var named := NamedSources(front).value;
        var item := items[n];
        NamedSourcesStep(items);
        if IsPathOrStr(item) {
          if BaseName(item) in Keys(named) {
            var j :| 0 <= j < |named| && named[j].0 == BaseName(item);
            assert BaseName(front[j]) == BaseName(item);
            assert !Nameable(items);
          } else {
            forall j | 0 <= j < n ensures BaseName(front[j]) != BaseName(item) {
              assert Keys(named)[j] == BaseName(front[j]);
            }
          }
        }
      } else {
        assert NamedSources(items).Failure?;
      }
    }
  }

  /** One more item on a successful list: it fails when the item is not a
      path or its base name is already taken. */
  lemma NamedSourcesStep(items: seq<Source>)
    requires items != [] && NamedSources(items[..|items| - 1]).Success?
    ensures var n := |items| - 1;
      NamedSources(items).Success?
      <==> IsPathOrStr(items[n]) && BaseName(items[n]) !in Keys(NamedSources(items[..n]).value)
  {
  }

  /** When the list form fails, it fails at the first offending item: one
      that is not a path (NotPathOrStr) or whose base name came before
      (DuplicatePathName). */
  lemma {:induction false} NamedSourcesFailure(items: seq<Source>)
    requires NamedSources(items).Failure?
    ensures exists i :: (0 <= i < |items| && Nameable(items[..i]) && !Nameable(items[..i + 1])
      && NamedSources(items).error == (if IsPathOrStr(items[i]) then DuplicatePathName else NotPathOrStr))
    decreases |items|
  {
    var n := |items| - 1;
    var front := items[..n];
    assert items[..n + 1] == items;
    NamedSourcesSuccess(front);
    NamedSourcesSuccess(items);
    if NamedSources(front).Failure? {
      NamedSourcesFailure(front);
      var i :| 0 <= i < |front| && Nameable(front[..i]) && !Nameable(front[..i + 1])
        && NamedSources(front).error == (if IsPathOrStr(front[i]) then DuplicatePathName else NotPathOrStr);
      assert front[..i] == items[..i] && front[..i + 1] == items[..i + 1];
    } else {
      assert Nameable(items[..n]);
    }
  }

  // ---------------------------------------------------------------------
  // _compute_datasource_name

  /** The text that a value contributes to the hashed input. */
  function Identity(s: Source, id: nat): string {
    match s
    case FromPath(p) => ToText(p)
    case FromText(t) => t
    case NamedFile(n) => n
    case Stream(_) => Decimal(id)
  }

  /** The hashed input: the identities of the values, in order. */
  function NameInput(values: seq<Source>, ids: nat -> nat): string
    decreases |values|
  {
    if values == [] then ""
    else NameInput(values[..|values| - 1], ids) + Identity(values[|values| - 1], ids(|values| - 1))
  }

  /** The identities are joined with no separator, so two lists of texts
      that run together into the same text get the same name. */
  lemma NameInputRunsTogether(a: string, b: string, c: string, d: string, ids: nat -> nat)
    requires a + b == c + d
    ensures NameInput([FromText(a), FromText(b)], ids) == NameInput([FromText(c), FromText(d)], ids)
    ensures NameInput([FromText("ab"), FromText("c")], ids) == NameInput([FromText("a"), FromText("bc")], ids)
  {
    NameInputTwoTexts(a, b, ids);
    NameInputTwoTexts(c, d, ids);
    NameInputTwoTexts("ab", "c", ids);
    NameInputTwoTexts("a", "bc", ids);
    assert "ab" + "c" == "a" + "bc";
  }

  /** Two texts are hashed as their concatenation. */
  lemma NameInputTwoTexts(a: string, b: string, ids: nat -> nat)
    ensures NameInput([FromText(a), FromText(b)], ids) == a + b
  {
    assert [FromText(a), FromText(b)][..1] == [FromText(a)];
    assert [FromText(a)][..0] == [];
    assert NameInput([FromText(a)], ids) == "" + a == a;
  }

  /** `_compute_datasource_name`: a loop that collects one part per value
      and hashes their concatenation. */
  method ComputeDatasourceName(values: seq<Source>, md5: string -> string, ids: nat -> nat)
    returns (name: string)
    ensures name == md5(NameInput(values, ids))
  {
    var parts: seq<string> := [];
    var i := 0;
    while i < |values|
      invariant 0 <= i <= |values|
      invariant Join(parts, "") == NameInput(values[..i], ids)
    {
      var inp := values[i];
      var part: string;
      if inp.FromText? {
        part := inp.text;
      } else if inp.FromPath? {
        part := ToText(inp.path);
      } else if inp.NamedFile? {
        part := inp.name;
      } else {
        part := Decimal(ids(i));
      }
      assert part == Identity(values[i], ids(i));
      assert values[..i + 1][..i] == values[..i];
      assert NameInput(values[..i + 1], ids) == NameInput(values[..i], ids) + part;
      ConcatSnoc(parts, part);
      parts := parts + [part];
      i := i + 1;
    }
    assert values[..i] == values;
    name := md5(Join(parts, ""));
  }

  /** A name built from paths, strings and named files does not depend on
      object identities, so it is the same on every run. */
  lemma {:induction false} NameInputStable(values: seq<Source>, ids1: nat -> nat, ids2: nat -> nat)
    requires forall i :: 0 <= i < |values| ==> !values[i].Stream?
    ensures NameInput(values, ids1) == NameInput(values, ids2)
    decreases |values|
  {
    if values != [] {
      NameInputStable(values[..|values| - 1], ids1, ids2);
    }
  }

  /** The identity as the code computes it: a `str` value takes the first
      branch and then also the fallback, so its `id()` is appended. */
  function IdentityAsWritten(s: Source, id: nat): string {
    match s
    case FromText(t) => t + Decimal(id)
    case _ => Identity(s, id)
  }

  function NameInputAsWritten(values: seq<Source>, ids: nat -> nat): string
    decreases |values|
  {
    if values == [] then ""
    else NameInputAsWritten(values[..|values| - 1], ids) + IdentityAsWritten(values[|values| - 1], ids(|values| - 1))
  }

  /** As written, a mapping with one `str` value is hashed differently
      whenever that string object has a different `id()`. */
  lemma NameInputAsWrittenUnstable(text: string, ids1: nat -> nat, ids2: nat -> nat)
    requires ids1(0) != ids2(0)
    ensures NameInputAsWritten([FromText(text)], ids1) != NameInputAsWritten([FromText(text)], ids2)
  {
    var d1, d2 := Decimal(ids1(0)), Decimal(ids2(0));
    assert NameInputAsWritten([FromText(text)], ids1) == text + d1;
    assert NameInputAsWritten([FromText(text)], ids2) == text + d2;
    if text + d1 == text + d2 {
      assert (text + d1)[|text|..] == d1;
      assert (text + d2)[|text|..] == d2;
      DecimalInjective(ids1(0), ids2(0));
    }
  }

  // ---------------------------------------------------------------------
  // _paths_or_strs_to_str

  /** A piece of a script or of the rules: literal text, or a file to read. */
  datatype Piece = Literal(text: string) | FilePiece(path: Path)

  /** One piece, or a list of them. */
  datatype Pieces = One(piece: Piece) | Many(pieces: seq<Piece>)

  /** `path.read_text()`. */
  function ReadText(fs: FileSystem, p: Path): (r: Result<string, Error>)
    ensures r.Success? <==> p in fs && fs[p].File?
    ensures r.Success? ==> r.value == fs[p].content
  {
    if p !in fs then Failure(FileNotFound(p))
    else match fs[p]
      case File(content) => Success(content)
      case Dir(_) => Failure(IsADirectory(p))
  }

  function PieceText(piece: Piece, fs: FileSystem): Result<string, Error> {
    match piece
    case Literal(t) => Success(t)
    case FilePiece(p) => ReadText(fs, p)
  }

  predicate Readable(piece: Piece, fs: FileSystem) {
    piece.FilePiece? ==> piece.path in fs && fs[piece.path].File?
  }

  /** The texts of the pieces, failing at the first file that cannot be read. */
  function ResolvedPieces(items: seq<Piece>, fs: FileSystem): Result<seq<string>, Error>
    decreases |items|
  {
    if items == [] then Success([])
    else match ResolvedPieces(items[..|items| - 1], fs)
      case Failure(e) => Failure(e)
      case Success(texts) =>
        match PieceText(items[|items| - 1], fs)
        case Failure(e) => Failure(e)
        case Success(t) => Success(texts + [t])
  }

  /** Reading succeeds exactly when every file piece names a file; the
      texts are then the literals as given and the files' contents. */
  lemma {:induction false} ResolvedPiecesSuccess(items: seq<Piece>, fs: FileSystem)
    ensures ResolvedPieces(items, fs).Success? <==> forall i :: 0 <= i < |items| ==> Readable(items[i], fs)
    ensures ResolvedPieces(items, fs).Success? ==>
      var texts := ResolvedPieces(items, fs).value;
      && |texts| == |items|
      && forall i :: 0 <= i < |items| ==>
           texts[i] == match items[i] case Literal(t) => t case FilePiece(p) => fs[p].content
    decreases |items|
  {
    if items != [] {
      var n := |items| - 1;
      ResolvedPiecesSuccess(items[..n], fs);
      assert forall i :: 0 <= i < n ==> items[..n][i] == items[i];
    }
  }

  function ItemsOf(arg: Pieces): seq<Piece> {
    match arg
    case One(p) => [p]
    case Many(ps) => ps
  }

  /** `_paths_or_strs_to_str`: the pieces' texts joined by newlines. */
  function PiecesText(arg: Pieces, fs: FileSystem): Result<string, Error> {
    var texts :- ResolvedPieces(ItemsOf(arg), fs);
    Success(Join(texts, "\n"))
  }

  /** A single piece of literal text is used verbatim. */
  lemma PiecesTextLiteral(text: string, fs: FileSystem)
    ensures PiecesText(One(Literal(text)), fs) == Success(text)
  {
    assert [Literal(text)][..0] == [];
    assert ResolvedPieces([Literal(text)], fs) == Success([] + [text]);
    assert [] + [text] == [text];
  }

  /** A list of pieces reads without error exactly when every file piece
      names a file; the text is then the pieces' texts, one per line. */
  lemma PiecesTextMany(items: seq<Piece>, fs: FileSystem)
    ensures PiecesText(Many(items), fs).Success? <==> forall i :: 0 <= i < |items| ==> Readable(items[i], fs)
    ensures PiecesText(Many(items), fs).Success? ==>
      PiecesText(Many(items), fs).value == Join(ResolvedPieces(items, fs).value, "\n")
  {
    ResolvedPiecesSuccess(items, fs);
  }

  method PathsOrStrsToStr(arg: Pieces, fs: FileSystem) returns (r: Result<string, Error>)
    ensures r == PiecesText(arg, fs)
  {
    var items := if arg.Many? then arg.pieces else [arg.piece];
    var results: seq<string> := [];
    var i := 0;
    while i < |items|
      invariant 0 <= i <= |items|
      invariant ResolvedPieces(items[..i], fs) == Success(results)
    {
      assert items[..i + 1][..i] == items[..i];
      var item := items[i];
      if item.FilePiece? {
        var text := ReadText(fs, item.path);
        if text.Failure? {
          ResolvedPiecesFailurePersists(items, i + 1, fs);
          return Failure(text.error);
        }
        results := results + [text.value];
      } else {
        results := results + [item.text];
      }
      i := i + 1;
    }
    assert items[..i] == items;
    r := Success(Join(results, "\n"));
  }

  /** Once a prefix fails to read, the whole list fails the same way. */
  lemma {:induction false} ResolvedPiecesFailurePersists(items: seq<Piece>, k: nat, fs: FileSystem)
    requires k <= |items| && ResolvedPieces(items[..k], fs).Failure?
    ensures ResolvedPieces(items, fs) == ResolvedPieces(items[..k], fs)
    decreases |items| - k
  {
    if k < |items| {
      assert items[..k + 1][..k] == items[..k];
      ResolvedPiecesFailurePersists(items, k + 1, fs);
    } else {
      assert items[..k] == items;
    }
  }

  /** The rules: `None` is the empty text. */
  function RulesText(rules: Option<Pieces>, fs: FileSystem): (r: Result<string, Error>)
    ensures rules.None? ==> r == Success("")
  {
    match rules
    case None => Success("")
    case Some(arg) => PiecesText(arg, fs)
  }

  // ---------------------------------------------------------------------
  // from_files: staging, automatic load script, directory binding

  /** `input_files` as passed: a list of paths, or a mapping from the
      filename to use to the source. */
  datatype InputFiles = Listed(items: seq<Source>) | Named(entries: Dict<string, Source>)

  function NamedInput(input: InputFiles): Result<Dict<string, Source>, Error> {
    match input
    case Listed(items) => NamedSources(items)
    case Named(d) => Success(d)
  }

  /** `Path("data")`. */
  const DATA_DIR: Path := Path(false, ["data"])

  /** `Path("data") / datasource_name / filename`. */
  function StagedPath(dsName: string, filename: string): Path {
    Combine(Combine(DATA_DIR, Parse(dsName)), Parse(filename))
  }

  /** Each entry under its nested path, before any two are merged. */
  function StagedEntries(named: Dict<string, Source>, dsName: string): (e: seq<(Path, Source)>)
    ensures |e| == |named|
    ensures forall i :: 0 <= i < |named| ==> e[i] == (StagedPath(dsName, named[i].0), named[i].1)
  {
    seq(|named|, i requires 0 <= i < |named| => (StagedPath(dsName, named[i].0), named[i].1))
  }

  /** The dictionary comprehension that nests every entry under the
      datasource's folder (an entry whose path repeats an earlier one
      replaces that one's value, where it stands). */
  function Staged(named: Dict<string, Source>, dsName: string): Dict<Path, Source> {
    SetAll([], StagedEntries(named, dsName))
  }

  /** When the staged paths are distinct, staging keeps every entry, in
      order, each under its staged path. */
  lemma StagedKeepsEntries(named: Dict<string, Source>, dsName: string)
    requires forall i, j :: 0 <= i < j < |named| ==> StagedPath(dsName, named[i].0) != StagedPath(dsName, named[j].0)
    ensures |Staged(named, dsName)| == |named|
    ensures forall i :: 0 <= i < |named| ==> Staged(named, dsName)[i] == (StagedPath(dsName, named[i].0), named[i].1)
  {
    var e := StagedEntries(named, dsName);
    SetAllNew([], e);
    assert [] + e == e;
  }

  /** Plain base names (or the empty name) that differ give staged paths
      that differ. */
  lemma StagedPathInjective(dsName: string, a: string, b: string)
    requires a == "" || PlainName(a)
    requires b == "" || PlainName(b)
    requires a != b
    ensures StagedPath(dsName, a) != StagedPath(dsName, b)
  {
    assert Split("", '/') == [""];
    assert Parse("") == Path(false, []);
    if a != "" { ParsePlain(a); }
    if b != "" { ParsePlain(b); }
    var dir := Combine(DATA_DIR, Parse(dsName));
    if a != "" && b != "" {
      assert StagedPath(dsName, a).parts[|dir.parts|] == a;
      assert StagedPath(dsName, b).parts[|dir.parts|] == b;
    }
  }

  /** The staged map keyed by `Path` objects. */
  function AsKeys(staged: Dict<Path, Source>): (r: Dict<Key, Source>)
    ensures |r| == |staged|
    ensures forall i :: 0 <= i < |staged| ==> r[i] == (PathKey(staged[i].0), staged[i].1)
  {
    seq(|staged|, i requires 0 <= i < |staged| => (PathKey(staged[i].0), staged[i].1))
  }

  const AUTO_HEADER: string := "# Auto generated to load TTL files\n"
  const AUTO_SUFFIXES: set<string> := {".ttl", ".nt"}

  /** The import statement for one staged file, relative to `dir.facts`. */
  function ImportLine(filename: string): string {
    "import \"../$(dir.datasource)/" + filename + "\""
  }

  function ImportLines(named: Dict<string, Source>): seq<string> {
    seq(|named|, i requires 0 <= i < |named| => ImportLine(named[i].0))
  }

  /** The generated load script: the header, then one import per file. */
  function AutoScript(named: Dict<string, Source>): string {
    AUTO_HEADER + Join(ImportLines(named), "\n")
  }

  /** A first line without a newline splits off as the first piece. */
  lemma SplitFirstLine(header: string, body: string)
    requires '\n' !in header
    ensures Split(header + "\n" + body, '\n') == [header] + Split(body, '\n')
  {
    var rest := "\n" + body;
    assert header + "\n" + body == header + rest;
    SplitPrefix(header, rest, '\n');
    assert rest[1..] == body;
    assert Split(rest, '\n') == [""] + Split(body, '\n');
    assert header + "" == header;
  }

  lemma ImportLinesSingle(named: Dict<string, Source>)
    requires forall i :: 0 <= i < |named| ==> '\n' !in named[i].0
    ensures forall i :: 0 <= i < |named| ==> '\n' !in ImportLines(named)[i]
  {
    var pre := "import \"../$(dir.datasource)/";
    var post := "\"";
    assert '\n' !in pre && '\n' !in post;
    forall i | 0 <= i < |named| ensures '\n' !in ImportLines(named)[i] {
      assert ImportLines(named)[i] == pre + named[i].0 + post;
    }
  }

  /** Read line by line, the generated script is its header line followed
      by one import line per input file, in map order (or by one empty
      line when there is no input). */
  lemma AutoScriptLines(named: Dict<string, Source>)
    requires forall i :: 0 <= i < |named| ==> '\n' !in named[i].0
    ensures Split(AutoScript(named), '\n')
         == ["# Auto generated to load TTL files"] + (if named == [] then [""] else ImportLines(named))
  {
    var header := "# Auto generated to load TTL files";
    assert AUTO_HEADER == header + "\n";
    var body := Join(ImportLines(named), "\n");
    SplitFirstLine(header, body);
    if named != [] {
      ImportLinesSingle(named);
      SplitJoin(ImportLines(named), '\n');
    } else {
      assert body == "";
    }
  }

  /** The suffixes of the staged paths, a trailing `.gz` taken off once. */
  function SuffixSet(staged: Dict<Path, Source>): set<string> {
    set i | 0 <= i < |staged| :: EffectiveSuffix(staged[i].0)
  }

  /** The script body: the one given, or the generated one when every
      staged file is Turtle or N-Triples (compressed or not). */
  function LoadBody(script: Option<Pieces>, named: Dict<string, Source>, staged: Dict<Path, Source>, fs: FileSystem)
    : (r: Result<string, Error>)
    ensures script.None? && SuffixSet(staged) <= AUTO_SUFFIXES ==> r == Success(AutoScript(named))
    ensures script.None? && !(SuffixSet(staged) <= AUTO_SUFFIXES) ==> r == Failure(UnsupportedSuffixes(SuffixSet(staged) - AUTO_SUFFIXES))
  {
    match script
    case None =>
      var suffixes := SuffixSet(staged);
      if suffixes <= AUTO_SUFFIXES then Success(AutoScript(named))
      else Failure(UnsupportedSuffixes(suffixes - AUTO_SUFFIXES))
    case Some(arg) => PiecesText(arg, fs)
  }

  /** The line that binds `dir.datasource` to the datasource's folder. */
  function DirSetup(dsName: string): string {
    "set dir.datasource \"$(dir.root)/data/" + dsName + "/\""
  }

  /** The datasource's name: the digest of its values' identities. */
  function DatasourceName(named: Dict<string, Source>, env: Env): string {
    env.md5(NameInput(Values(named), env.ids))
  }

  /** `Datasource.from_files`, as a function of its arguments. */
  function FromFilesSpec(input: InputFiles, script: Option<Pieces>, rules: Option<Pieces>, env: Env)
    : Result<Datasource, Error>
  {
    var named :- NamedInput(input);
    var dsName := DatasourceName(named, env);
    var staged := Staged(named, dsName);
    var body :- LoadBody(script, named, staged, env.fs);
    var rulesText :- RulesText(rules, env.fs);
    Success(Datasource(AsKeys(staged), DirSetup(dsName) + "\n" + body, rulesText))
  }

  /** `Datasource.from_files`. */
  method FromFiles(input: InputFiles, script: Option<Pieces>, rules: Option<Pieces>, env: Env)
    returns (r: Result<Datasource, Error>)
    ensures r == FromFilesSpec(input, script, rules, env)
  {
    var named: Dict<string, Source>;
    if input.Listed? {
      var listed := CollectNamedSources(input.items);
      if listed.Failure? {
        return Failure(listed.error);
      }
      named := listed.value;
    } else {
      named := input.entries;
    }
    var dsName := ComputeDatasourceName(Values(named), env.md5, env.ids);
    var staged := Staged(named, dsName);
    var body: string;
    if script.None? {
      var suffixes := SuffixSet(staged);
      if suffixes <= AUTO_SUFFIXES {
        body := AutoScript(named);
      } else {
        return Failure(UnsupportedSuffixes(suffixes - AUTO_SUFFIXES));
      }
    } else {
      var text := PathsOrStrsToStr(script.value, env.fs);
      if text.Failure? {
        return Failure(text.error);
      }
      body := text.value;
    }
    body := DirSetup(dsName) + "\n" + body;
    var rulesText := "";
    if rules.Some? {
      var text := PathsOrStrsToStr(rules.value, env.fs);
      if text.Failure? {
        return Failure(text.error);
      }
      rulesText := text.value;
    }
    r := Success(Datasource(AsKeys(staged), body, rulesText));
  }

  /** The list-to-dictionary loop of the list form. */
  method CollectNamedSources(items: seq<Source>) returns (r: Result<Dict<string, Source>, Error>)
    ensures r == NamedSources(items)
  {
    var named: Dict<string, Source> := [];
    var i := 0;
    while i < |items|
      invariant 0 <= i <= |items|
      invariant NamedSources(items[..i]) == Success(named)
    {
      assert items[..i + 1][..i] == items[..i];
      var item := items[i];
      if !IsPathOrStr(item) {
        NamedSourcesFailurePersists(items, i + 1);
        return Failure(NotPathOrStr);
      }
      var path := AsPath(item);
      if Name(path) in Keys(named) {
        NamedSourcesFailurePersists(items, i + 1);
        return Failure(DuplicatePathName);
      }
      named := Insert(named, Name(path), FromPath(path));
      i := i + 1;
    }
    assert items[..i] == items;
    r := Success(named);
  }

  /** Once a prefix of the list fails, the whole list fails the same way. */
  lemma {:induction false} NamedSourcesFailurePersists(items: seq<Source>, k: nat)
    requires k <= |items| && NamedSources(items[..k]).Failure?
    ensures NamedSources(items) == NamedSources(items[..k])
    decreases |items| - k
  {
    if k < |items| {
      assert items[..k + 1][..k] == items[..k];
      NamedSourcesFailurePersists(items, k + 1);
    } else {
      assert items[..k] == items;
    }
  }

  // ---------------------------------------------------------------------
  // Properties of from_files

  /** The path each entry is nested under, in map order. */
  function StagedPaths(named: Dict<string, Source>, dsName: string): (ps: seq<Path>)
    ensures |ps| == |named|
    ensures forall i :: 0 <= i < |named| ==> ps[i] == StagedPath(dsName, named[i].0)
  {
    seq(|named|, i requires 0 <= i < |named| => StagedPath(dsName, named[i].0))
  }

  /** The staged paths are exactly the nested names. */
  lemma StagedKeys(named: Dict<string, Source>, dsName: string)
    ensures forall p :: p in Keys(Staged(named, dsName)) <==> p in StagedPaths(named, dsName)
  {
    var e := StagedEntries(named, dsName);
    SetAllKeys([], e);
    assert Keys(e) == StagedPaths(named, dsName);
  }

  /** A relative file name staged under a plain datasource name lies in
      `data/<name>/`, and is named by its own last part. */
  lemma StagedPathUnder(dsName: string, filename: string)
    requires PlainName(dsName)
    requires filename == "" || filename[0] != '/'
    ensures var p := StagedPath(dsName, filename);
      && !p.absolute && |p.parts| >= 2 && p.parts[..2] == ["data", dsName]
      && (PlainName(filename) ==> Name(p) == filename)
  {
    ParsePlain(dsName);
    if PlainName(filename) {
      ParsePlain(filename);
    }
  }

  /** The parts a successful `from_files` is made of. */
  lemma FromFilesParts(input: InputFiles, script: Option<Pieces>, rules: Option<Pieces>, env: Env)
    requires FromFilesSpec(input, script, rules, env).Success?
    ensures NamedInput(input).Success?
    ensures var named := NamedInput(input).value;
      var dsName := DatasourceName(named, env);
      var staged := Staged(named, dsName);
      var d := FromFilesSpec(input, script, rules, env).value;
      && LoadBody(script, named, staged, env.fs).Success?
      && RulesText(rules, env.fs).Success?
      && d.inputFiles == AsKeys(staged)
      && d.loadDataScript == DirSetup(dsName) + "\n" + LoadBody(script, named, staged, env.fs).value
      && d.rules == RulesText(rules, env.fs).value
  {
  }

  /** Every staged path of a plain datasource name lies under `data/<name>/`. */
  lemma StagedUnderDir(named: Dict<string, Source>, dsName: string)
    requires PlainName(dsName)
    requires forall i :: 0 <= i < |named| ==> named[i].0 == "" || named[i].0[0] != '/'
    ensures forall i :: 0 <= i < |Staged(named, dsName)| ==>
      |Staged(named, dsName)[i].0.parts| >= 2 && Staged(named, dsName)[i].0.parts[..2] == ["data", dsName]
  {
    var staged := Staged(named, dsName);
    StagedKeys(named, dsName);
    forall i | 0 <= i < |staged|
      ensures |staged[i].0.parts| >= 2 && staged[i].0.parts[..2] == ["data", dsName]
    {
      assert Keys(staged)[i] == staged[i].0;
      assert staged[i].0 in StagedPaths(named, dsName);
      var j :| 0 <= j < |named| && StagedPaths(named, dsName)[j] == staged[i].0;
      StagedPathUnder(dsName, named[j].0);
    }
  }

  /** Every file of a datasource is staged in the folder that the first
      line of its load script binds to `dir.datasource`. */
  lemma FromFilesLayout(input: InputFiles, script: Option<Pieces>, rules: Option<Pieces>, env: Env)
    requires NamedInput(input).Success?
    requires PlainName(DatasourceName(NamedInput(input).value, env))
    requires forall i :: 0 <= i < |NamedInput(input).value| ==>
      NamedInput(input).value[i].0 == "" || NamedInput(input).value[i].0[0] != '/'
    requires FromFilesSpec(input, script, rules, env).Success?
    ensures var dsName := DatasourceName(NamedInput(input).value, env);
      var d := FromFilesSpec(input, script, rules, env).value;
      && StartsWith(d.loadDataScript, DirSetup(dsName) + "\n")
      && forall i :: 0 <= i < |d.inputFiles| ==>
           d.inputFiles[i].0.PathKey? && |d.inputFiles[i].0.path.parts| >= 2
           && d.inputFiles[i].0.path.parts[..2] == ["data", dsName]
  {
    var named := NamedInput(input).value;
    var dsName := DatasourceName(named, env);
    FromFilesParts(input, script, rules, env);
    StagedUnderDir(named, dsName);
    var d := FromFilesSpec(input, script, rules, env).value;
    var body := LoadBody(script, named, Staged(named, dsName), env.fs).value;
    assert d.loadDataScript == (DirSetup(dsName) + "\n") + body;
  }

  /** Staging a list keeps one entry per item, under the item's base name. */
  lemma ListedStaging(items: seq<Source>, dsName: string)
    requires forall i :: 0 <= i < |items| ==> IsPathOrStr(items[i]) && WellFormed(AsPath(items[i]))
    requires NamedSources(items).Success?
    ensures var staged := AsKeys(Staged(NamedSources(items).value, dsName));
      && |staged| == |items|
      && forall i :: 0 <= i < |items| ==>
           staged[i] == (PathKey(StagedPath(dsName, BaseName(items[i]))), FromPath(AsPath(items[i])))
  {
    NamedSourcesEntries(items);
    var named := NamedSources(items).value;
    forall i, j | 0 <= i < j < |named|
      ensures StagedPath(dsName, named[i].0) != StagedPath(dsName, named[j].0)
    {
      BaseNameShape(items[i]);
      BaseNameShape(items[j]);
      StagedPathInjective(dsName, named[i].0, named[j].0);
    }
    StagedKeepsEntries(named, dsName);
  }

  /** In the list form, a successful datasource stages every listed file
      under its base name, in list order, and the value is the path. */
  lemma FromFilesListed(items: seq<Source>, script: Option<Pieces>, rules: Option<Pieces>, env: Env)
    requires forall i :: 0 <= i < |items| ==> IsPathOrStr(items[i]) && WellFormed(AsPath(items[i]))
    requires FromFilesSpec(Listed(items), script, rules, env).Success?
    ensures NamedSources(items).Success?
    ensures var dsName := DatasourceName(NamedSources(items).value, env);
      var d := FromFilesSpec(Listed(items), script, rules, env).value;
      && |d.inputFiles| == |items|
      && forall i :: 0 <= i < |items| ==>
           d.inputFiles[i] == (PathKey(StagedPath(dsName, BaseName(items[i]))), FromPath(AsPath(items[i])))
  {
    FromFilesParts(Listed(items), script, rules, env);
    ListedStaging(items, DatasourceName(NamedSources(items).value, env));
  }

  /** The base name of a well-formed path is empty or a plain name. */
  lemma BaseNameShape(s: Source)
    requires IsPathOrStr(s) && WellFormed(AsPath(s))
    ensures BaseName(s) == "" || PlainName(BaseName(s))
  {
  }

  /** A name whose suffix (after taking off `.gz`) can be imported. */
  predicate TriplesName(n: string) {
    PlainName(n) && (Suffix(n) in AUTO_SUFFIXES || (Suffix(n) == ".gz" && Suffix(n[..|n| - 3]) in AUTO_SUFFIXES))
  }

  lemma TriplesEffectiveSuffix(p: Path)
    requires TriplesName(Name(p))
    ensures EffectiveSuffix(p) in AUTO_SUFFIXES
  {
  }

  /** Where each staged entry came from. */
  lemma StagedOrigin(named: Dict<string, Source>, dsName: string, i: nat)
    requires i < |Staged(named, dsName)|
    ensures exists j :: 0 <= j < |named| && Staged(named, dsName)[i].0 == StagedPath(dsName, named[j].0)
  {
    var staged := Staged(named, dsName);
    StagedKeys(named, dsName);
    assert Keys(staged)[i] == staged[i].0;
    assert staged[i].0 in StagedPaths(named, dsName);
  }

  lemma TriplesSuffixes(named: Dict<string, Source>, dsName: string)
    requires forall i :: 0 <= i < |named| ==> TriplesName(named[i].0)
    requires PlainName(dsName)
    ensures SuffixSet(Staged(named, dsName)) <= AUTO_SUFFIXES
  {
    var staged := Staged(named, dsName);
    forall x | x in SuffixSet(staged) ensures x in AUTO_SUFFIXES {
      var i :| 0 <= i < |staged| && x == EffectiveSuffix(staged[i].0);
      StagedOrigin(named, dsName, i);
      var j :| 0 <= j < |named| && staged[i].0 == StagedPath(dsName, named[j].0);
      StagedPathUnder(dsName, named[j].0);
      TriplesEffectiveSuffix(staged[i].0);
    }
  }

  /** Without a load script, a datasource of Turtle and N-Triples files
      (each possibly compressed) gets the generated script, and no rules
      when none are given. */
  lemma TriplesLoadAutomatically(input: InputFiles, env: Env)
    requires NamedInput(input).Success?
    requires forall i :: 0 <= i < |NamedInput(input).value| ==> TriplesName(NamedInput(input).value[i].0)
    requires PlainName(DatasourceName(NamedInput(input).value, env))
    ensures var named := NamedInput(input).value;
      var dsName := DatasourceName(named, env);
      FromFilesSpec(input, None, None, env)
        == Success(Datasource(AsKeys(Staged(named, dsName)), DirSetup(dsName) + "\n" + AutoScript(named), ""))
  {
    var named := NamedInput(input).value;
    TriplesSuffixes(named, DatasourceName(named, env));
  }

  lemma CsvEffectiveSuffix(p: Path, stem: string)
    requires PlainName(stem) && Name(p) == stem + ".csv"
    ensures EffectiveSuffix(p) == ".csv"
  {
    assert stem + ".csv" == stem + "." + "csv";
    SuffixOfExtension(stem, "csv");
  }

  lemma CsvSuffix(named: Dict<string, Source>, dsName: string, k: nat, stem: string)
    requires k < |named| && named[k].0 == stem + ".csv"
    requires PlainName(stem) && PlainName(dsName)
    ensures ".csv" in SuffixSet(Staged(named, dsName))
  {
    var staged := Staged(named, dsName);
    var n := stem + ".csv";
    assert '/' !in n;
    StagedPathUnder(dsName, n);
    StagedKeys(named, dsName);
    var p := StagedPath(dsName, n);
    assert p == StagedPaths(named, dsName)[k];
    assert p in Keys(staged);
    var i :| 0 <= i < |staged| && Keys(staged)[i] == p;
    CsvEffectiveSuffix(staged[i].0, stem);
  }

  /** Without a load script, a `.csv` file cannot be loaded automatically:
      the error names `.csv` among the unsupported suffixes. */
  lemma CsvNeedsLoadScript(input: InputFiles, rules: Option<Pieces>, env: Env, k: nat, stem: string)
    requires NamedInput(input).Success?
    requires k < |NamedInput(input).value| && NamedInput(input).value[k].0 == stem + ".csv"
    requires PlainName(stem)
    requires PlainName(DatasourceName(NamedInput(input).value, env))
    ensures FromFilesSpec(input, None, rules, env).Failure?
    ensures FromFilesSpec(input, None, rules, env).error.UnsupportedSuffixes?
    ensures ".csv" in FromFilesSpec(input, None, rules, env).error.suffixes
  {
    var named := NamedInput(input).value;
    var dsName := DatasourceName(named, env);
    var staged := Staged(named, dsName);
    CsvSuffix(named, dsName, k, stem);
    assert ".csv" !in AUTO_SUFFIXES;
    var body := LoadBody(None, named, staged, env.fs);
    assert body == Failure(UnsupportedSuffixes(SuffixSet(staged) - AUTO_SUFFIXES));
    FromFilesBodyFailure(input, None, rules, env);
  }

  /** A load script that cannot be produced is the error of `from_files`. */
  lemma FromFilesBodyFailure(input: InputFiles, script: Option<Pieces>, rules: Option<Pieces>, env: Env)
    requires NamedInput(input).Success?
    ensures var named := NamedInput(input).value;
      var body := LoadBody(script, named, Staged(named, DatasourceName(named, env)), env.fs);
      body.Failure? ==> FromFilesSpec(input, script, rules, env) == Failure(body.error)
  {
  }

  // ---------------------------------------------------------------------
  // load_datasource

  /** The arguments `load_datasource` passes on to `from_files`. */
  datatype LoadArgs = LoadArgs(dataFiles: seq<Source>, script: Option<Pieces>, rules: Option<Pieces>)

  /** The path the glob yields for child `c` of `dir`. */
  function GlobEntry(dir: Path, c: string): Source {
    FromPath(Combine(dir, Path(false, [c])))
  }

  /** `s` is what the glob yields for some plain child ending in `ext`. */
  predicate Globbed(dir: Path, children: seq<string>, ext: string, s: Source) {
    exists j :: 0 <= j < |children| && PlainName(children[j]) && EndsWith(children[j], ext)
      && s == GlobEntry(dir, children[j])
  }

  /** `dir.glob("*" + ext)` over a listing: the children whose names end
      in `ext`, in listing order. */
  function Glob(dir: Path, children: seq<string>, ext: string): (r: seq<Source>)
    ensures |r| <= |children|
    ensures forall i :: 0 <= i < |r| ==> r[i].FromPath? && EndsWith(Name(r[i].path), ext)
    ensures forall i :: 0 <= i < |r| ==> Globbed(dir, children, ext, r[i])
    ensures forall j :: 0 <= j < |children| && PlainName(children[j]) && EndsWith(children[j], ext) ==>
      GlobEntry(dir, children[j]) in r
    decreases |children|
  {
    if children == [] then []
    else
      var rest := Glob(dir, children[1..], ext);
      var c := children[0];
      if PlainName(c) && EndsWith(c, ext) then
        ParsePlain(c);
        [FromPath(Combine(dir, Parse(c)))] + rest
      else rest
  }

  /** The glob keeps listing order: the matches of an earlier part of the
      listing come before those of a later part. */
  lemma {:induction false} GlobAppend(dir: Path, a: seq<string>, b: seq<string>, ext: string)
    ensures Glob(dir, a + b, ext) == Glob(dir, a, ext) + Glob(dir, b, ext)
    decreases |a|
  {
    if a == [] {
      assert a + b == b;
    } else {
      assert (a + b)[0] == a[0] && (a + b)[1..] == a[1..] + b;
      GlobAppend(dir, a[1..], b, ext);
    }
  }

  /** `dir / name`. */
  function Child(dir: Path, name: string): Path {
    Combine(dir, Parse(name))
  }

  /** A file that is there is passed on as a piece to read. */
  function IfExists(fs: FileSystem, p: Path): Option<Pieces> {
    if p in fs then Some(One(FilePiece(p))) else None
  }

  /** Which files, script and rules `load_datasource` picks for a path: a
      directory's CSV then Turtle files with its `load_data.rdfox` and
      `map.dlog` if present, a `.dlog` file as the rules, any other file
      as the one data file. */
  function LoadArguments(path: Path, fs: FileSystem): (r: Result<LoadArgs, Error>)
    ensures r.Failure? <==> path !in fs
    ensures r.Failure? ==> r.error == FileNotFound(path)
    ensures path in fs && fs[path].Dir? ==>
      var children := fs[path].children;
      var script, rules := Child(path, "load_data.rdfox"), Child(path, "map.dlog");
      && r.value.dataFiles == Glob(path, children, ".csv") + Glob(path, children, ".ttl")
      && (r.value.script.Some? <==> script in fs)
      && (r.value.script.Some? ==> r.value.script.value == One(FilePiece(script)))
      && (r.value.rules.Some? <==> rules in fs)
      && (r.value.rules.Some? ==> r.value.rules.value == One(FilePiece(rules)))
    ensures path in fs && fs[path].File? && LowerAscii(Suffix(Name(path))) == ".dlog" ==>
      r.value.dataFiles == [] && r.value.script.None? && r.value.rules == Some(One(FilePiece(path)))
    ensures path in fs && fs[path].File? && LowerAscii(Suffix(Name(path))) != ".dlog" ==>
      r.value.dataFiles == [FromPath(path)] && r.value.script.None? && r.value.rules.None?
  {
    if path !in fs then Failure(FileNotFound(path))
    else match fs[path]
      case Dir(children) =>
        Success(LoadArgs(Glob(path, children, ".csv") + Glob(path, children, ".ttl"),
                         IfExists(fs, Child(path, "load_data.rdfox")),
                         IfExists(fs, Child(path, "map.dlog"))))
      case File(_) =>
        if LowerAscii(Suffix(Name(path))) == ".dlog" then Success(LoadArgs([], None, Some(One(FilePiece(path)))))
        else Success(LoadArgs([FromPath(path)], None, None))
  }

  /** No name ends both in `.csv` and in `.ttl`. */
  lemma CsvNotTurtle(n: string)
    ensures !(EndsWith(n, ".csv") && EndsWith(n, ".ttl"))
  {
    if EndsWith(n, ".csv") {
      assert n[|n| - 1] == 'v';
    }
  }

  /** A directory's data files are exactly its plain children ending in
      `.csv` or `.ttl`, every CSV file before every Turtle file. */
  lemma DirectoryDataFiles(path: Path, fs: FileSystem)
    requires path in fs && fs[path].Dir?
    ensures var children := fs[path].children;
      var files := LoadArguments(path, fs).value.dataFiles;
      && (forall j :: 0 <= j < |children| && PlainName(children[j]) && EndsWith(children[j], ".csv") ==>
            GlobEntry(path, children[j]) in files)
      && (forall j :: 0 <= j < |children| && PlainName(children[j]) && EndsWith(children[j], ".ttl") ==>
            GlobEntry(path, children[j]) in files)
      && (forall i :: 0 <= i < |files| ==>
            Globbed(path, children, ".csv", files[i]) || Globbed(path, children, ".ttl", files[i]))
      && (forall i, k :: 0 <= i < k < |files| && NamedWith(files[k], ".csv") ==> NamedWith(files[i], ".csv"))
  {
    var children := fs[path].children;
    var csv, ttl := Glob(path, children, ".csv"), Glob(path, children, ".ttl");
    CsvBeforeTurtle(csv, ttl);
    GlobbedEither(path, children, csv, ttl);
  }

  /** In a file system where every listed name is there, every data file
      of a directory is a path that exists. */
  lemma DirectoryDataFilesExist(path: Path, fs: FileSystem)
    requires path in fs && fs[path].Dir? && Consistent(fs)
    ensures var files := LoadArguments(path, fs).value.dataFiles;
      forall i :: 0 <= i < |files| ==> files[i].FromPath? && files[i].path in fs
  {
    var children := fs[path].children;
    var files := LoadArguments(path, fs).value.dataFiles;
    DirectoryDataFiles(path, fs);
    forall i | 0 <= i < |files|
      ensures files[i].FromPath? && files[i].path in fs
    {
      var ext := if Globbed(path, children, ".csv", files[i]) then ".csv" else ".ttl";
      var j :| 0 <= j < |children| && PlainName(children[j]) && EndsWith(children[j], ext)
        && files[i] == GlobEntry(path, children[j]);
    }
  }

  /** `s` is a path whose name ends in `ext`. */
  predicate NamedWith(s: Source, ext: string) {
    s.FromPath? && EndsWith(Name(s.path), ext)
  }

  /** In CSV files followed by Turtle files, a CSV file has only CSV files
      before it. */
  lemma CsvBeforeTurtle(csv: seq<Source>, ttl: seq<Source>)
    requires forall i :: 0 <= i < |csv| ==> NamedWith(csv[i], ".csv")
    requires forall i :: 0 <= i < |ttl| ==> NamedWith(ttl[i], ".ttl")
    ensures forall i, k :: 0 <= i < k < |csv + ttl| && NamedWith((csv + ttl)[k], ".csv") ==>
      NamedWith((csv + ttl)[i], ".csv")
  {
    var files := csv + ttl;
    forall i, k | 0 <= i < k < |files|
      ensures NamedWith(files[k], ".csv") ==> NamedWith(files[i], ".csv")
    {
      if k >= |csv| {
        assert files[k] == ttl[k - |csv|];
        CsvNotTurtle(Name(files[k].path));
      } else {
        assert files[i] == csv[i];
      }
    }
  }

  /** Every file of the two globs comes from one of them. */
  lemma GlobbedEither(dir: Path, children: seq<string>, csv: seq<Source>, ttl: seq<Source>)
    requires forall i :: 0 <= i < |csv| ==> Globbed(dir, children, ".csv", csv[i])
    requires forall i :: 0 <= i < |ttl| ==> Globbed(dir, children, ".ttl", ttl[i])
    ensures forall i :: 0 <= i < |csv + ttl| ==>
      Globbed(dir, children, ".csv", (csv + ttl)[i]) || Globbed(dir, children, ".ttl", (csv + ttl)[i])
  {
  }

  /** `load_datasource`. */
  method LoadDatasource(path: Path, env: Env) returns (r: Result<Datasource, Error>)
    ensures LoadArguments(path, env.fs).Failure? ==> r == Failure(FileNotFound(path))
    ensures LoadArguments(path, env.fs).Success? ==>
      var args := LoadArguments(path, env.fs).value;
      r == FromFilesSpec(Listed(args.dataFiles), args.script, args.rules, env)
  {
    var dataFiles: seq<Source>;
    var script: Option<Pieces> := None;
    var rules: Option<Pieces> := None;
    if path in env.fs && env.fs[path].Dir? {
      var loadDataPath := Child(path, "load_data.rdfox");
      if loadDataPath in env.fs {
        script := Some(One(FilePiece(loadDataPath)));
      }
      var mapPath := Child(path, "map.dlog");
      if mapPath in env.fs {
        rules := Some(One(FilePiece(mapPath)));
      }
      var children := env.fs[path].children;
      dataFiles := Glob(path, children, ".csv") + Glob(path, children, ".ttl");
    } else if path in env.fs {
      if LowerAscii(Suffix(Name(path))) == ".dlog" {
        dataFiles := [];
        rules := Some(One(FilePiece(path)));
      } else {
        dataFiles := [FromPath(path)];
      }
    } else {
      return Failure(FileNotFound(path));
    }
    r := FromFiles(Listed(dataFiles), script, rules, env);
  }

  /** A rules file on its own gives a datasource with no files, the empty
      generated script and the file's text as its rules. */
  lemma LoadRulesFile(path: Path, env: Env)
    requires path in env.fs && env.fs[path].File?
    requires LowerAscii(Suffix(Name(path))) == ".dlog"
    ensures var dsName := env.md5("");
      LoadArguments(path, env.fs).Success? &&
      var args := LoadArguments(path, env.fs).value;
      FromFilesSpec(Listed(args.dataFiles), args.script, args.rules, env)
        == Success(Datasource([], DirSetup(dsName) + "\n" + AUTO_HEADER, env.fs[path].content))
  {
    var args := LoadArgs([], None, Some(One(FilePiece(path))));
    assert LoadArguments(path, env.fs) == Success(args);
    var named: Dict<string, Source> := [];
    assert NamedInput(Listed([])) == Success(named);
    assert NameInput(Values(named), env.ids) == "";
    var dsName := env.md5("");
    assert DatasourceName(named, env) == dsName;
    assert Staged(named, dsName) == [];
    assert SuffixSet([]) == {};
    assert AutoScript(named) == AUTO_HEADER;
    assert LoadBody(None, named, [], env.fs) == Success(AUTO_HEADER);
    PiecesTextLiteralFile(path, env.fs);
    assert RulesText(args.rules, env.fs) == Success(env.fs[path].content);
    assert AsKeys([]) == [];
  }

  /** A single file piece reads as the file's text. */
  lemma PiecesTextLiteralFile(path: Path, fs: FileSystem)
    requires path in fs && fs[path].File?
    ensures PiecesText(One(FilePiece(path)), fs) == Success(fs[path].content)
  {
    assert [FilePiece(path)][..0] == [];
    assert ResolvedPieces([FilePiece(path)], fs) == Success([] + [fs[path].content]);
    assert [] + [fs[path].content] == [fs[path].content];
  }

  /** A single data file is staged under its own name. */
  lemma LoadSingleFile(path: Path, env: Env)
    requires path in env.fs && env.fs[path].File? && WellFormed(path)
    requires LowerAscii(Suffix(Name(path))) != ".dlog"
    requires FromFilesSpec(Listed([FromPath(path)]), None, None, env).Success?
    ensures LoadArguments(path, env.fs) == Success(LoadArgs([FromPath(path)], None, None))
    ensures var d := FromFilesSpec(Listed([FromPath(path)]), None, None, env).value;
      var dsName := DatasourceName(NamedSources([FromPath(path)]).value, env);
      d.inputFiles == [(PathKey(StagedPath(dsName, Name(path))), FromPath(path))]
  {
    FromFilesListed([FromPath(path)], None, None, env);
  }
}
