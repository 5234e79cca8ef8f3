/** Assembling the files and scripts of an RDFox run from datasources,
    and the query plumbing around it (src/probs_runner/runners.py). The
    engine itself is a parameter: what it answers for a query, given the
    files it was started with. */
module Runners {
  import opened Wrappers
  import opened Text
  import opened Dicts
  import opened Paths
  import opened Errors
  import opened Datasources

  /** The prefixes the engine is started with, in order. */
  const NAMESPACES: seq<(string, string)> := [
    ("sys", "https://ukfires.org/probs/system/"),
    ("", "https://ukfires.org/probs/ontology/"),
    ("rdf", "http://www.w3.org/1999/02/22-rdf-syntax-ns#"),
    ("rdfs", "http://www.w3.org/2000/01/rdf-schema#")
  ]

  type Files = Dict<Key, Source>

  /** `script_source_dir / rel`, with `rel` given as its parts. */
  function Under(dir: Path, rel: seq<string>): Source {
    FromPath(Combine(dir, Path(false, rel)))
  }

  const LOAD_DATA_KEY: Key := TextKey("scripts/data-conversion/load_data.rdfox")
  const MAP_KEY: Key := TextKey("scripts/data-conversion/map.dlog")
  const PLACEHOLDER_KEY: Key := TextKey("data/.placeholder")
  const ORIGINAL_DATA_KEY: Key := TextKey("data/probs_original_data.nt.gz")
  const ENHANCED_DATA_KEY: Key := TextKey("data/probs_enhanced_data.nt.gz")

  /** The standard files of the conversion stage. */
  function ConvertStandard(dir: Path): Files {
    [ (TextKey("data/probs.fss"), Under(dir, ["probs.fss"])),
      (TextKey("data/additional_info.ttl"), Under(dir, ["additional_info.ttl"])),
      (TextKey("scripts/shared"), Under(dir, ["scripts", "shared"])),
      (TextKey("scripts/data-conversion"), Under(dir, ["scripts", "data-conversion"])) ]
  }

  /** The standard files of the combined conversion, enhancement and
      reasoning run. */
  function PipelineStandard(dir: Path): Files {
    [ (TextKey("data/probs.fss"), Under(dir, ["probs.fss"])),
      (TextKey("data/additional_info.ttl"), Under(dir, ["additional_info.ttl"])),
      (TextKey("scripts/shared"), Under(dir, ["scripts", "shared"])),
      (TextKey("scripts/data-conversion"), Under(dir, ["scripts", "data-conversion"])),
      (TextKey("scripts/data-enhancement"), Under(dir, ["scripts", "data-enhancement"])),
      (TextKey("scripts/reasoning"), Under(dir, ["scripts", "reasoning"])) ]
  }

  /** The standard files of an endpoint over prepared facts. */
  function EndpointStandard(dir: Path): Files {
    [ (TextKey("data/probs.fss"), Under(dir, ["probs.fss"])),
      (TextKey("data/additional_info.ttl"), Under(dir, ["additional_info.ttl"])),
      (TextKey("scripts/shared"), Under(dir, ["scripts", "shared"])),
      (TextKey("scripts/data-enhancement"), Under(dir, ["scripts", "data-enhancement"])),
      (TextKey("scripts/reasoning"), Under(dir, ["scripts", "reasoning"])) ]
  }

  const PIPELINE_SCRIPT: seq<string> := [
    "set endpoint.port \"12112\"",
    "exec scripts/shared/setup-RDFox",
    "exec scripts/data-conversion/master-pipeline",
    "exec scripts/data-enhancement/master-pipeline",
    "exec scripts/reasoning/master-pipeline"
  ]

  const ENHANCE_SCRIPT: seq<string> := [
    "set endpoint.port \"12112\"",
    "exec scripts/shared/setup-RDFox",
    "exec scripts/shared/init-enhancement",
    "import probs.fss",
    "import additional_info.ttl",
    "import probs_original_data.nt.gz",
    "exec scripts/data-enhancement/master-pipeline",
    "exec scripts/reasoning/master-pipeline"
  ]

  const REASON_SCRIPT: seq<string> := [
    "set endpoint.port \"12112\"",
    "exec scripts/reasoning/master"
  ]

  // ---------------------------------------------------------------------
  // The combined load script and rules

  function LoadScripts(ds: seq<Datasource>): (r: seq<string>)
    ensures |r| == |ds| && forall i :: 0 <= i < |ds| ==> r[i] == ds[i].loadDataScript
  {
    seq(|ds|, i requires 0 <= i < |ds| => ds[i].loadDataScript)
  }

  function RuleTexts(ds: seq<Datasource>): (r: seq<string>)
    ensures |r| == |ds| && forall i :: 0 <= i < |ds| ==> r[i] == ds[i].rules
  {
    seq(|ds|, i requires 0 <= i < |ds| => ds[i].rules)
  }

  /** The generated `load_data.rdfox` and `map.dlog`: the datasources'
      scripts, and their rules, one after the other in caller order. */
  function WithGenerated(files: Files, ds: seq<Datasource>): Files {
    var f := Set(files, LOAD_DATA_KEY, Stream(Join(LoadScripts(ds), "\n")));
    Set(f, MAP_KEY, Stream(Join(RuleTexts(ds), "\n")))
  }

  /** The generated load script and rules, read line by line, are each
      datasource's lines in caller order, whatever lines a datasource's
      own script or rules hold; with no datasource they are one empty
      line. */
  lemma LoadScriptsSeparate(ds: seq<Datasource>)
    ensures ds == [] ==> Split(Join(LoadScripts(ds), "\n"), '\n') == [""]
    ensures ds != [] ==> Split(Join(LoadScripts(ds), "\n"), '\n') == SplitEach(LoadScripts(ds), '\n')
    ensures ds != [] ==> Split(Join(RuleTexts(ds), "\n"), '\n') == SplitEach(RuleTexts(ds), '\n')
  {
    if ds != [] {
      SplitJoinEach(LoadScripts(ds), '\n');
      SplitJoinEach(RuleTexts(ds), '\n');
    }
  }

  // ---------------------------------------------------------------------
  // Merging datasource entries

  /** Every datasource's entries, datasource by datasource. */
  function AllEntries(ds: seq<Datasource>): seq<(Key, Source)>
    decreases |ds|
  {
    if ds == [] then [] else AllEntries(ds[..|ds| - 1]) + ds[|ds| - 1].inputFiles
  }

  lemma {:induction false} AllEntriesAppend(a: seq<Datasource>, b: seq<Datasource>)
    ensures AllEntries(a + b) == AllEntries(a) + AllEntries(b)
    decreases |b|
  {
    if b == [] {
      assert a + b == a;
    } else {
      var n := |b| - 1;
      assert (a + b)[..|a + b| - 1] == a + b[..n];
      AllEntriesAppend(a, b[..n]);
    }
  }

  /** Adding entries one by one, refusing any key already present. */
  function InsertAll(files: Files, entries: seq<(Key, Source)>): Result<Files, Error>
    decreases |entries|
  {
    if entries == [] then Success(files)
    else match InsertAll(files, entries[..|entries| - 1])
      case Failure(e) => Failure(e)
      case Success(acc) =>
        var (k, v) := entries[|entries| - 1];
        if k in Keys(acc) then Failure(DuplicateEntry(k)) else Success(Insert(acc, k, v))
  }

  /** The new entries have distinct keys, none of them already present. */
  predicate AllNew(files: Files, entries: seq<(Key, Source)>) {
    DistinctKeys(entries) && forall i :: 0 <= i < |entries| ==> entries[i].0 !in Keys(files)
  }

  /** All keys of a longer list are new when those before the last are,
      and the last is neither present nor among them. */
  lemma AllNewSnoc(files: Files, entries: seq<(Key, Source)>)
    requires entries != []
    ensures var n := |entries| - 1;
      AllNew(files, entries)
      <==> AllNew(files, entries[..n]) && entries[n].0 !in Keys(files) && entries[n].0 !in Keys(entries[..n])
  {
    var n := |entries| - 1;
    var front := entries[..n];
    assert forall i :: 0 <= i < n ==> front[i] == entries[i];
  }

  /** The merge succeeds exactly when every key is new, and then it only
      adds: the old entries stay as they were and the new ones follow, in
      order. */
  lemma {:induction false} InsertAllSuccess(files: Files, entries: seq<(Key, Source)>)
    ensures InsertAll(files, entries).Success? <==> AllNew(files, entries)
    ensures InsertAll(files, entries).Success? ==> InsertAll(files, entries).value == files + entries
    decreases |entries|
  {
    if entries != [] {
      var n := |entries| - 1;
      var front := entries[..n];
      InsertAllSuccess(files, front);
      AllNewSnoc(files, entries);
      if InsertAll(files, front).Success? {
        var acc := InsertAll(files, front).value;
        var k := entries[n].0;
        assert acc == files + front;
        assert Keys(acc) == Keys(files) + Keys(front);
        if k !in Keys(acc) {
          var r := Insert(acc, k, entries[n].1);
          assert r == acc + [entries[n]];
          assert (files + front) + [entries[n]] == files + entries;
        }
      }
    }
  }

  /** A failed merge names the first key that was already present, in the
      standard files or among the entries before it. */
  lemma {:induction false} InsertAllFailure(files: Files, entries: seq<(Key, Source)>)
    requires InsertAll(files, entries).Failure?
    ensures InsertAll(files, entries).error.DuplicateEntry?
    ensures exists i :: (0 <= i < |entries| && AllNew(files, entries[..i])
      && entries[i].0 == InsertAll(files, entries).error.key
      && (entries[i].0 in Keys(files) || entries[i].0 in Keys(entries[..i])))
    decreases |entries|
  {
    var n := |entries| - 1;
    var front := entries[..n];
    if InsertAll(files, front).Failure? {
      InsertAllFailure(files, front);
      var i :| 0 <= i < |front| && AllNew(files, front[..i]) && front[i].0 == InsertAll(files, front).error.key
        && (front[i].0 in Keys(files) || front[i].0 in Keys(front[..i]));
      assert front[..i] == entries[..i];
    } else {
      InsertAllSuccess(files, front);
      var acc := InsertAll(files, front).value;
      assert Keys(acc) == Keys(files) + Keys(front);
      assert entries[n].0 in Keys(files) || entries[n].0 in Keys(front);
    }
  }

  /** Once a prefix fails, adding more entries fails the same way. */
  lemma {:induction false} InsertAllFailurePersists(files: Files, pre: seq<(Key, Source)>, post: seq<(Key, Source)>)
    requires InsertAll(files, pre).Failure?
    ensures InsertAll(files, pre + post) == InsertAll(files, pre)
    decreases |post|
  {
    if post == [] {
      assert pre + post == pre;
    } else {
      var n := |post| - 1;
      assert (pre + post)[..|pre + post| - 1] == pre + post[..n];
      InsertAllFailurePersists(files, pre, post[..n]);
    }
  }

  /** The nested loop that copies every datasource's entries into `files`,
      raising on a key already present. */
  method MergeInto(files: Files, ds: seq<Datasource>) returns (r: Result<Files, Error>)
    ensures r == InsertAll(files, AllEntries(ds))
  {
    var acc := files;
    var i := 0;
    while i < |ds|
      invariant 0 <= i <= |ds|
      invariant InsertAll(files, AllEntries(ds[..i])) == Success(acc)
    {
      var entries := ds[i].inputFiles;
      var done := AllEntries(ds[..i]);
      var j := 0;
      assert done + entries[..0] == done;
      while j < |entries|
        invariant 0 <= j <= |entries|
        invariant InsertAll(files, done + entries[..j]) == Success(acc)
      {
        var entry := entries[j];
        PrefixSnoc(done, entries, j);
        InsertAllSnoc(files, done + entries[..j], acc, entry);
        if entry.0 in Keys(acc) {
          MergeStops(files, ds, i, j);
          return Failure(DuplicateEntry(entry.0));
        }
        acc := Insert(acc, entry.0, entry.1);
        j := j + 1;
      }
      AllEntriesSnoc(ds, i);
      i := i + 1;
    }
    assert ds[..i] == ds;
    r := Success(acc);
  }

  /** A merge that fails inside datasource `i` fails as a whole. */
  lemma MergeStops(files: Files, ds: seq<Datasource>, i: nat, j: nat)
    requires i < |ds| && j < |ds[i].inputFiles|
    requires InsertAll(files, AllEntries(ds[..i]) + ds[i].inputFiles[..j + 1]).Failure?
    ensures InsertAll(files, AllEntries(ds)) == InsertAll(files, AllEntries(ds[..i]) + ds[i].inputFiles[..j + 1])
  {
    MergePrefix(ds, i, j + 1);
    var pre := AllEntries(ds[..i]) + ds[i].inputFiles[..j + 1];
    InsertAllFailurePersists(files, pre, ds[i].inputFiles[j + 1..] + AllEntries(ds[i + 1..]));
  }

  /** One more entry: refused if its key is present, added otherwise. */
  lemma InsertAllSnoc(files: Files, pre: seq<(Key, Source)>, acc: Files, e: (Key, Source))
    requires InsertAll(files, pre) == Success(acc)
    ensures InsertAll(files, pre + [e])
         == if e.0 in Keys(acc) then Failure(DuplicateEntry(e.0)) else Success(Insert(acc, e.0, e.1))
  {
    assert (pre + [e])[..|pre|] == pre;
  }

  /** One more element of `b` after `a`. */
  lemma PrefixSnoc<T>(a: seq<T>, b: seq<T>, j: nat)
    requires j < |b|
    ensures a + b[..j + 1] == (a + b[..j]) + [b[j]]
  {
    assert b[..j + 1] == b[..j] + [b[j]];
  }

  lemma AllEntriesSnoc(ds: seq<Datasource>, i: nat)
    requires i < |ds|
    ensures AllEntries(ds[..i + 1]) == AllEntries(ds[..i]) + ds[i].inputFiles[..|ds[i].inputFiles|]
  {
    assert ds[..i + 1][..i] == ds[..i];
    assert ds[i].inputFiles[..|ds[i].inputFiles|] == ds[i].inputFiles;
  }

  /** How the entries of all datasources split around the `j`-th entry of
      datasource `i`. */
  lemma MergePrefix(ds: seq<Datasource>, i: nat, j: nat)
    requires i < |ds| && j <= |ds[i].inputFiles|
    ensures AllEntries(ds)
         == (AllEntries(ds[..i]) + ds[i].inputFiles[..j]) + (ds[i].inputFiles[j..] + AllEntries(ds[i + 1..]))
  {
    assert ds == ds[..i + 1] + ds[i + 1..];
    AllEntriesAppend(ds[..i + 1], ds[i + 1..]);
    assert ds[..i + 1][..i] == ds[..i];
    assert ds[i].inputFiles == ds[i].inputFiles[..j] + ds[i].inputFiles[j..];
  }

  // ---------------------------------------------------------------------
  // The stages

  /** The files of `probs_convert_data`. */
  function ConvertFiles(ds: seq<Datasource>, dir: Path): Result<Files, Error> {
    InsertAll(WithGenerated(ConvertStandard(dir), ds), AllEntries(ds))
  }

  /** The files of `probs_convert_and_query_data`: as for conversion, with
      more standard files and an empty placeholder added last. */
  function PipelineFiles(ds: seq<Datasource>, dir: Path): Result<Files, Error> {
    var merged :- InsertAll(WithGenerated(PipelineStandard(dir), ds), AllEntries(ds));
    Success(Set(merged, PLACEHOLDER_KEY, Stream("")))
  }

  /** Staging for `probs_convert_data`. */
  method StageConvert(ds: seq<Datasource>, dir: Path) returns (r: Result<Files, Error>)
    ensures r == ConvertFiles(ds, dir)
  {
    var files := ConvertStandard(dir);
    files := Set(files, LOAD_DATA_KEY, Stream(Join(LoadScripts(ds), "\n")));
    files := Set(files, MAP_KEY, Stream(Join(RuleTexts(ds), "\n")));
    r := MergeInto(files, ds);
  }

  /** Staging for `probs_convert_and_query_data`. */
  method StagePipeline(ds: seq<Datasource>, dir: Path) returns (r: Result<Files, Error>)
    ensures r == PipelineFiles(ds, dir)
  {
    var files := PipelineStandard(dir);
    files := Set(files, LOAD_DATA_KEY, Stream(Join(LoadScripts(ds), "\n")));
    files := Set(files, MAP_KEY, Stream(Join(RuleTexts(ds), "\n")));
    var merged := MergeInto(files, ds);
    if merged.Failure? {
      return merged;
    }
    r := Success(Set(merged.value, PLACEHOLDER_KEY, Stream("")));
  }

  /** A successful conversion stage holds the standard files and the
      generated script and rules, unchanged, then every datasource entry
      as given. */
  lemma ConvertFilesContent(ds: seq<Datasource>, dir: Path)
    ensures ConvertFiles(ds, dir).Success? <==> AllNew(WithGenerated(ConvertStandard(dir), ds), AllEntries(ds))
    ensures ConvertFiles(ds, dir).Success? ==>
      var files := ConvertFiles(ds, dir).value;
      && files == WithGenerated(ConvertStandard(dir), ds) + AllEntries(ds)
      && Get(files, LOAD_DATA_KEY) == Some(Stream(Join(LoadScripts(ds), "\n")))
      && Get(files, MAP_KEY) == Some(Stream(Join(RuleTexts(ds), "\n")))
  {
    var base := WithGenerated(ConvertStandard(dir), ds);
    InsertAllSuccess(base, AllEntries(ds));
    if ConvertFiles(ds, dir).Success? {
      GetPrefix(base, AllEntries(ds), LOAD_DATA_KEY);
      GetPrefix(base, AllEntries(ds), MAP_KEY);
    }
  }

  /** Extending a dictionary by new keys keeps what its old keys give. */
  lemma GetPrefix(base: Files, entries: seq<(Key, Source)>, k: Key)
    requires DistinctKeys(base + entries)
    requires k in Keys(base)
    ensures Get(base + entries, k) == Get(base, k)
  {
    var all: Files := base + entries;
    var i :| 0 <= i < |base| && base[i].0 == k;
    GetAt(base, i);
    GetAt(all, i);
  }

  /** The generated load script and rules are always staged. */
  lemma GeneratedStaged(files: Files, ds: seq<Datasource>)
    ensures Get(WithGenerated(files, ds), LOAD_DATA_KEY) == Some(Stream(Join(LoadScripts(ds), "\n")))
    ensures Get(WithGenerated(files, ds), MAP_KEY) == Some(Stream(Join(RuleTexts(ds), "\n")))
  {
    assert LOAD_DATA_KEY != MAP_KEY by {
      assert LOAD_DATA_KEY.text[25] != MAP_KEY.text[25];
    }
  }

  /** A failed merge names a key that was present before it, or that two
      of the entries share. */
  lemma InsertAllCollision(base: Files, entries: seq<(Key, Source)>)
    requires InsertAll(base, entries).Failure?
    ensures InsertAll(base, entries).error.DuplicateEntry?
    ensures var k := InsertAll(base, entries).error.key;
      || k in Keys(base)
      || exists i, j :: (0 <= i < j < |entries| && entries[i].0 == k && entries[j].0 == k)
  {
    InsertAllFailure(base, entries);
    var j :| 0 <= j < |entries| && AllNew(base, entries[..j]) && entries[j].0 == InsertAll(base, entries).error.key
      && (entries[j].0 in Keys(base) || entries[j].0 in Keys(entries[..j]));
    if entries[j].0 !in Keys(base) {
      var i :| 0 <= i < j && entries[..j][i].0 == entries[j].0;
      assert entries[i].0 == entries[j].0;
    }
  }

  /** A datasource that stages a file under any standard name, or under a
      name an earlier datasource used, makes the stage fail and names it. */
  lemma ConvertFilesCollision(ds: seq<Datasource>, dir: Path)
    requires ConvertFiles(ds, dir).Failure?
    ensures ConvertFiles(ds, dir).error.DuplicateEntry?
    ensures var k := ConvertFiles(ds, dir).error.key;
      || k in Keys(WithGenerated(ConvertStandard(dir), ds))
      || exists i, j :: (0 <= i < j < |AllEntries(ds)| && AllEntries(ds)[i].0 == k && AllEntries(ds)[j].0 == k)
  {
    var base := WithGenerated(ConvertStandard(dir), ds);
    var entries := AllEntries(ds);
    assert ConvertFiles(ds, dir) == InsertAll(base, entries);
    InsertAllCollision(base, entries);
    var k := InsertAll(base, entries).error.key;
    if k !in Keys(base) {
      var i, j :| 0 <= i < j < |entries| && entries[i].0 == k && entries[j].0 == k;
      assert AllEntries(ds)[i].0 == k && AllEntries(ds)[j].0 == k;
    }
  }

  /** Assigning a key some entry already holds, after a merge, replaces
      that entry: the count stays and the key gives the new value. */
  lemma SetAfterMerge(base: Files, entries: seq<(Key, Source)>, k: Key, s: Source, v: Source)
    requires InsertAll(base, entries).Success?
    requires (k, s) in entries
    ensures var r := Set(InsertAll(base, entries).value, k, v);
      |r| == |base| + |entries| && Get(r, k) == Some(v)
  {
    InsertAllSuccess(base, entries);
    var merged: Files := base + entries;
    var i :| 0 <= i < |entries| && entries[i] == (k, s);
    assert merged[|base| + i].0 == k;
    assert Keys(merged)[|base| + i] == k;
    SetPresentSize(merged, k, v);
  }

  /** The standard names are all shorter than the generated ones. */
  lemma PipelineStandardShort(dir: Path)
    ensures forall i :: 0 <= i < |PipelineStandard(dir)| ==>
      PipelineStandard(dir)[i].0.TextKey? && |PipelineStandard(dir)[i].0.text| < 30
    ensures LOAD_DATA_KEY !in Keys(PipelineStandard(dir)) && MAP_KEY !in Keys(PipelineStandard(dir))
  {
    var std := PipelineStandard(dir);
    assert |LOAD_DATA_KEY.text| > 30 && |MAP_KEY.text| > 30;
  }

  /** The placeholder is written after the collision check: a datasource
      entry under `data/.placeholder` is replaced by the empty stream, and
      nothing is added in its place. */
  lemma PlaceholderReplaces(ds: seq<Datasource>, dir: Path, s: Source)
    requires PipelineFiles(ds, dir).Success?
    requires (PLACEHOLDER_KEY, s) in AllEntries(ds)
    ensures Get(PipelineFiles(ds, dir).value, PLACEHOLDER_KEY) == Some(Stream(""))
    ensures |PipelineFiles(ds, dir).value| == |PipelineStandard(dir)| + 2 + |AllEntries(ds)|
  {
    var base := WithGenerated(PipelineStandard(dir), ds);
    SetAfterMerge(base, AllEntries(ds), PLACEHOLDER_KEY, s, Stream(""));
    PipelineStandardShort(dir);
    GeneratedKeys(PipelineStandard(dir), ds);
  }

  /** The generated entries add two keys to a stage without them. */
  lemma GeneratedKeys(files: Files, ds: seq<Datasource>)
    requires LOAD_DATA_KEY !in Keys(files) && MAP_KEY !in Keys(files)
    ensures |WithGenerated(files, ds)| == |files| + 2
  {
    var f := Set(files, LOAD_DATA_KEY, Stream(Join(LoadScripts(ds), "\n")));
    assert LOAD_DATA_KEY != MAP_KEY by {
      assert LOAD_DATA_KEY.text[25] != MAP_KEY.text[25];
    }
    assert Keys(f) == Keys(files) + [LOAD_DATA_KEY];
  }

  /** `probs_endpoint`'s files and script: the facts go in as original
      data to be enhanced, or as data already enhanced. */
  function EndpointStage(facts: Source, dir: Path, enhance: bool): (Files, seq<string>) {
    if enhance then (Set(EndpointStandard(dir), ORIGINAL_DATA_KEY, facts), ENHANCE_SCRIPT)
    else (Set(EndpointStandard(dir), ENHANCED_DATA_KEY, facts), REASON_SCRIPT)
  }

  /** The facts are staged under the name the chosen script imports, the
      other name is not staged, and the standard files stay. */
  lemma EndpointStageFacts(facts: Source, dir: Path, enhance: bool)
    ensures var (files, script) := EndpointStage(facts, dir, enhance);
      var used := if enhance then ORIGINAL_DATA_KEY else ENHANCED_DATA_KEY;
      var unused := if enhance then ENHANCED_DATA_KEY else ORIGINAL_DATA_KEY;
      && Get(files, used) == Some(facts)
      && Get(files, unused) == None
      && files[..5] == EndpointStandard(dir) && |files| == 6
      && script == (if enhance then ENHANCE_SCRIPT else REASON_SCRIPT)
      && script[0] == "set endpoint.port \"12112\""
      && (enhance <==> "import probs_original_data.nt.gz" in script)
  {
    var std := EndpointStandard(dir);
    assert ORIGINAL_DATA_KEY != ENHANCED_DATA_KEY by {
      assert ORIGINAL_DATA_KEY.text[11] != ENHANCED_DATA_KEY.text[11];
    }
    assert ORIGINAL_DATA_KEY !in Keys(std) && ENHANCED_DATA_KEY !in Keys(std);
    if !enhance {
      forall i | 0 <= i < |REASON_SCRIPT| ensures REASON_SCRIPT[i] != "import probs_original_data.nt.gz" {
        assert REASON_SCRIPT[i][0] != 'i';
      }
    } else {
      assert ENHANCE_SCRIPT[5] == "import probs_original_data.nt.gz";
    }
  }

  // ---------------------------------------------------------------------
  // Queries

  /** The name of a query: its position in a list, or a key of a mapping. */
  datatype QueryName = Index(n: nat) | Named(name: string)

  /** The `queries` argument: a list, a dict, or any other value. */
  datatype Queries = QueryList(texts: seq<string>) | QueryDict(entries: Dict<QueryName, string>) | OtherQueries

  /** A list becomes a dict from positions; a dict is used as it is. */
  function NormaliseQueries(q: Queries): (r: Result<Dict<QueryName, string>, Error>)
    ensures q.OtherQueries? <==> r == Failure(NotListOrDict)
    ensures q.QueryDict? ==> r == Success(q.entries)
    ensures q.QueryList? ==> (r.Success? && |r.value| == |q.texts|
      && forall i :: 0 <= i < |q.texts| ==> r.value[i] == (Index(i), q.texts[i]))
  {
    match q
    case QueryList(texts) => Success(seq(|texts|, i requires 0 <= i < |texts| => (Index(i), texts[i])))
    case QueryDict(d) => Success(d)
    case OtherQueries => Failure(NotListOrDict)
  }

  /** After normalising a list, query `i` is found under key `i`. */
  lemma NormalisedListLookup(texts: seq<string>, i: nat)
    requires i < |texts|
    ensures Get(NormaliseQueries(QueryList(texts)).value, Index(i)) == Some(texts[i])
  {
    GetAt(NormaliseQueries(QueryList(texts)).value, i);
  }

  /** The answers: one per query, under the query's name, in order, from
      the engine started with the given files and script. */
  function Answer<R>(queries: Dict<QueryName, string>, files: Files, script: seq<string>,
                     engine: (Files, seq<string>, string) -> R)
    : (r: Dict<QueryName, R>)
    ensures Keys(r) == Keys(queries)
    ensures forall i :: 0 <= i < |queries| ==> r[i].1 == engine(files, script, queries[i].1)
  {
    MapValues(queries, (text: string) => engine(files, script, text))
  }

  /** `probs_convert_and_query_data`: queries are checked before the files
      are staged; then each is answered by the engine started with them. */
  function ConvertAndQuery<R>(ds: seq<Datasource>, q: Queries, dir: Path, engine: (Files, seq<string>, string) -> R)
    : Result<Dict<QueryName, R>, Error>
  {
    var queries :- NormaliseQueries(q);
    var files :- PipelineFiles(ds, dir);
    Success(Answer(queries, files, PIPELINE_SCRIPT, engine))
  }

  /** `probs_query_data`: the query argument is checked first; then the
      facts go to an endpoint, whose engine answers every query. */
  function QueryData<R>(facts: Source, q: Queries, dir: Path, enhance: bool, engine: (Files, seq<string>, string) -> R)
    : (r: Result<Dict<QueryName, R>, Error>)
    ensures r.Success? <==> !q.OtherQueries?
    ensures r.Failure? ==> r.error == NotListOrDict
    ensures r.Success? ==>
      var queries := NormaliseQueries(q).value;
      var stage := EndpointStage(facts, dir, enhance);
      && Keys(r.value) == Keys(queries)
      && forall i :: 0 <= i < |queries| ==> r.value[i].1 == engine(stage.0, stage.1, queries[i].1)
  {
    var queries :- NormaliseQueries(q);
    var stage := EndpointStage(facts, dir, enhance);
    Success(Answer(queries, stage.0, stage.1, engine))
  }

  /** Query `i` of a list is answered under key `i` by the endpoint's
      engine, started with the facts staged under the name its script
      imports. */
  lemma QueryDataList<R>(facts: Source, texts: seq<string>, dir: Path, enhance: bool,
                         engine: (Files, seq<string>, string) -> R, i: nat)
    requires i < |texts|
    ensures var r := QueryData(facts, QueryList(texts), dir, enhance, engine);
      var stage := EndpointStage(facts, dir, enhance);
      && r.Success?
      && Get(r.value, Index(i)) == Some(engine(stage.0, stage.1, texts[i]))
      && Get(stage.0, if enhance then ORIGINAL_DATA_KEY else ENHANCED_DATA_KEY) == Some(facts)
  {
    var r := QueryData(facts, QueryList(texts), dir, enhance, engine);
    var queries := NormaliseQueries(QueryList(texts)).value;
    GetAt(r.value, i);
    EndpointStageFacts(facts, dir, enhance);
  }

  /** Query errors come first: a query argument that is neither a list
      nor a dict is reported even when the datasources collide. */
  lemma QueryArgumentCheckedFirst<R>(ds: seq<Datasource>, dir: Path, engine: (Files, seq<string>, string) -> R)
    ensures ConvertAndQuery(ds, OtherQueries, dir, engine) == Failure(NotListOrDict)
  {
  }

  // ---------------------------------------------------------------------
  // ProbsFacts

  /** What `ProbsFacts` is built from: fact text, or datasources. */
  datatype FactsSource = FactText(text: string) | Sources(sources: seq<Datasource>)

  datatype ProbsFacts = ProbsFacts(sources: seq<Datasource>, dir: Path)

  function NewProbsFacts(src: FactsSource, dir: Path, md5: string -> string): (pf: ProbsFacts)
    ensures src.FactText? ==> pf.sources == [FromFacts(src.text, md5)]
    ensures src.Sources? ==> pf.sources == src.sources
  {
    match src
    case FactText(t) => ProbsFacts([FromFacts(t, md5)], dir)
    case Sources(s) => ProbsFacts(s, dir)
  }

  /** The argument of `query`: one query text, or queries as above. */
  datatype QueryArg = Single(text: string) | Several(queries: Queries)

  /** A query's result: the answer itself for a single text, or the
      answers by name. */
  datatype QueryResult<R> = Unwrapped(answer: R) | Keyed(answers: Dict<QueryName, R>)

  function ProbsQuery<R>(pf: ProbsFacts, arg: QueryArg, engine: (Files, seq<string>, string) -> R): (r: Result<QueryResult<R>, Error>)
    ensures r.Success? ==> (arg.Single? <==> r.value.Unwrapped?)
  {
    match arg
    case Single(text) =>
      var answers :- ConvertAndQuery(pf.sources, QueryList([text]), pf.dir, engine);
      (match Get(answers, Index(0))
       case Some(a) => Success(Unwrapped(a))
       case None => Failure(MissingQueryZero))
    case Several(q) =>
      var answers :- ConvertAndQuery(pf.sources, q, pf.dir, engine);
      Success(Keyed(answers))
  }

  /** A single query text gives its answer, unwrapped, whenever the files
      can be staged. */
  lemma ProbsQuerySingle<R>(pf: ProbsFacts, text: string, engine: (Files, seq<string>, string) -> R)
    ensures PipelineFiles(pf.sources, pf.dir).Success? ==>
      ProbsQuery(pf, Single(text), engine) == Success(Unwrapped(engine(PipelineFiles(pf.sources, pf.dir).value, PIPELINE_SCRIPT, text)))
    ensures PipelineFiles(pf.sources, pf.dir).Failure? ==>
      ProbsQuery(pf, Single(text), engine) == Failure(PipelineFiles(pf.sources, pf.dir).error)
  {
    if PipelineFiles(pf.sources, pf.dir).Success? {
      var files := PipelineFiles(pf.sources, pf.dir).value;
      var queries := NormaliseQueries(QueryList([text])).value;
      NormalisedListLookup([text], 0);
      var answers := Answer(queries, files, PIPELINE_SCRIPT, engine);
      GetAt(answers, 0);
    }
  }

  /** What `query_one` returns: the one row of a single query's answer,
      or the answer to query 0 when one query was given in a collection. */
  datatype One<Row> = OneRow(row: Row) | OneAnswer(rows: seq<Row>)

  /** The check `query_one` makes on a query's result. */
  function OneOf<Row>(result: QueryResult<seq<Row>>): (r: Result<One<Row>, Error>)
    ensures r.Success? ==> (result.Unwrapped? <==> r.value.OneRow?)
  {
    match result
    case Unwrapped(rows) =>
      if |rows| != 1 then Failure(NotExactlyOne(|rows|)) else Success(OneRow(rows[0]))
    case Keyed(answers) =>
      if |answers| != 1 then Failure(NotExactlyOne(|answers|))
      else match Get(answers, Index(0))
        case Some(rows) => Success(OneAnswer(rows))
        case None => Failure(MissingQueryZero)
  }

  function QueryOne<Row>(pf: ProbsFacts, arg: QueryArg, engine: (Files, seq<string>, string) -> seq<Row>)
    : (r: Result<One<Row>, Error>)
    ensures r.Success? && arg.Single? ==> r.value.OneRow?
    ensures r.Success? && arg.Several? ==> r.value.OneAnswer?
  {
    var result :- ProbsQuery(pf, arg, engine);
    OneOf(result)
  }

  /** For a single query text, `query_one` succeeds exactly when the
      files can be staged and the answer has one row, which it returns. */
  lemma QueryOneSingle<Row>(pf: ProbsFacts, text: string, engine: (Files, seq<string>, string) -> seq<Row>)
    requires PipelineFiles(pf.sources, pf.dir).Success?
    ensures var rows := engine(PipelineFiles(pf.sources, pf.dir).value, PIPELINE_SCRIPT, text);
      && (QueryOne(pf, Single(text), engine).Success? <==> |rows| == 1)
      && (|rows| == 1 ==> QueryOne(pf, Single(text), engine) == Success(OneRow(rows[0])))
      && (|rows| != 1 ==> QueryOne(pf, Single(text), engine) == Failure(NotExactlyOne(|rows|)))
  {
    ProbsQuerySingle(pf, text, engine);
  }

  /** For a list of queries, `query_one` succeeds exactly when there is one
      query (and the files can be staged), and returns its answer. */
  lemma QueryOneList<Row>(pf: ProbsFacts, texts: seq<string>, engine: (Files, seq<string>, string) -> seq<Row>)
    requires PipelineFiles(pf.sources, pf.dir).Success?
    ensures QueryOne(pf, Several(QueryList(texts)), engine).Success? <==> |texts| == 1
    ensures |texts| == 1 ==> (QueryOne(pf, Several(QueryList(texts)), engine)
      == Success(OneAnswer(engine(PipelineFiles(pf.sources, pf.dir).value, PIPELINE_SCRIPT, texts[0]))))
  {
    var files := PipelineFiles(pf.sources, pf.dir).value;
    var queries := NormaliseQueries(QueryList(texts)).value;
    var answers := Answer(queries, files, PIPELINE_SCRIPT, engine);
    assert ConvertAndQuery(pf.sources, QueryList(texts), pf.dir, engine) == Success(answers);
    assert ProbsQuery(pf, Several(QueryList(texts)), engine) == Success(Keyed(answers));
    assert QueryOne(pf, Several(QueryList(texts)), engine) == OneOf(Keyed(answers));
    if |texts| == 1 {
      GetAt(answers, 0);
      assert answers[0].0 == Index(0);
    }
  }

  /** For a dict of queries, `query_one` succeeds exactly when the dict
      has one entry and that entry is keyed 0, and returns its answer; one
      entry under another key is the `KeyError` of `result[0]`. */
  lemma QueryOneDict<Row>(pf: ProbsFacts, e: Dict<QueryName, string>, engine: (Files, seq<string>, string) -> seq<Row>)
    requires PipelineFiles(pf.sources, pf.dir).Success?
    ensures var r := QueryOne(pf, Several(QueryDict(e)), engine);
      && (r.Success? <==> |e| == 1 && e[0].0 == Index(0))
      && (|e| == 1 && e[0].0 == Index(0) ==>
            r == Success(OneAnswer(engine(PipelineFiles(pf.sources, pf.dir).value, PIPELINE_SCRIPT, e[0].1))))
      && (|e| == 1 && e[0].0 != Index(0) ==> r == Failure(MissingQueryZero))
      && (|e| != 1 ==> r == Failure(NotExactlyOne(|e|)))
  {
    var files := PipelineFiles(pf.sources, pf.dir).value;
    var answers := Answer(e, files, PIPELINE_SCRIPT, engine);
    assert ConvertAndQuery(pf.sources, QueryDict(e), pf.dir, engine) == Success(answers);
    assert QueryOne(pf, Several(QueryDict(e)), engine) == OneOf(Keyed(answers));
    OneOfKeyed(answers);
  }

  /** The check on answers by name: exactly one, and it must be query 0. */
  lemma OneOfKeyed<Row>(answers: Dict<QueryName, seq<Row>>)
    ensures |answers| != 1 ==> OneOf(Keyed(answers)) == Failure(NotExactlyOne(|answers|))
    ensures |answers| == 1 && answers[0].0 == Index(0) ==> OneOf(Keyed(answers)) == Success(OneAnswer(answers[0].1))
    ensures |answers| == 1 && answers[0].0 != Index(0) ==> OneOf(Keyed(answers)) == Failure(MissingQueryZero)
  {
    if |answers| == 1 {
      GetAt(answers, 0);
      if answers[0].0 != Index(0) {
        assert Keys(answers) == [answers[0].0];
      }
    }
  }
}
