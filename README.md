# probs-runner input staging, in Dafny

This project models the input-staging layer of probs-runner, the Python
package that runs the PRObs ontology scripts in RDFox. The layer turns input
files into *datasources*. A datasource is a map of files to stage, a load
script that tells RDFox how to import them, and a set of mapping rules. The
layer then merges several datasources with the standard ontology files into
the one `input_files` map that an engine run starts from.

The model covers four source files.

- `src/probs_runner/datasource.py` (module `Datasources`):
  - `Datasource.from_facts`;
  - `Datasource.from_files`, in both its list form and its mapping form;
  - the datasource name computed from the inputs;
  - nesting of every file under `data/<name>/`;
  - the automatically generated load script and the `dir.datasource` line;
  - `_paths_or_strs_to_str`;
  - `load_datasource`.
- `src/probs_runner/runners.py` (module `Runners`):
  - the standard file lists of each stage, and the fixed scripts the engine is started with;
  - the generated `load_data.rdfox` and `map.dlog`;
  - the insert-only merge of the datasources' entries, with its collision error;
  - the placeholder file;
  - the file choice of `probs_endpoint`;
  - query normalisation;
  - `ProbsFacts.query` and `ProbsFacts.query_one`.
- `src/probs_runner/endpoint.py` (module `Endpoint`): `get_observations`.
  This covers its bindings, the optional pattern clause, the filled template,
  and the `Observation` record built from each row.
- `src/probs_runner/cli.py` (module `Cli`):
  - `_default_query`;
  - the choice of query source in `query`;
  - the grouping of inspection rows into values and labels;
  - subject abbreviation;
  - the two `_label` helpers.

Supporting modules:

- `Wrappers`: `Option`, and `Result` for the exceptions.
- `Text`: Python's `join`, `split`, `rpartition`, `rstrip`, `str(int)` and `lower`, written over `seq<char>`.
- `Dicts`: insertion-ordered dictionaries. A dictionary is a sequence of pairs with distinct keys. `d[k] = v` replaces the value where the key stands, or appends a new key.
- `Paths`: `PurePosixPath` parsing, `/`, `name` and `suffix`. This module also holds the keys of a staged map and a file system, which is a map from paths to files and directories.
- `Errors`: one constructor per exception raised.

Where the source builds a value in a loop, the model is a method with that loop. Each such method is proved equal to a specification function, and the properties are proved about that function:

- the list-to-dictionary loop of `from_files`;
- `_paths_or_strs_to_str`;
- `_compute_datasource_name`;
- the nested merge loop in `runners.py`;
- the step-by-step bindings of `get_observations`;
- the grouping loop in `cli.py`.

The code that computes values by comprehension or by branching is written as functions.

The environment is passed in as parameters:

- md5, as a function from the text whose UTF-8 encoding is hashed to its hex digest, about which nothing is assumed;
- `id()`, as the identity of the value at each position;
- the file system;
- the engine, as the answer it gives to a query text when started with a given file map and script;
- `query_records`, as the rows the endpoint returns for a query and its bindings.

## Model

| member | source | states |
|---|---|---|
| Datasources.FromFacts | src/probs_runner/datasource.py:21-29 | one staged file `data/<h>.ttl` holding the facts as a stream, the script `import <h>.ttl` plus a newline, and empty rules, where `h` is the digest of the facts |
| Datasources.FromFactsSameNameIff | src/probs_runner/datasource.py:24-28 | two fact texts get the same staged name, and the same import statement, exactly when their digests agree |
| Datasources.CollectNamedSources | src/probs_runner/datasource.py:63-76 | the list loop returns what the list-form specification `NamedSources` gives, stopping with the same error at the same item |
| Datasources.NamedSourcesSuccess | src/probs_runner/datasource.py:63-76 | the list form succeeds if and only if every item is a string or a path and no two items have the same base name |
| Datasources.NamedSourcesEntries | src/probs_runner/datasource.py:72-76 | on success the dictionary has one entry per item, in list order, keyed by the item's base name and holding `Path(item)` |
| Datasources.NamedSourcesFailure | src/probs_runner/datasource.py:66-75 | on failure, the error comes from the first item whose prefix stops being nameable: `NotPathOrStr` for a non-path, `DuplicatePathName` for a repeated base name |
| Datasources.ComputeDatasourceName | src/probs_runner/datasource.py:131-143 | the loop hashes the concatenation, in order, of each value's identity under the corrected reading of lines 135-142 (see Findings), not the code as written: the text of a string alone, `str` of a path, the `name` of a file object, else `str(id(value))` |
| Datasources.NameInputRunsTogether | src/probs_runner/datasource.py:135-143 | the identities are joined with no separator, so two texts that run together into the same text, such as `ab`, `c` and `a`, `bc`, give the same hashed input |
| Datasources.NameInputStable | src/probs_runner/datasource.py:131-143 | with no nameless stream among the values, the hashed input does not depend on object identities |
| Datasources.NameInputAsWrittenUnstable | src/probs_runner/datasource.py:135-142 | as written, one `str` value whose `id()` differs between two runs gives two different hashed inputs |
| Datasources.ReadText | src/probs_runner/datasource.py:125 | reading succeeds exactly for a path that names a file, and gives its content |
| Datasources.PathsOrStrsToStr | src/probs_runner/datasource.py:118-128 | the loop returns the specification `PiecesText`: the texts of the pieces joined by newlines, or the first read error |
| Datasources.ResolvedPiecesSuccess | src/probs_runner/datasource.py:123-127 | reading all pieces succeeds if and only if every file piece names a file; the texts are then, in order, each literal as given and each file's content |
| Datasources.PiecesTextLiteral | src/probs_runner/datasource.py:118-128 | a single string is used verbatim |
| Datasources.PiecesTextMany | src/probs_runner/datasource.py:118-128 | a list succeeds if and only if its files are readable, and is then its pieces' texts joined by newlines |
| Datasources.PiecesTextLiteralFile | src/probs_runner/datasource.py:124-125 | a single path is replaced by the text of the file |
| Datasources.RulesText | src/probs_runner/datasource.py:110-113 | no rules is the empty text |
| Datasources.StagedKeys | src/probs_runner/datasource.py:81-84 | the staged paths are exactly `data / name / filename` for the entries' filenames |
| Datasources.StagedKeepsEntries | src/probs_runner/datasource.py:81-84 | when the nested paths are distinct, the staged map keeps every entry, in order, with its source, so it has as many entries as the input map |
| Datasources.StagedPathInjective | src/probs_runner/datasource.py:82 | distinct plain file names are nested under distinct paths |
| Datasources.StagedPathUnder | src/probs_runner/datasource.py:82 | a relative file name under a plain datasource name is staged at a relative path whose first two parts are `data`, `<name>`; a plain file name is its last part |
| Datasources.StagedUnderDir | src/probs_runner/datasource.py:81-84 | every staged path of a map of relative names starts with `data/<name>` |
| Datasources.ListedStaging | src/probs_runner/datasource.py:63-84 | in the list form, the staged map has one entry per item, in list order: `data/<name>/<base name>` mapped to the item's path |
| Datasources.AutoScriptLines | src/probs_runner/datasource.py:93-99 | line by line, the generated script is the header, then one `import "../$(dir.datasource)/<filename>"` per input in map order, or just an empty line when there is no input |
| Datasources.LoadBody | src/probs_runner/datasource.py:86-104 | without a script, the generated one is used when every effective suffix is `.ttl` or `.nt`, else the error carries the set difference; with one, its text is used |
| Datasources.TriplesSuffixes | src/probs_runner/datasource.py:88-92 | when every file name is Turtle or N-Triples, possibly with one `.gz`, the suffix set of the staged paths lies within `{.ttl, .nt}` |
| Datasources.TriplesLoadAutomatically | src/probs_runner/datasource.py:86-113 | with no script and no rules, Turtle and N-Triples files under plain key names (no `/`) give the staged map, the `dir.datasource` line followed by the generated script, and empty rules |
| Datasources.CsvNeedsLoadScript | src/probs_runner/datasource.py:86-102 | with no script, a `.csv` file under a plain key name (no `/`) makes `from_files` fail with `.csv` among the unsupported suffixes |
| Datasources.FromFilesBodyFailure | src/probs_runner/datasource.py:100-104 | a script that cannot be produced is the error of `from_files` |
| Datasources.FromFiles | src/probs_runner/datasource.py:31-115 | `from_files` returns the specification `FromFilesSpec`: the named entries, the name from their values, the staged map, the body, the rules, and every error path in between |
| Datasources.FromFilesParts | src/probs_runner/datasource.py:78-115 | a successful datasource has the staged map as its files, the `dir.datasource` line, a newline and the body as its script, and the rules text as its rules |
| Datasources.FromFilesLayout | src/probs_runner/datasource.py:81-108 | the load script starts with `set dir.datasource "$(dir.root)/data/<name>/"` and a newline, and every staged path's parts start with `data`, `<name>` |
| Datasources.FromFilesListed | src/probs_runner/datasource.py:63-115 | a successful list-form datasource stages each listed file under its base name, in list order |
| Datasources.Glob | src/probs_runner/datasource.py:161 | the glob returns exactly the plain children whose names end in the extension, each as `dir / child`: every returned path is such a child, and every such child is returned |
| Datasources.GlobAppend | src/probs_runner/datasource.py:161 | the glob keeps listing order: the matches of an earlier part of the listing come before those of a later part |
| Datasources.LoadArguments | src/probs_runner/datasource.py:146-173 | a missing path, and only it, is `FileNotFoundError`; a directory gives its CSV glob then its Turtle glob as data files, `load_data.rdfox` as the script exactly when that file exists, and `map.dlog` as the rules exactly when it exists; a `.dlog` file (any case) gives itself as the rules and no data files or script; any other file gives itself as the one data file and no script or rules |
| Datasources.DirectoryDataFiles | src/probs_runner/datasource.py:161 | a directory's data files are exactly its plain children ending in `.csv` or `.ttl`, and no CSV file comes after a Turtle file |
| Datasources.DirectoryDataFilesExist | src/probs_runner/datasource.py:161 | when every name a directory lists is in the file system, every data file picked for it is an existing path |
| Datasources.LoadDatasource | src/probs_runner/datasource.py:146-174 | `load_datasource` fails for a missing path, and otherwise is `from_files` applied to the chosen arguments |
| Datasources.LoadRulesFile | src/probs_runner/datasource.py:163-173 | a rules file alone gives no files, the generated header as the script body and the file's text as the rules |
| Datasources.LoadSingleFile | src/probs_runner/datasource.py:167-173 | any other file alone is staged, as its own path, under `data/<name>/<its name>` |
| Runners.GeneratedStaged | src/probs_runner/runners.py:68-73 | `load_data.rdfox` is the newline join of the datasources' load scripts, and `map.dlog` of their rules, in caller order |
| Runners.LoadScriptsSeparate | src/probs_runner/runners.py:68-73 | the lines of the generated `load_data.rdfox`, and of `map.dlog`, are each datasource's own lines, datasource after datasource in caller order, whatever newlines their scripts hold; with no datasource the script is one empty line |
| Runners.MergeInto | src/probs_runner/runners.py:74-78 | the nested loop returns the specification `InsertAll` of all entries, datasource by datasource |
| Runners.InsertAllSuccess | src/probs_runner/runners.py:74-78 | the merge succeeds if and only if every key is new and distinct; it then only appends, leaving every earlier entry unchanged |
| Runners.InsertAllFailure | src/probs_runner/runners.py:74-77 | a failed merge raises on the first entry whose key was already present, among the base entries or the entries before it |
| Runners.InsertAllCollision | src/probs_runner/runners.py:74-77 | the key named by a failed merge was present beforehand or is shared by two entries |
| Runners.StageConvert | src/probs_runner/runners.py:59-78 | the conversion stage's map is the standard entries, then the generated script and rules, then the merged entries |
| Runners.ConvertFilesContent | src/probs_runner/runners.py:60-78 | the conversion stage succeeds if and only if every datasource key is new; its map is then the base map followed by all entries, and holds the generated script and rules |
| Runners.ConvertFilesCollision | src/probs_runner/runners.py:74-78 | a failed conversion stage names a standard or generated key, or a key that two datasource entries share |
| Runners.StagePipeline | src/probs_runner/runners.py:210-234 | the combined stage's map is as for conversion with six standard entries, and the placeholder assigned last |
| Runners.PlaceholderReplaces | src/probs_runner/runners.py:227-234 | a datasource entry under `data/.placeholder` gets the empty stream as its value, and the map gains no entry for it |
| Runners.SetAfterMerge | src/probs_runner/runners.py:234 | assigning a key already merged keeps the number of entries and gives the new value |
| Runners.EndpointStageFacts | src/probs_runner/runners.py:148-181 | with enhancement, the facts are staged as original data and the script is the eight-line enhancement script, which imports them; without it, they are staged as enhanced data and the script is the two-line reasoning script; the other data name is not staged and the standard files stay first |
| Runners.NormaliseQueries | src/probs_runner/runners.py:200-203 | a list becomes the entries `(i, query i)` in order, a dict passes unchanged, and anything else is the error |
| Runners.NormalisedListLookup | src/probs_runner/runners.py:106-107 | after normalisation, query `i` is found under key `i` |
| Runners.Answer | src/probs_runner/runners.py:250-253 | one answer per query, under the query's name, in order, each being what the engine started with the stage's files and script gives for that query's text |
| Runners.QueryData | src/probs_runner/runners.py:106-115 | a query argument that is neither a list nor a dict fails with the `ValueError`, and only then; otherwise every normalised query gets, under its name and in order, the answer of the engine started with the endpoint's files and script |
| Runners.QueryDataList | src/probs_runner/runners.py:106-115 | for a list, query `i` is answered under key `i` by that engine, whose files hold the facts under the name its script imports |
| Runners.QueryArgumentCheckedFirst | src/probs_runner/runners.py:200-203 | a query argument that is neither a list nor a dict is reported before any staging |
| Runners.NewProbsFacts | src/probs_runner/runners.py:269-272 | fact text becomes the single datasource from `from_facts`; datasources are kept as given |
| Runners.ProbsQuery | src/probs_runner/runners.py:277-292 | on success, the result is unwrapped exactly when the query was a single string |
| Runners.ProbsQuerySingle | src/probs_runner/runners.py:277-292 | a single query string gives the engine's answer to it, unwrapped, or the staging error |
| Runners.OneOf | src/probs_runner/runners.py:294-298 | the result of `query_one` is one row exactly for an unwrapped result |
| Runners.QueryOne | src/probs_runner/runners.py:294-298 | on success, `query_one` gives a row for a single string and a whole answer for a list or dict of queries |
| Runners.QueryOneSingle | src/probs_runner/runners.py:294-298 | for a single string, `query_one` succeeds if and only if the answer has one row, returns that row, and otherwise reports the row count |
| Runners.QueryOneList | src/probs_runner/runners.py:294-298 | for a list of queries, `query_one` succeeds if and only if there is exactly one query, and returns its answer |
| Runners.QueryOneDict | src/probs_runner/runners.py:294-298 | for a dict of queries, `query_one` succeeds if and only if the dict has one entry keyed 0, and returns its answer; one entry under another key is the `KeyError` of `result[0]`; any other count is the row-count error |
| Runners.OneOfKeyed | src/probs_runner/runners.py:296-298 | answers by name pass the check exactly when there is one and it is named 0; otherwise the count error, or the missing key 0 |
| Endpoint.NewObservation | src/probs_runner/endpoint.py:14-26 | an Observation with no object, process or measurement, and bound `ExactBound` |
| Endpoint.BaseBindings | src/probs_runner/endpoint.py:68-73 | the bindings start with `time`, `region`, `metric` and `role`, in that order |
| Endpoint.BuildQuery | src/probs_runner/endpoint.py:68-81 | the step-by-step construction gives the template filled with the clause, and the bindings `Bindings(d)` |
| Endpoint.BindingsContent | src/probs_runner/endpoint.py:68-80 | the four mandatory keys hold their arguments; `object` is bound exactly when an object is given, and `process` likewise; the count follows |
| Endpoint.ClauseShape | src/probs_runner/endpoint.py:74-81 | the clause is empty if and only if neither option is given; with both, the object line comes first |
| Endpoint.QueryRevealsOptions | src/probs_runner/endpoint.py:74-81 | equal query texts imply the same choice of optional dimensions |
| Endpoint.ConvertMeasurement | src/probs_runner/endpoint.py:82-83 | a missing value becomes the NaN sentinel, and a present value keeps its lexical form |
| Endpoint.ToObservations | src/probs_runner/endpoint.py:84-97 | one Observation per row, in order, with the caller's six dimensions, the row's URI and bound, and the converted measurement |
| Endpoint.GetObservations | src/probs_runner/endpoint.py:49-97 | `get_observations` returns the observations of the rows the endpoint answers for the filled template and the bindings |
| Cli.DefaultQueryForLines | src/probs_runner/cli.py:146-153 | line by line, the query is one `PREFIX p: <v>` line per namespace, in order, then the lines of `DEFAULT_QUERY` |
| Cli.DefaultQueryLines | src/probs_runner/cli.py:146-153 | the same for `_default_query()` with the engine's four namespaces |
| Cli.QuerySource | src/probs_runner/cli.py:240-247 | both options is a usage error; otherwise the text is the option, else the file, else standard input |
| Cli.GroupRows | src/probs_runner/cli.py:510-516 | the loop returns the specification functions `ValuesOf` and `LabelsOf` of the rows |
| Cli.AddValueEffect | src/probs_runner/cli.py:513-514 | grouping one row adds its object to its own predicate's set, creating the set if needed, and changes no other predicate |
| Cli.ValuesOfContent | src/probs_runner/cli.py:510-514 | a predicate is a key exactly when some row has it, and its set is exactly the objects of those rows |
| Cli.LabelsOfDefined | src/probs_runner/cli.py:515-516 | an object has a label exactly when some row gives it a label that is not `None` |
| Cli.LabelsOfLast | src/probs_runner/cli.py:515-516 | an object's label is the one on the last row that labels it |
| Cli.Abbreviate | src/probs_runner/cli.py:505-508 | a subject in the PRObs namespace is `probs:` plus the rest; any other is put in angle brackets |
| Cli.AbbreviateInjective | src/probs_runner/cli.py:505-508 | different subjects are shown differently |
| Cli.Code | src/probs_runner/cli.py:447-448 | the code holds no `/` and does not end in `>` |
| Cli.CodeIdempotent | src/probs_runner/cli.py:447-448 | taking the code of a code changes nothing |
| Cli.GraphvizLabel | src/probs_runner/cli.py:443-448 | the Graphviz label is the label if the term has one, else its code |
| Cli.HtmlLabel | src/probs_runner/cli.py:529-534 | the HTML label is the code followed by a space and the quoted label when the term has one, and the bare code when it has none |
| Cli.HtmlLabelPlain | src/probs_runner/cli.py:529-534 | the HTML label is the bare code if and only if the term has no label, and then equals the Graphviz label |
| Cli.InspectObservationData | src/probs_runner/cli.py:497-518 | no rows is an error raised before any grouping; otherwise the result is the abbreviated subject and the grouped values and labels |

## Left out

- Running RDFox is left out: the subprocess, the working directory, the wait for the endpoint, and copying the output file. The engine and `query_records` are parameters instead.
- md5 is a parameter. Nothing is assumed about it, so no property relies on collision freedom. `anchor` in `cli.py` is not modelled.
- Endpoint.ConvertMeasurement: floating point is not modelled. A measurement is kept by its lexical form, and `float("nan")` is a constructor. So a present `"NaN"` literal, which `float` also turns into NaN, stays a `Value`, and a non-numeric literal, on which `float` raises `ValueError`, is accepted.
- The file system is a value. `exists`, `is_dir` and `read_text` look that value up. `glob` takes the directory's listing order, since the model has no order of its own for it. Reading errors other than a missing file or a directory are not modelled. Nothing ties a directory's listing to the map's keys in general; `Paths.Consistent` states that tie where a property needs it.
- `Paths` covers only the `PurePosixPath` behaviour the layer relies on. It does not treat a leading `//` specially, and it has no Windows paths.
- `Text.LowerAscii` lowers ASCII letters only. Python's `str.lower` also lowers other letters.
- Datasources.StagedKeepsEntries: it needs the nested paths to be distinct. The mapping form accepts names such as `a` and `./a`, which nest to the same path; the later entry then replaces the earlier one and the count drops. This collapse is modelled through `SetAll`, but no count is proved for it.
- The mapping form is keyed by `str`. A caller's `Path` keys, which the code accepts, are not modelled.
- `print_facts`, the pandas logging of results, and all printing, click wiring and HTML or Graphviz output in `cli.py` are left out. The grouping and label helpers that output uses are modelled.
- `probs_convert_data` runs `exec scripts/data-conversion/master` and copies the output file. Both belong to the RDFox run, so the model stops at the staged map.
- `probs_query_data` logs its results; only its answer is modelled (`Runners.QueryData`).
- Datasources.StagedPathUnder: a mapping key with a `..` part, such as `../x.ttl`, is staged at `data/<name>/../x.ttl`, which names a file outside the datasource's folder. The model keeps the path as `pathlib` builds it and proves only that its parts start with `data`, `<name>`; it does not resolve `..`.
- Datasources.ComputeDatasourceName: the name used throughout the model follows the corrected identity of a string (its text alone). The code as written, which also appends `str(id(value))`, is kept only as `Datasources.NameInputAsWritten` for the finding below.
- Datasources.NameInputRunsTogether: the code joins identities without a separator, so different inputs can share a name even before md5 is applied. This is the code's own behaviour; the model keeps it and makes no injectivity claim.
- The `probs_endpoint` standard files at `runners.py:149-155` are written as a list literal with `key: value` entries, which is a syntax error. The model treats them as the dict that lines 159 and 176 index.
- `cli.py:189-191` and `cli.py:251-253` pass `port=` to `probs_endpoint`, which has no such parameter. `tests/test_probs_endpoint.py:33` does the same. The model has no port parameter.
- `cli.py:76` calls the four-parameter `probs_convert_data` with five arguments. The call is not modelled.
- `src/probs_runner/__init__.py:1-11` and `cli.py:15` import names that `runners.py` does not define. The model covers only what `runners.py` defines.

## Findings

| source | as written | input that shows it | evidently intended | confidence | as-written member | corrected member |
|---|---|---|---|---|---|---|
| src/probs_runner/datasource.py:135-142 | a `str` value matches the first `if`, and then, being neither a `Path` nor an object with `name`, also takes the fallback, so `str(id(value))` is appended after its text | `Datasource.from_files({"a.ttl": "x.ttl"})` in two runs where the string object has different `id()`s gives two different datasource names | a string contributes only its text, so the name is stable across runs, as the comment at line 78 says | high (by reading; not executed) | Datasources.NameInputAsWrittenUnstable | Datasources.NameInputStable |
