/** The data-handling helpers of the command-line tool
    (src/probs_runner/cli.py): the default query, choosing where a query
    comes from, grouping the rows found for a subject, and the short forms
    used to show subjects and values. Printing and the click wiring are not
    modelled. */
module Cli {
  import opened Wrappers
  import opened Text
  import opened Dicts
  import opened Errors
  import Runners
  import Endpoint

  // ---------------------------------------------------------------------
  // _default_query

  const DEFAULT_QUERY: string :=
    "\nSELECT ?Observation ?p ?o\nWHERE {\n    ?Observation a :Observation; ?p ?o .\n}\nORDER BY ?Observation ?p ?o\n"

  function PrefixLine(prefix: string, uri: string): string {
    "PREFIX " + prefix + ": <" + uri + ">"
  }

  function PrefixLines(ns: seq<(string, string)>): (r: seq<string>)
    ensures |r| == |ns| && forall i :: 0 <= i < |ns| ==> r[i] == PrefixLine(ns[i].0, ns[i].1)
  {
    seq(|ns|, i requires 0 <= i < |ns| => PrefixLine(ns[i].0, ns[i].1))
  }

  /** The prefix block for the given namespaces, then the query. */
  function DefaultQueryFor(ns: seq<(string, string)>): string {
    Join(PrefixLines(ns), "\n") + "\n" + DEFAULT_QUERY
  }

  /** `_default_query()`, with the engine's namespaces. */
  function DefaultQuery(): string {
    DefaultQueryFor(Runners.NAMESPACES)
  }

  /** Read line by line, the query starts with one prefix line per
      namespace, in order, and continues with the query's own lines. */
  lemma DefaultQueryForLines(ns: seq<(string, string)>)
    requires |ns| >= 1
    requires forall i :: 0 <= i < |ns| ==> '\n' !in ns[i].0 && '\n' !in ns[i].1
    ensures Split(DefaultQueryFor(ns), '\n') == PrefixLines(ns) + Split(DEFAULT_QUERY, '\n')
  {
    var lines := PrefixLines(ns);
    forall i | 0 <= i < |lines| ensures '\n' !in lines[i] {
      var pre, mid, post := "PREFIX ", ": <", ">";
      assert '\n' !in pre && '\n' !in mid && '\n' !in post;
      assert lines[i] == pre + ns[i].0 + mid + ns[i].1 + post;
    }
    SplitJoinThen(lines, DEFAULT_QUERY, '\n');
  }

  /** `_default_query()` itself: the four prefix lines of the engine's
      namespaces, in order, then the lines of the query. */
  lemma DefaultQueryLines()
    ensures Split(DefaultQuery(), '\n') == PrefixLines(Runners.NAMESPACES) + Split(DEFAULT_QUERY, '\n')
    ensures |PrefixLines(Runners.NAMESPACES)| == 4
  {
    NamespacesOneLine();
    DefaultQueryForLines(Runners.NAMESPACES);
  }

  /** No prefix or namespace of the engine holds a newline. */
  lemma NamespacesOneLine()
    ensures forall i :: 0 <= i < |Runners.NAMESPACES| ==>
      '\n' !in Runners.NAMESPACES[i].0 && '\n' !in Runners.NAMESPACES[i].1
  {
    var ns := Runners.NAMESPACES;
    assert '\n' !in ns[0].1 by { assert OneLine(ns[0].1); }
    assert '\n' !in ns[1].1 by { assert OneLine(ns[1].1); }
    assert '\n' !in ns[2].1 by { assert OneLine(ns[2].1); }
    assert '\n' !in ns[3].1 by { assert OneLine(ns[3].1); }
  }

  predicate OneLine(s: string) {
    forall i :: 0 <= i < |s| ==> s[i] != '\n'
  }

  // ---------------------------------------------------------------------
  // query: where the query text comes from

  /** `--query`, the contents of `--query-file`, or standard input. */
  function QuerySource(option: Option<string>, file: Option<string>, stdin: string): (r: Result<string, Error>)
    ensures r.Failure? <==> option.Some? && file.Some?
    ensures r.Failure? ==> r.error.Usage?
    ensures r.Success? && option.Some? ==> r.value == option.value
    ensures r.Success? && option.None? && file.Some? ==> r.value == file.value
    ensures r.Success? && option.None? && file.None? ==> r.value == stdin
  {
    if option.Some? && file.Some? then Failure(Usage("Cannot pass both --query and --query-file"))
    else if option.Some? then Success(option.value)
    else if file.Some? then Success(file.value)
    else Success(stdin)
  }

  // ---------------------------------------------------------------------
  // Grouping the rows found for a subject

  /** A term as the engine prints it. */
  type Term = string

  /** A row of the inspection query: predicate, object and the object's
      label if it has one. */
  datatype InspectRow = InspectRow(p: Term, o: Term, labelText: Option<string>)

  /** The objects found with `p`, so far. */
  function AddValue(values: Dict<Term, set<Term>>, p: Term, o: Term): Dict<Term, set<Term>> {
    match Get(values, p)
    case None => Set(values, p, {o})
    case Some(s) => Set(values, p, s + {o})
  }

  /** The objects of the rows, grouped by predicate, in order of first
      appearance. */
  function ValuesOf(rows: seq<InspectRow>): Dict<Term, set<Term>>
    decreases |rows|
  {
    if rows == [] then []
    else AddValue(ValuesOf(rows[..|rows| - 1]), rows[|rows| - 1].p, rows[|rows| - 1].o)
  }

  /** The labels of the objects; a later label replaces an earlier one. */
  function LabelsOf(rows: seq<InspectRow>): Dict<Term, string>
    decreases |rows|
  {
    if rows == [] then []
    else
      var front := LabelsOf(rows[..|rows| - 1]);
      var row := rows[|rows| - 1];
      if row.labelText.Some? then Set(front, row.o, row.labelText.value) else front
  }

  /** The loop shared by `_inspect`, `_inspect_observation_graphviz` and
      `_inspect_observation_data`. */
  method GroupRows(rows: seq<InspectRow>) returns (values: Dict<Term, set<Term>>, labels: Dict<Term, string>)
    ensures values == ValuesOf(rows) && labels == LabelsOf(rows)
  {
    values := [];
    labels := [];
    var i := 0;
    while i < |rows|
      invariant 0 <= i <= |rows|
      invariant values == ValuesOf(rows[..i]) && labels == LabelsOf(rows[..i])
    {
      var x := rows[i];
      GroupStep(rows, i);
      if Get(values, x.p).None? {
        SetDefaultNew(values, x.p, x.o);
        values := Set(values, x.p, {});
      }
      var old_ := Get(values, x.p).value;
      values := Set(values, x.p, old_ + {x.o});
      if x.labelText.Some? {
        labels := Set(labels, x.o, x.labelText.value);
      }
      i := i + 1;
    }
    assert rows[..i] == rows;
  }

  lemma GroupStep(rows: seq<InspectRow>, i: nat)
    requires i < |rows|
    ensures ValuesOf(rows[..i + 1]) == AddValue(ValuesOf(rows[..i]), rows[i].p, rows[i].o)
    ensures LabelsOf(rows[..i + 1])
         == if rows[i].labelText.Some? then Set(LabelsOf(rows[..i]), rows[i].o, rows[i].labelText.value)
            else LabelsOf(rows[..i])
  {
    assert rows[..i + 1][..i] == rows[..i];
  }

  /** `values.setdefault(p, set())` followed by `values[p] |= {o}`, for a
      predicate not seen before. */
  lemma SetDefaultNew(values: Dict<Term, set<Term>>, p: Term, o: Term)
    requires Get(values, p).None?
    ensures var v1 := Set(values, p, {});
      Get(v1, p) == Some({}) && Set(v1, p, {} + {o}) == AddValue(values, p, o)
  {
    SetSet(values, p, {}, {} + {o});
    assert {} + {o} == {o};
  }

  /** The objects that appear with predicate `p`. */
  function ObjectsWith(rows: seq<InspectRow>, p: Term): set<Term> {
    set i | 0 <= i < |rows| && rows[i].p == p :: rows[i].o
  }

  /** One more row adds its object to its own predicate's objects. */
  lemma ObjectsWithSnoc(front: seq<InspectRow>, row: InspectRow, p: Term)
    ensures ObjectsWith(front + [row], p) == ObjectsWith(front, p) + (if row.p == p then {row.o} else {})
  {
    var rows := front + [row];
    var n := |front|;
    forall x | x in ObjectsWith(rows, p)
      ensures x in ObjectsWith(front, p) + (if row.p == p then {row.o} else {})
    {
      var i :| 0 <= i < |rows| && rows[i].p == p && rows[i].o == x;
      if i < n {
        assert front[i] == rows[i];
      }
    }
    forall x | x in ObjectsWith(front, p)
      ensures x in ObjectsWith(rows, p)
    {
      var i :| 0 <= i < n && front[i].p == p && front[i].o == x;
      assert rows[i] == front[i];
    }
    if row.p == p {
      assert rows[n] == row;
    }
  }

  /** What grouping one more row changes: only the row's predicate. */
  lemma AddValueEffect(values: Dict<Term, set<Term>>, p: Term, o: Term, q: Term)
    ensures q in Keys(AddValue(values, p, o)) <==> q in Keys(values) || q == p
    ensures q == p ==> Get(AddValue(values, p, o), q) == Some(Get(values, p).GetOr({}) + {o})
    ensures q != p ==> Get(AddValue(values, p, o), q) == Get(values, q)
  {
    match Get(values, p)
    case None =>
      SetKeys(values, p, {o});
      assert {} + {o} == {o};
    case Some(s) =>
      SetKeys(values, p, s + {o});
  }

  /** A predicate is grouped exactly when some object appears with it,
      and it holds exactly the objects that appear with it. */
  lemma {:induction false} ValuesOfContent(rows: seq<InspectRow>, p: Term)
    ensures p in Keys(ValuesOf(rows)) <==> ObjectsWith(rows, p) != {}
    ensures p in Keys(ValuesOf(rows)) ==> Get(ValuesOf(rows), p) == Some(ObjectsWith(rows, p))
    decreases |rows|
  {
    if rows != [] {
      var n := |rows| - 1;
      var front := rows[..n];
      ValuesOfContent(front, p);
      var row := rows[n];
      assert rows == front + [row];
      assert forall i :: 0 <= i < n ==> front[i] == rows[i];
      var v := ValuesOf(front);
      assert ValuesOf(rows) == AddValue(v, row.p, row.o);
      AddValueEffect(v, row.p, row.o, p);
      ObjectsWithSnoc(front, row, p);
      var objs := ObjectsWith(rows, p);
      assert p in Keys(ValuesOf(rows)) <==> p in Keys(v) || p == row.p;
      if p != row.p {
        assert objs == ObjectsWith(front, p);
        assert Get(ValuesOf(rows), p) == Get(v, p);
      } else if p in Keys(v) {
        assert objs == ObjectsWith(front, p) + {row.o};
        assert Get(ValuesOf(rows), p) == Some(ObjectsWith(front, p) + {row.o});
      } else {
        assert ObjectsWith(front, p) == {};
        assert objs == {} + {row.o} == {row.o};
        assert Get(ValuesOf(rows), p) == Some({} + {row.o});
      }
    }
  }

  /** One more row changes an object's label only if the row labels it. */
  lemma LabelsOfStep(rows: seq<InspectRow>, o: Term)
    requires rows != []
    ensures var row := rows[|rows| - 1];
      Get(LabelsOf(rows), o)
      == if row.o == o && row.labelText.Some? then row.labelText else Get(LabelsOf(rows[..|rows| - 1]), o)
  {
  }

  /** An object has a label exactly when some row labels it. */
  lemma {:induction false} LabelsOfDefined(rows: seq<InspectRow>, o: Term)
    ensures Get(LabelsOf(rows), o).Some? <==> exists i :: 0 <= i < |rows| && rows[i].o == o && rows[i].labelText.Some?
    decreases |rows|
  {
    if rows != [] {
      var n := |rows| - 1;
      var front := rows[..n];
      LabelsOfDefined(front, o);
      LabelsOfStep(rows, o);
      assert forall i :: 0 <= i < n ==> front[i] == rows[i];
    }
  }

  /** Row `i` labels `o`, and no later row does. */
  predicate LastLabelAt(rows: seq<InspectRow>, o: Term, i: int) {
    && 0 <= i < |rows| && rows[i].o == o && rows[i].labelText.Some?
    && forall j :: i < j < |rows| && rows[j].o == o ==> rows[j].labelText.None?
  }

  /** An object's label is the one on the last row that labels it. */
  lemma {:induction false} LabelsOfLast(rows: seq<InspectRow>, o: Term)
    ensures Get(LabelsOf(rows), o).Some? ==>
      exists i :: LastLabelAt(rows, o, i) && rows[i].labelText == Get(LabelsOf(rows), o)
    decreases |rows|
  {
    if rows != [] {
      var n := |rows| - 1;
      var front := rows[..n];
      LabelsOfLast(front, o);
      LabelsOfStep(rows, o);
      var row := rows[n];
      if row.o == o && row.labelText.Some? {
        assert LastLabelAt(rows, o, n);
      } else if Get(LabelsOf(rows), o).Some? {
        var i :| LastLabelAt(front, o, i) && front[i].labelText == Get(LabelsOf(front), o);
        LastLabelAtSnoc(rows, o, i);
      }
    }
  }

  /** A row that does not label `o` keeps the last labelling row. */
  lemma LastLabelAtSnoc(rows: seq<InspectRow>, o: Term, i: int)
    requires rows != [] && LastLabelAt(rows[..|rows| - 1], o, i)
    requires !(rows[|rows| - 1].o == o && rows[|rows| - 1].labelText.Some?)
    ensures LastLabelAt(rows, o, i) && rows[i] == rows[..|rows| - 1][i]
  {
  }

  // ---------------------------------------------------------------------
  // Subjects and labels

  /** A subject in the PRObs namespace is shown as `probs:<rest>`, any
      other in angle brackets. */
  function Abbreviate(subject: string): (r: string)
    ensures StartsWith(subject, Endpoint.PROBS) ==> r == "probs:" + subject[|Endpoint.PROBS|..]
    ensures !StartsWith(subject, Endpoint.PROBS) ==> r == "<" + subject + ">"
    ensures |r| > 0 && (r[0] == 'p' <==> StartsWith(subject, Endpoint.PROBS))
  {
    if StartsWith(subject, Endpoint.PROBS) then "probs:" + subject[|Endpoint.PROBS|..]
    else "<" + subject + ">"
  }

  /** Different subjects are shown differently. */
  lemma AbbreviateInjective(a: string, b: string)
    requires Abbreviate(a) == Abbreviate(b)
    ensures a == b
  {
    var pre := Endpoint.PROBS;
    var r := Abbreviate(a);
    if StartsWith(a, pre) && StartsWith(b, pre) {
      assert r[6..] == a[|pre|..] == b[|pre|..];
      assert a == pre + a[|pre|..] && b == pre + b[|pre|..];
    } else if !StartsWith(a, pre) && !StartsWith(b, pre) {
      assert r == "<" + a + ">" == "<" + b + ">";
      assert |a| == |b|;
      assert r[1..|a| + 1] == a && r[1..|b| + 1] == b;
    } else {
      assert false;
    }
  }

  /** The short code of a term: what follows its last `/`, without
      trailing `>`. */
  function Code(x: Term): (c: string)
    ensures '/' !in c
    ensures c == [] || c[|c| - 1] != '>'
  {
    RStrip(AfterLast(x, '/'), '>')
  }

  /** Taking the code of a code changes nothing. */
  lemma CodeIdempotent(x: Term)
    ensures Code(Code(x)) == Code(x)
  {
    var c := Code(x);
    AfterLastNone(c, '/');
    RStripNone(c, '>');
  }

  /** `_label` of the Graphviz output: the label if there is one, else
      the code. */
  function GraphvizLabel(x: Term, labels: Dict<Term, string>): (r: string)
    ensures Get(labels, x).Some? ==> r == Get(labels, x).value
    ensures Get(labels, x).None? ==> r == Code(x)
  {
    match Get(labels, x)
    case Some(l) => l
    case None => Code(x)
  }

  /** `_label` of the HTML output: the code, then the quoted label if
      there is one. */
  function HtmlLabel(x: Term, labels: Dict<Term, string>): (r: string)
    ensures StartsWith(r, Code(x))
    ensures Get(labels, x).Some? ==> r == Code(x) + " \"" + Get(labels, x).value + "\""
    ensures Get(labels, x).None? ==> r == Code(x)
  {
    var code := Code(x);
    match Get(labels, x)
    case Some(l) => code + " \"" + l + "\""
    case None => code
  }

  /** The HTML label is the bare code exactly when the term has no label;
      then it agrees with the Graphviz label. */
  lemma HtmlLabelPlain(x: Term, labels: Dict<Term, string>)
    ensures HtmlLabel(x, labels) == Code(x) <==> Get(labels, x).None?
    ensures Get(labels, x).None? ==> HtmlLabel(x, labels) == GraphvizLabel(x, labels)
  {
    if Get(labels, x).Some? {
      assert |HtmlLabel(x, labels)| > |Code(x)|;
    }
  }

  /** `_inspect_observation_data`: nothing found is an error, raised
      before any grouping; otherwise the abbreviated subject and the
      grouped rows. */
  method InspectObservationData(subject: string, rows: seq<InspectRow>)
    returns (r: Result<(string, Dict<Term, set<Term>>, Dict<Term, string>), Error>)
    ensures rows == [] <==> r == Failure(EmptyResult)
    ensures rows != [] ==> r == Success((Abbreviate(subject), ValuesOf(rows), LabelsOf(rows)))
  {
    if rows == [] {
      return Failure(EmptyResult);
    }
    var short := Abbreviate(subject);
    var values, labels := GroupRows(rows);
    r := Success((short, values, labels));
  }
}
