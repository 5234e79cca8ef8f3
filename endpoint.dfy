/** Looking up PRObs Observations by their dimensions
    (src/probs_runner/endpoint.py): the query and its bindings, and the
    records built from the rows the endpoint returns. The endpoint's
    `query_records` is a parameter. */
module Endpoint {
  import opened Wrappers
  import opened Dicts

  /** A URI reference, by its text. */
  type Uri = string

  const PROBS: string := "https://ukfires.org/probs/ontology/"

  /** A measurement: a number (by its lexical form, since floating point
      is not modelled) or the NaN that stands for a missing one. */
  datatype Measurement = Value(lexical: string) | NaN

  datatype Observation = Observation(
    uri: Uri,
    time: Uri,
    region: Uri,
    metric: Uri,
    role: Uri,
    object_: Option<Uri>,
    process: Option<Uri>,
    measurement: Option<Measurement>,
    bound: Uri)

  /** `Observation(uri, time, region, metric, role)` with the defaults. */
  function NewObservation(uri: Uri, time: Uri, region: Uri, metric: Uri, role: Uri): (o: Observation)
    ensures o.uri == uri && o.time == time && o.region == region && o.metric == metric && o.role == role
    ensures o.object_ == None && o.process == None && o.measurement == None
    ensures o.bound == PROBS + "ExactBound"
  {
    Observation(uri, time, region, metric, role, None, None, None, PROBS + "ExactBound")
  }

  /** The dimensions asked for; the last two are optional. */
  datatype Dimensions = Dimensions(time: Uri, region: Uri, metric: Uri, role: Uri, object_: Option<Uri>, process: Option<Uri>)

  /** A result row: the observation, its measurement if it has one, and
      its bound. */
  datatype Row = Row(obs: Uri, measurement: Option<string>, bound: Uri)

  const TEMPLATE_HEAD: string :=
    "\n        SELECT ?obs ?measurement ?bound\n        WHERE {\n            ?obs a :Observation ;\n"
    + "                 :hasTimePeriod ?time ;\n                 :hasRegion ?region ;\n"
    + "                 :metric ?metric ;\n                 :hasRole ?role ;\n                 "
  const TEMPLATE_TAIL: string :=
    "\n                 :bound ?bound .\n            OPTIONAL { ?obs :measurement ?measurement . }\n        }\n    "

  const OBJECT_CLAUSE: string := ":objectDefinedBy ?object ; "
  const PROCESS_CLAUSE: string := ":processDefinedBy ?process ; "

  /** `query_obs_template % other`. */
  function QueryText(other: string): string {
    TEMPLATE_HEAD + other + TEMPLATE_TAIL
  }

  /** The pattern lines for the optional dimensions that were given,
      object first. */
  function Clause(object_: Option<Uri>, process: Option<Uri>): string {
    (if object_.Some? then OBJECT_CLAUSE else "") + (if process.Some? then PROCESS_CLAUSE else "")
  }

  /** The four mandatory dimensions, bound to their variables. */
  function BaseBindings(d: Dimensions): (b: Dict<string, Uri>)
    ensures Keys(b) == ["time", "region", "metric", "role"]
  {
    var b := [("time", d.time), ("region", d.region), ("metric", d.metric), ("role", d.role)];
    assert b[0].0[0] == 't' && b[1].0[0] == 'r' && b[2].0[0] == 'm' && b[3].0[0] == 'r';
    assert |b[1].0| == 6 && |b[3].0| == 4;
    b
  }

  /** The values bound to the query's variables: the four mandatory
      dimensions, then each optional one that was given. */
  function Bindings(d: Dimensions): Dict<string, Uri> {
    var base := BaseBindings(d);
    var withObject := base + (if d.object_.Some? then [("object", d.object_.value)] else []);
    withObject + (if d.process.Some? then [("process", d.process.value)] else [])
  }

  /** The first half of `get_observations`: the bindings and the extra
      pattern lines are built up one optional dimension at a time. */
  method BuildQuery(d: Dimensions) returns (query: string, bindings: Dict<string, Uri>)
    ensures query == QueryText(Clause(d.object_, d.process))
    ensures bindings == Bindings(d)
  {
    BindingsSteps(d);
    ClauseSteps(d.object_, d.process);
    bindings := BaseBindings(d);
    var other := "";
    if d.object_.Some? {
      other := other + OBJECT_CLAUSE;
      bindings := Set(bindings, "object", d.object_.value);
    }
    if d.process.Some? {
      other := other + PROCESS_CLAUSE;
      bindings := Set(bindings, "process", d.process.value);
    }
    query := TEMPLATE_HEAD + other + TEMPLATE_TAIL;
  }

  /** Assigning the optional dimensions in turn gives the bindings. */
  lemma BindingsSteps(d: Dimensions)
    ensures var base := BaseBindings(d);
      var b1 := if d.object_.Some? then Set(base, "object", d.object_.value) else base;
      var b2 := if d.process.Some? then Set(b1, "process", d.process.value) else b1;
      b2 == Bindings(d)
  {
    var base := BaseBindings(d);
    var b1 := base + (if d.object_.Some? then [("object", d.object_.value)] else []);
    if d.object_.Some? {
      assert "object" !in Keys(base) by {
        assert "object"[0] != "region"[0] && "object"[0] != "metric"[0];
      }
    } else {
      assert b1 == base;
    }
    if d.process.Some? {
      assert "process" !in Keys(b1) by {
        assert forall i :: 0 <= i < |b1| ==> |b1[i].0| < 7;
      }
    } else {
      assert b1 + [] == b1;
    }
  }

  /** Appending the optional pattern lines in turn gives the clause. */
  lemma ClauseSteps(object_: Option<Uri>, process: Option<Uri>)
    ensures var o1 := if object_.Some? then "" + OBJECT_CLAUSE else "";
      var o2 := if process.Some? then o1 + PROCESS_CLAUSE else o1;
      o2 == Clause(object_, process)
  {
    assert "" + OBJECT_CLAUSE == OBJECT_CLAUSE;
    assert "" + PROCESS_CLAUSE == PROCESS_CLAUSE;
    assert OBJECT_CLAUSE + "" == OBJECT_CLAUSE;
    assert "" + "" == "";
  }

  /** The four mandatory dimensions are always bound; `object` is bound
      exactly when an object was given, to it, and likewise `process`. */
  lemma BindingsContent(d: Dimensions)
    ensures var b := Bindings(d);
      && Get(b, "time") == Some(d.time) && Get(b, "region") == Some(d.region)
      && Get(b, "metric") == Some(d.metric) && Get(b, "role") == Some(d.role)
      && Get(b, "object") == d.object_ && Get(b, "process") == d.process
      && |b| == 4 + (if d.object_.Some? then 1 else 0) + (if d.process.Some? then 1 else 0)
  {
    var b := Bindings(d);
    GetAt(b, 0);
    GetAt(b, 1);
    GetAt(b, 2);
    GetAt(b, 3);
    if d.object_.Some? {
      GetAt(b, 4);
    } else {
      assert "object" !in Keys(b);
    }
    if d.process.Some? {
      GetAt(b, |b| - 1);
    } else {
      assert "process" !in Keys(b);
    }
  }

  /** Nothing is added to the pattern when neither optional dimension is
      given; otherwise the object line comes before the process line. */
  lemma ClauseShape(object_: Option<Uri>, process: Option<Uri>)
    ensures Clause(object_, process) == "" <==> object_.None? && process.None?
    ensures object_.Some? && process.Some? ==> Clause(object_, process) == OBJECT_CLAUSE + PROCESS_CLAUSE
  {
    assert |OBJECT_CLAUSE| > 0 && |PROCESS_CLAUSE| > 0;
  }

  /** The query tells which optional dimensions were given: different
      choices give different query texts. */
  lemma QueryRevealsOptions(o1: Option<Uri>, p1: Option<Uri>, o2: Option<Uri>, p2: Option<Uri>)
    requires QueryText(Clause(o1, p1)) == QueryText(Clause(o2, p2))
    ensures o1.Some? == o2.Some? && p1.Some? == p2.Some?
  {
    var c1, c2 := Clause(o1, p1), Clause(o2, p2);
    assert |QueryText(c1)| == |TEMPLATE_HEAD| + |c1| + |TEMPLATE_TAIL|;
    assert |QueryText(c2)| == |TEMPLATE_HEAD| + |c2| + |TEMPLATE_TAIL|;
    assert |c1| == |c2|;
    assert |OBJECT_CLAUSE| == 27 && |PROCESS_CLAUSE| == 29;
  }

  /** `_convert_measurement`: a missing value becomes NaN. */
  function ConvertMeasurement(v: Option<string>): (m: Measurement)
    ensures v.None? <==> m.NaN?
    ensures v.Some? ==> m == Value(v.value)
  {
    match v
    case None => NaN
    case Some(x) => Value(x)
  }

  /** One Observation per row, in row order: the dimensions asked for,
      with the row's observation, measurement and bound. */
  function ToObservations(rows: seq<Row>, d: Dimensions): (r: seq<Observation>)
    ensures |r| == |rows|
    ensures forall i :: 0 <= i < |rows| ==>
      && r[i].uri == rows[i].obs && r[i].bound == rows[i].bound
      && r[i].measurement == Some(ConvertMeasurement(rows[i].measurement))
      && r[i].time == d.time && r[i].region == d.region && r[i].metric == d.metric && r[i].role == d.role
      && r[i].object_ == d.object_ && r[i].process == d.process
  {
    seq(|rows|, i requires 0 <= i < |rows| =>
      Observation(rows[i].obs, d.time, d.region, d.metric, d.role, d.object_, d.process,
                  Some(ConvertMeasurement(rows[i].measurement)), rows[i].bound))
  }

  /** `get_observations`, given the endpoint's `query_records`. */
  method GetObservations(d: Dimensions, queryRecords: (string, Dict<string, Uri>) -> seq<Row>)
    returns (obs: seq<Observation>)
    ensures obs == ToObservations(queryRecords(QueryText(Clause(d.object_, d.process)), Bindings(d)), d)
  {
    var query, bindings := BuildQuery(d);
    var rows := queryRecords(query, bindings);
    obs := ToObservations(rows, d);
  }
}
