/** The logic of `ApiOperationDocumentElement` that feeds the code-snippet
    panel and the response tabs: the query dictionary built from the
    required query parameters, the header lines, the example chosen for the
    payload, the server in use, the response preselection and the joined
    trait names. What the component's collaborators compute
    (`generateDefaultValue`, `readInputValue`, the query-string
    decomposition, URL building, example evaluation) is given as data on
    the inputs or as function parameters. */
module OperationDocument {
  import opened JsValues
  import opened TypeLabel

  /** An example of a parameter or payload: its `value` and whether its
      `structuredValue` is truthy. */
  datatype Example = Example(value: Option<string>, structured: bool)

  /** The part of a parameter's schema that the snippets read. */
  datatype ParamSchema = ParamSchema(
    types: seq<Facet>,
    defaultValueStr: Option<string>,
    examples: seq<Example>)

  /** A query parameter or header. `generated` is what
      `ApiSchemaValues.generateDefaultValue(schema)` returns for it and
      `inputValue` what `ApiSchemaValues.readInputValue(param, schema,
      { fromExamples: true })` returns for it. */
  datatype Parameter = Parameter(
    name: Option<string>,
    paramName: Option<string>,
    required: bool,
    schema: Option<ParamSchema>,
    generated: JsValue,
    inputValue: JsValue)

  datatype PayloadSchema = PayloadSchema(examples: seq<Example>)

  datatype Payload = Payload(
    mediaType: Option<string>,
    examples: seq<Example>,
    schema: Option<PayloadSchema>)

  /** A request. `queryString` is absent when the request has no query
      string shape; otherwise it holds the parameters that
      `QueryParameterProcessor.collectOperationParameters` extracts from it. */
  datatype Request = Request(
    queryParameters: seq<Parameter>,
    queryString: Option<seq<Parameter>>,
    headers: seq<Parameter>,
    payloads: seq<Payload>)

  datatype Trait = Trait(name: Option<string>)

  datatype Operation = Operation(
    httpMethod: Option<string>,
    request: Option<Request>,
    traits: seq<Trait>)

  datatype Server = Server(id: string, url: string)

  /** A response, by its numeric status code. */
  datatype Response = Response(statusCode: nat)

  /** What the example evaluator or the schema generator returns. */
  datatype Rendered = Rendered(renderValue: Option<string>)

  // ---------------------------------------------------------------------
  // The query dictionary: an object whose keys keep insertion order
  // ---------------------------------------------------------------------

  datatype Entry = Entry(key: string, value: JsValue)
  type QueryMap = seq<Entry>

  function KeySet(m: QueryMap): set<string> {
    if m == [] then {} else {m[0].key} + KeySet(m[1..])
  }

  /** Every entry's key is in the key set. */
  lemma {:induction false} KeySetHas(m: QueryMap, i: nat)
    requires i < |m|
    ensures m[i].key in KeySet(m)
  {
    if i > 0 {
      KeySetHas(m[1..], i - 1);
    }
  }

  ghost predicate UniqueKeys(m: QueryMap) {
    forall i, j :: 0 <= i < j < |m| ==> m[i].key != m[j].key
  }

  /** The first value stored under `k`. */
  function Lookup(m: QueryMap, k: string): Option<JsValue> {
    if m == [] then None
    else if m[0].key == k then Some(m[0].value)
    else Lookup(m[1..], k)
  }

  /** `qp[k] = v`: an existing key keeps its place and takes the new
      value; a new key goes last. */
  function Put(m: QueryMap, k: string, v: JsValue): (r: QueryMap)
    ensures KeySet(r) == KeySet(m) + {k}
    ensures |r| == if k in KeySet(m) then |m| else |m| + 1
    ensures forall i :: 0 <= i < |m| ==> r[i].key == m[i].key
    ensures k !in KeySet(m) ==> r[|m|] == Entry(k, v)
  {
    if m == [] then [Entry(k, v)]
    else
      var rest := m[1..];
      if m[0].key == k then
        assert ([Entry(k, v)] + rest)[1..] == rest;
        [Entry(k, v)] + rest
      else
        var t := Put(rest, k, v);
        assert ([m[0]] + t)[1..] == t;
        [m[0]] + t
  }

  /** An assignment stores the new entry and otherwise keeps old ones. */
  lemma {:induction false} PutEntries(m: QueryMap, k: string, v: JsValue)
    ensures forall e :: e in Put(m, k, v) ==> e in m || e == Entry(k, v)
  {
    if m != [] && m[0].key != k {
      PutEntries(m[1..], k, v);
      assert Put(m, k, v) == [m[0]] + Put(m[1..], k, v);
    }
  }

  lemma {:induction false} PutLookup(m: QueryMap, k: string, v: JsValue, k': string)
    ensures Lookup(Put(m, k, v), k') == if k' == k then Some(v) else Lookup(m, k')
  {
    if m != [] && m[0].key != k {
      PutLookup(m[1..], k, v, k');
    }
  }

  lemma PutKeepsKeysUnique(m: QueryMap, k: string, v: JsValue)
    requires UniqueKeys(m)
    ensures UniqueKeys(Put(m, k, v))
  {
    var r := Put(m, k, v);
    if k in KeySet(m) {
      assert |r| == |m|;
      forall i, j | 0 <= i < j < |r| ensures r[i].key != r[j].key {
        assert r[i].key == m[i].key && r[j].key == m[j].key;
      }
    } else {
      assert |r| == |m| + 1 && r[|m|].key == k;
      forall i, j | 0 <= i < j < |r| ensures r[i].key != r[j].key {
        assert r[i].key == m[i].key;
        if j < |m| {
          assert r[j].key == m[j].key;
        } else {
          KeySetHas(m, i);
        }
      }
    }
  }

  // ---------------------------------------------------------------------
  // computeParametersValue
  // ---------------------------------------------------------------------

  /** `value || value === false || value === 0 || value === null`. */
  function Kept(v: JsValue): (r: bool)
    ensures r <==> !(v == Undefined || v == Str("") || v == NaN)
  {
    Truthy(v) || v == Bool(false) || v == Num(0) || v == Null
  }

  /** The position `examples.find(e => e.value)` stops at; `|es|` if none. */
  function FirstWithValue(es: seq<Example>): (r: nat)
    ensures r <= |es|
    ensures r < |es| ==> TruthyStr(es[r].value)
    ensures forall j :: 0 <= j < r ==> !TruthyStr(es[j].value)
  {
    if es == [] then 0
    else if TruthyStr(es[0].value) then 0
    else 1 + FirstWithValue(es[1..])
  }

  /** `paramName || name` as a property key or in a template literal. */
  function EffectiveName(p: Parameter): (r: string)
    ensures TruthyStr(p.paramName) ==> r == p.paramName.value
    ensures !TruthyStr(p.paramName) && p.name.Some? ==> r == p.name.value
    ensures !TruthyStr(p.paramName) && p.name.None? ==> r == "undefined"
  {
    if TruthyStr(p.paramName) then p.paramName.value else TemplateText(p.name)
  }

  /** What one pass of the `forEach` does with a parameter. `Fail` is the
      TypeError from destructuring an absent schema. */
  datatype Step = Skip | Store(value: JsValue) | Fail

  function QueryStep(p: Parameter): (r: Step)
    ensures !p.required ==> r == Skip
    ensures r.Fail? <==> p.required && p.schema.None?
    ensures r.Store? ==> Kept(r.value)
  {
    if !p.required then Skip
    else if p.schema.None? then Fail
    else
      var sc := p.schema.value;
      if TruthyStr(sc.defaultValueStr) then Store(Str(sc.defaultValueStr.value))
      else if |sc.examples| > 0 then
        var k := FirstWithValue(sc.examples);
        if k < |sc.examples| then Store(Str(sc.examples[k].value.value)) else Skip
      else if Kept(p.generated) then Store(p.generated)
      else Skip
  }

  /** The three tiers: a truthy default wins; otherwise, when there are
      examples, the first one with a truthy value, and nothing if there is
      none; otherwise the generated value unless it is `undefined`, `''` or
      `NaN`. */
  lemma QueryValuePrecedence(p: Parameter)
    requires p.required && p.schema.Some?
    ensures TruthyStr(p.schema.value.defaultValueStr) ==>
      QueryStep(p) == Store(Str(p.schema.value.defaultValueStr.value))
    ensures !TruthyStr(p.schema.value.defaultValueStr) && |p.schema.value.examples| > 0 ==>
      var es := p.schema.value.examples;
      var k := FirstWithValue(es);
      QueryStep(p) == (if k < |es| then Store(Str(es[k].value.value)) else Skip)
    ensures !TruthyStr(p.schema.value.defaultValueStr) && |p.schema.value.examples| > 0 ==>
      (QueryStep(p).Store? <==> exists i :: 0 <= i < |p.schema.value.examples| && TruthyStr(p.schema.value.examples[i].value))
    ensures !TruthyStr(p.schema.value.defaultValueStr) && |p.schema.value.examples| == 0 ==>
      QueryStep(p) == (if p.generated in {Undefined, Str(""), NaN} then Skip else Store(p.generated))
  {
  }

  /** A required parameter without a schema, on which the loop throws. */
  predicate MissingSchema(p: Parameter) {
    p.required && p.schema.None?
  }

  /** One pass of the `forEach` over the dictionary built so far; `None`
      once a pass has thrown. */
  function Apply(acc: Option<QueryMap>, p: Parameter): (r: Option<QueryMap>)
    ensures r.None? <==> acc.None? || MissingSchema(p)
    ensures r.Some? ==> |r.value| <= |acc.value| + 1
    ensures r.Some? ==> forall e :: e in r.value ==> e in acc.value || Kept(e.value)
  {
    match acc
    case None => None
    case Some(m) =>
      match QueryStep(p)
      case Skip => acc
      case Store(v) => PutEntries(m, EffectiveName(p), v); Some(Put(m, EffectiveName(p), v))
      case Fail => None
  }

  /** The dictionary after the `forEach` over `ps`; `None` when it threw. */
  function Collect(ps: seq<Parameter>): (r: Option<QueryMap>)
    ensures r.Some? ==> |r.value| <= |ps|
    ensures r.Some? ==> forall e :: e in r.value ==> Kept(e.value)
    decreases |ps|
  {
    if ps == [] then Some([]) else Apply(Collect(ps[..|ps| - 1]), ps[|ps| - 1])
  }

  /** The value the last storing parameter with key `k` gives. */
  function LastStored(ps: seq<Parameter>, k: string): Option<JsValue>
    decreases |ps|
  {
    if ps == [] then None
    else
      var p := ps[|ps| - 1];
      if QueryStep(p).Store? && EffectiveName(p) == k then Some(QueryStep(p).value)
      else LastStored(ps[..|ps| - 1], k)
  }

  /** The loop throws exactly when some required parameter has no schema. */
  ghost predicate AnyMissing(ps: seq<Parameter>) {
    exists i :: 0 <= i < |ps| && MissingSchema(ps[i])
  }

  lemma AnyMissingSnoc(ps: seq<Parameter>)
    requires ps != []
    ensures AnyMissing(ps) <==> AnyMissing(ps[..|ps| - 1]) || MissingSchema(ps[|ps| - 1])
  {
    var init := ps[..|ps| - 1];
    if AnyMissing(ps) && !MissingSchema(ps[|ps| - 1]) {
      var i :| 0 <= i < |ps| && MissingSchema(ps[i]);
      assert init[i] == ps[i];
    }
    if AnyMissing(init) {
      var i :| 0 <= i < |init| && MissingSchema(init[i]);
      assert init[i] == ps[i];
    }
  }

  lemma {:induction false} CollectFails(ps: seq<Parameter>)
    ensures Collect(ps).None? <==> AnyMissing(ps)
    decreases |ps|
  {
    if ps != [] {
      CollectFails(ps[..|ps| - 1]);
      AnyMissingSnoc(ps);
      assert Collect(ps) == Apply(Collect(ps[..|ps| - 1]), ps[|ps| - 1]);
    }
  }

  /** When the loop completes, the dictionary has one entry per key and
      holds under each key the value of the last required parameter with
      that key that produced one. */
  lemma {:induction false} CollectContents(ps: seq<Parameter>, k: string)
    requires Collect(ps).Some?
    ensures UniqueKeys(Collect(ps).value)
    ensures Lookup(Collect(ps).value, k) == LastStored(ps, k)
  {
    if ps != [] {
      var init := ps[..|ps| - 1];
      var p := ps[|ps| - 1];
      CollectContents(init, k);
      var m := Collect(init).value;
      if QueryStep(p).Store? {
        PutLookup(m, EffectiveName(p), QueryStep(p).value, k);
        PutKeepsKeysUnique(m, EffectiveName(p), QueryStep(p).value);
      }
    }
  }

  /** The dictionary keeps declaration order: the dictionary built from a
      prefix of the parameters is a prefix, key by key, of the one built
      from all of them. */
  lemma {:induction false} CollectKeysPrefix(a: seq<Parameter>, b: seq<Parameter>)
    requires Collect(a + b).Some?
    ensures Collect(a).Some?
    ensures |Collect(a).value| <= |Collect(a + b).value|
    ensures forall i :: 0 <= i < |Collect(a).value| ==> Collect(a + b).value[i].key == Collect(a).value[i].key
    decreases |b|
  {
    if b == [] {
      assert a + b == a;
    } else {
      var b' := b[..|b| - 1];
      assert (a + b)[..|a + b| - 1] == a + b';
      assert (a + b)[|a + b| - 1] == b[|b| - 1];
      CollectKeysPrefix(a, b');
    }
  }

  /** `queryParameters` when non-empty, else the parameters derived from
      the query string, else nothing. */
  function QuerySource(r: Request): (ps: seq<Parameter>)
    ensures |r.queryParameters| > 0 ==> ps == r.queryParameters
    ensures |r.queryParameters| == 0 && r.queryString.None? ==> ps == []
    ensures |r.queryParameters| == 0 && r.queryString.Some? ==> ps == r.queryString.value
  {
    if |r.queryParameters| > 0 then r.queryParameters
    else if r.queryString.Some? then r.queryString.value
    else []
  }

  /** The dictionary `computeParametersValue` passes to the URL serialiser,
      or `None` when it stops before (no operation, no request, no
      parameters, or a thrown TypeError). */
  function SnippetQuery(op: Option<Operation>): (r: Option<QueryMap>)
    ensures r.Some? ==> op.Some? && op.value.request.Some? && QuerySource(op.value.request.value) != []
  {
    if op.None? || op.value.request.None? then None
    else
      var ps := QuerySource(op.value.request.value);
      if ps == [] then None else Collect(ps)
  }

  /** One pass of the `forEach` over a parameter that does not throw. */
  method StoreParameter(m: QueryMap, param: Parameter) returns (m': QueryMap)
    requires !MissingSchema(param)
    ensures Apply(Some(m), param) == Some(m')
  {
    m' := m;
    if !param.required {
      return;
    }
    var parameterName := EffectiveName(param);
    var anySchema := param.schema.value;
    if TruthyStr(anySchema.defaultValueStr) {
      m' := Put(m, parameterName, Str(anySchema.defaultValueStr.value));
    } else if |anySchema.examples| > 0 {
      var k := FirstWithValue(anySchema.examples);
      if k < |anySchema.examples| {
        m' := Put(m, parameterName, Str(anySchema.examples[k].value.value));
      }
    } else {
      var value := param.generated;
      if Truthy(value) || value == Bool(false) || value == Num(0) || value == Null {
        m' := Put(m, parameterName, value);
      }
    }
  }

  /** The `forEach` of `computeParametersValue`: fills the dictionary one
      parameter at a time, and reports `None` when a step throws. */
  method CollectQueryParameters(params: seq<Parameter>) returns (qp: Option<QueryMap>)
    ensures qp == Collect(params)
  {
    var m: QueryMap := [];
    var i := 0;
    while i < |params|
      invariant 0 <= i <= |params|
      invariant Collect(params[..i]) == Some(m)
    {
      var param := params[i];
      assert params[..i + 1][..i] == params[..i];
      assert params[..i + 1][i] == param;
      if param.required && param.schema.None? {
        assert MissingSchema(params[i]);
        CollectFails(params);
        return None;
      }
      m := StoreParameter(m, param);
      i := i + 1;
    }
    assert params[..i] == params;
    qp := Some(m);
  }

  // ---------------------------------------------------------------------
  // computeSnippetsHeaders
  // ---------------------------------------------------------------------

  /** `readInputValue`'s result after the array join. */
  function HeaderValue(p: Parameter): JsValue {
    if p.inputValue.Arr? then Str(ArrayJoin(p.inputValue.elems, ",")) else p.inputValue
  }

  /** A header with a scalar schema and a defined value. */
  predicate Emits(p: Parameter) {
    p.schema.Some? && ScalarShape in p.schema.value.types && p.inputValue != Undefined
  }

  /** The line a header contributes, if any. */
  function HeaderLine(p: Parameter): (r: Option<string>)
    ensures r.Some? <==> Emits(p)
    ensures r.Some? ==> r.value == EffectiveName(p) + ": " + ToText(HeaderValue(p))
  {
    if p.schema.None? || ScalarShape !in p.schema.value.types then None
    else
      var value := HeaderValue(p);
      if value == Undefined then None else Some(EffectiveName(p) + ": " + ToText(value))
  }

  /** An emitted header whose `paramName || name || ''` lower-cases to
      `content-type`. */
  predicate SetsMime(p: Parameter): (r: bool)
    ensures r ==> HeaderLine(p).Some?
  {
    && HeaderLine(p).Some?
    && Lower(if TruthyStr(p.paramName) then p.paramName.value else OrEmpty(p.name)) == "content-type"
  }

  function HeaderLines(hs: seq<Parameter>): (r: seq<string>)
    ensures |r| <= |hs|
    decreases |hs|
  {
    if hs == [] then []
    else
      var line := HeaderLine(hs[|hs| - 1]);
      HeaderLines(hs[..|hs| - 1]) + (if line.Some? then [line.value] else [])
  }

  /** Some emitted header already sets the content type. */
  predicate HasMime(hs: seq<Parameter>)
  {
    exists i :: 0 <= i < |hs| && SetsMime(hs[i])
  }

  /** A header that sets the content type contributes a line. */
  lemma {:induction false} MimeLineEmitted(hs: seq<Parameter>)
    ensures HasMime(hs) ==> HeaderLines(hs) != []
    decreases |hs|
  {
    if HasMime(hs) {
      var i :| 0 <= i < |hs| && SetsMime(hs[i]);
      var init := hs[..|hs| - 1];
      var line := HeaderLine(hs[|hs| - 1]);
      assert HeaderLines(hs) == HeaderLines(init) + (if line.Some? then [line.value] else []);
      if i < |hs| - 1 {
        assert init[i] == hs[i];
        assert HasMime(init);
        MimeLineEmitted(init);
      }
    }
  }

  lemma HasMimeSnoc(hs: seq<Parameter>)
    requires hs != []
    ensures HasMime(hs) <==> HasMime(hs[..|hs| - 1]) || SetsMime(hs[|hs| - 1])
  {
    var init := hs[..|hs| - 1];
    if HasMime(hs) && !SetsMime(hs[|hs| - 1]) {
      var j :| 0 <= j < |hs| && SetsMime(hs[j]);
      assert init[j] == hs[j];
    }
    if HasMime(init) {
      var j :| 0 <= j < |init| && SetsMime(init[j]);
      assert init[j] == hs[j];
    }
  }

  /** Emitted lines keep declaration order: the lines of a concatenation
      are the lines of its parts, in order. */
  lemma {:induction false} HeaderLinesAppend(a: seq<Parameter>, b: seq<Parameter>)
    ensures HeaderLines(a + b) == HeaderLines(a) + HeaderLines(b)
    decreases |b|
  {
    if b == [] {
      assert a + b == a;
    } else {
      var b' := b[..|b| - 1];
      assert (a + b)[..|a + b| - 1] == a + b';
      assert (a + b)[|a + b| - 1] == b[|b| - 1];
      HeaderLinesAppend(a, b');
    }
  }

  /** One line per header that has a scalar schema and a defined value. */
  lemma HeaderLinesCount(hs: seq<Parameter>)
    ensures |HeaderLines(hs)| == |set i | 0 <= i < |hs| && Emits(hs[i])|
  {
    HeaderLinesCountUpTo(hs, |hs|);
    assert hs[..|hs|] == hs;
  }

  /** The count over the first `n` headers. */
  lemma {:induction false} HeaderLinesCountUpTo(hs: seq<Parameter>, n: nat)
    requires n <= |hs|
    ensures |HeaderLines(hs[..n])| == |set i | 0 <= i < n && Emits(hs[i])|
  {
    var s := set i | 0 <= i < n && Emits(hs[i]);
    if n == 0 {
      assert s == {};
    } else {
      HeaderLinesCountUpTo(hs, n - 1);
      var s' := set i | 0 <= i < n - 1 && Emits(hs[i]);
      assert hs[..n][..n - 1] == hs[..n - 1];
      assert hs[..n][n - 1] == hs[n - 1];
      if Emits(hs[n - 1]) {
        assert s == s' + {n - 1};
      } else {
        assert s == s';
      }
    }
  }

  /** The lines of the snippet: the emitted header lines in order, then a
      synthesized `content-type` line when none was emitted, a media type
      is selected and the method is not exactly `get`. */
  function SnippetHeaderLines(hs: seq<Parameter>, mime: Option<string>, httpMethod: Option<string>): (r: seq<string>)
    ensures |r| == |HeaderLines(hs)| || |r| == |HeaderLines(hs)| + 1
    ensures r[..|HeaderLines(hs)|] == HeaderLines(hs)
    ensures |r| == |HeaderLines(hs)| + 1 <==> !HasMime(hs) && TruthyStr(mime) && httpMethod != Some("get")
    ensures |r| == |HeaderLines(hs)| + 1 ==> r[|r| - 1] == "content-type: " + mime.value
  {
    HeaderLines(hs)
      + if !HasMime(hs) && TruthyStr(mime) && httpMethod != Some("get")
        then ["content-type: " + mime.value] else []
  }

  /** The value `computeSnippetsHeaders` leaves in the component. */
  function SnippetHeaders(op: Option<Operation>, mime: Option<string>, asyncApi: bool): (r: Option<string>)
    ensures r.Some? <==> !asyncApi && op.Some? && op.value.request.Some?
  {
    if asyncApi || op.None? || op.value.request.None? then None
    else Some(Join(SnippetHeaderLines(op.value.request.value.headers, mime, op.value.httpMethod), "\n"))
  }

  lemma {:induction false} HeaderLinesNonEmpty(hs: seq<Parameter>)
    ensures forall i :: 0 <= i < |HeaderLines(hs)| ==> HeaderLines(hs)[i] != ""
    decreases |hs|
  {
    if hs != [] {
      HeaderLinesNonEmpty(hs[..|hs| - 1]);
      var line := HeaderLine(hs[|hs| - 1]);
      if line.Some? {
        assert |line.value| >= 2;
      }
    }
  }

  /** The header text is `''` exactly when no line is emitted, every line
      holding at least its `": "`. */
  lemma SnippetHeadersEmpty(op: Option<Operation>, mime: Option<string>, asyncApi: bool)
    requires SnippetHeaders(op, mime, asyncApi).Some?
    ensures SnippetHeaders(op, mime, asyncApi).value == "" <==>
      SnippetHeaderLines(op.value.request.value.headers, mime, op.value.httpMethod) == []
  {
    var hs := op.value.request.value.headers;
    var lines := SnippetHeaderLines(hs, mime, op.value.httpMethod);
    HeaderLinesNonEmpty(hs);
    JoinEmpty(lines, "\n");
    if |lines| == 1 {
      if |HeaderLines(hs)| == 1 {
        assert lines[0] == HeaderLines(hs)[0];
      } else {
        assert lines[0] == "content-type: " + mime.value;
      }
    }
  }

  /** One pass of the header loop: the line the header contributes and
      whether it sets the content type. */
  method HeaderStep(param: Parameter) returns (header: Option<string>, setsMime: bool)
    ensures header == HeaderLine(param)
    ensures setsMime == SetsMime(param)
  {
    header, setsMime := None, false;
    if param.schema.None? || ScalarShape !in param.schema.value.types {
      return;
    }
    var value := param.inputValue;
    if value.Arr? {
      value := Str(ArrayJoin(value.elems, ","));
    }
    if value != Undefined {
      var headerName := if TruthyStr(param.paramName) then param.paramName.value else OrEmpty(param.name);
      if Lower(headerName) == "content-type" {
        setsMime := true;
      }
      header := Some(EffectiveName(param) + ": " + ToText(value));
    }
  }

  /** What one pass adds to the loop's lines and flag. */
  lemma HeaderLoopStep(headers: seq<Parameter>, i: nat)
    requires i < |headers|
    ensures HeaderLines(headers[..i + 1]) ==
      HeaderLines(headers[..i]) + (if HeaderLine(headers[i]).Some? then [HeaderLine(headers[i]).value] else [])
    ensures HasMime(headers[..i + 1]) == (HasMime(headers[..i]) || SetsMime(headers[i]))
  {
    assert headers[..i + 1][..i] == headers[..i];
    assert headers[..i + 1][i] == headers[i];
    HasMimeSnoc(headers[..i + 1]);
  }

  /** The loop of `computeSnippetsHeaders`: collects the lines and whether
      one of them already sets the content type. */
  method CollectHeaderLines(headers: seq<Parameter>) returns (parts: seq<string>, hasMime: bool)
    ensures parts == HeaderLines(headers)
    ensures hasMime == HasMime(headers)
  {
    parts := [];
    hasMime := false;
    var i := 0;
    while i < |headers|
      invariant 0 <= i <= |headers|
      invariant parts == HeaderLines(headers[..i])
      invariant hasMime == HasMime(headers[..i])
    {
      var header, setsMime := HeaderStep(headers[i]);
      HeaderLoopStep(headers, i);
      if setsMime {
        hasMime := true;
      }
      if header.Some? {
        parts := parts + [header.value];
      }
      i := i + 1;
    }
    assert headers[..i] == headers;
  }

  // ---------------------------------------------------------------------
  // computeSnippetsPayload: which example feeds the payload
  // ---------------------------------------------------------------------

  /** `payloads.find(p => p.mediaType === requestMimeType)`, as a position. */
  function FirstPayload(ps: seq<Payload>, mime: string): (r: nat)
    ensures r <= |ps|
    ensures r < |ps| ==> ps[r].mediaType == Some(mime)
    ensures forall j :: 0 <= j < r ==> ps[j].mediaType != Some(mime)
  {
    if ps == [] then 0
    else if ps[0].mediaType == Some(mime) then 0
    else 1 + FirstPayload(ps[1..], mime)
  }

  /** `examples.filter(i => !!i.value || !!i.structuredValue)`. */
  function Populated(es: seq<Example>): (r: seq<Example>)
    ensures forall e :: e in r ==> e in es && (TruthyStr(e.value) || e.structured)
    ensures forall i :: 0 <= i < |es| && (TruthyStr(es[i].value) || es[i].structured) ==> es[i] in r
  {
    if es == [] then []
    else (if TruthyStr(es[0].value) || es[0].structured then [es[0]] else []) + Populated(es[1..])
  }

  /** The filter keeps order: it filters the parts of a concatenation
      separately. */
  lemma {:induction false} PopulatedConcat(a: seq<Example>, b: seq<Example>)
    ensures Populated(a + b) == Populated(a) + Populated(b)
  {
    if a == [] {
      assert a + b == b;
    } else {
      assert (a + b)[0] == a[0];
      assert (a + b)[1..] == a[1..] + b;
      PopulatedConcat(a[1..], b);
    }
  }

  /** The example `find(e => !!e.value)` returns, if any. */
  function FirstValued(es: seq<Example>): Option<Example> {
    var k := FirstWithValue(es);
    if k < |es| then Some(es[k]) else None
  }

  /** Filtering out the examples without a value or structured value does
      not change which example is found first. */
  lemma {:induction false} PopulatedKeepsFirst(es: seq<Example>)
    ensures FirstValued(Populated(es)) == FirstValued(es)
  {
    if es != [] {
      PopulatedKeepsFirst(es[1..]);
      if TruthyStr(es[0].value) {
        assert Populated(es)[0] == es[0];
      } else if es[0].structured {
        assert Populated(es) == [es[0]] + Populated(es[1..]);
        assert FirstWithValue(Populated(es)) == 1 + FirstWithValue(Populated(es[1..]));
      } else {
        assert Populated(es) == Populated(es[1..]);
      }
    }
  }

  /** The payload's own examples are searched before its schema's. */
  lemma {:induction false} FirstValuedConcat(a: seq<Example>, b: seq<Example>)
    ensures FirstValued(a + b) == if FirstValued(a).Some? then FirstValued(a) else FirstValued(b)
  {
    if a == [] {
      assert a + b == b;
    } else {
      assert (a + b)[0] == a[0];
      assert (a + b)[1..] == a[1..] + b;
      FirstValuedConcat(a[1..], b);
    }
  }

  /** Where `computeSnippetsPayload` gets to: no payload to render, a
      TypeError (a matching payload without a schema), or a matching
      payload's schema and the example to evaluate, if any. */
  datatype PayloadChoice =
    | NoPayload
    | PayloadThrew
    | Chosen(schema: PayloadSchema, example: Option<Example>)

  function ChoosePayloadExample(op: Option<Operation>, mime: Option<string>, asyncApi: bool): (r: PayloadChoice)
    ensures !(!asyncApi && TruthyStr(mime) && op.Some? && op.value.request.Some?) ==> r.NoPayload?
    ensures !asyncApi && TruthyStr(mime) && op.Some? && op.value.request.Some? ==>
      var ps := op.value.request.value.payloads;
      var k := FirstPayload(ps, mime.value);
      && (r.PayloadThrew? <==> k < |ps| && ps[k].schema.None?)
      && (r.Chosen? <==> k < |ps| && ps[k].schema.Some?)
      && (r.Chosen? ==> r.schema == ps[k].schema.value)
    ensures r.Chosen? && r.example.Some? ==> TruthyStr(r.example.value.value)
  {
    if asyncApi || op.None? || !TruthyStr(mime) || op.value.request.None? then NoPayload
    else
      var payloads := op.value.request.value.payloads;
      var k := FirstPayload(payloads, mime.value);
      if k == |payloads| then NoPayload
      else
        var payload := payloads[k];
        if payload.schema.None? then PayloadThrew
        else
          var examples := Populated(payload.examples + payload.schema.value.examples);
          var e := FirstValued(examples);
          assert e.Some? ==> TruthyStr(e.value.value);
          Chosen(payload.schema.value, e)
  }

  /** The example chosen is the first one with a value among the matching
      payload's examples, then its schema's, regardless of the filter. */
  lemma ChosenExample(op: Option<Operation>, mime: Option<string>, asyncApi: bool)
    requires ChoosePayloadExample(op, mime, asyncApi).Chosen?
    ensures var payloads := op.value.request.value.payloads;
            var payload := payloads[FirstPayload(payloads, mime.value)];
            ChoosePayloadExample(op, mime, asyncApi).example ==
              if FirstValued(payload.examples).Some? then FirstValued(payload.examples)
              else FirstValued(payload.schema.value.examples)
  {
    var payloads := op.value.request.value.payloads;
    var payload := payloads[FirstPayload(payloads, mime.value)];
    PopulatedKeepsFirst(payload.examples + payload.schema.value.examples);
    FirstValuedConcat(payload.examples, payload.schema.value.examples);
  }

  /** The payload text from a choice, given the example evaluator and the
      schema generator. */
  function PayloadText(choice: PayloadChoice, mime: string,
                       evaluate: (Example, string) -> Option<Rendered>,
                       generate: (PayloadSchema, string) -> Option<Rendered>): (r: Option<string>)
    ensures r.Some? ==> choice.Chosen? && r.value != ""
  {
    match choice
    case NoPayload => None
    case PayloadThrew => None
    case Chosen(schema, example) =>
      var evaluated := if example.Some? then evaluate(example.value, mime) else None;
      var payloadValue := if evaluated.None? then generate(schema, mime) else evaluated;
      if payloadValue.Some? && TruthyStr(payloadValue.value.renderValue)
      then Some(payloadValue.value.renderValue.value) else None
  }

  // ---------------------------------------------------------------------
  // The server getter
  // ---------------------------------------------------------------------

  /** `servers.find(item => item.id === serverId)`, as a position. */
  function FirstWithId(ss: seq<Server>, id: string): (r: nat)
    ensures r <= |ss|
    ensures r < |ss| ==> ss[r].id == id
    ensures forall j :: 0 <= j < r ==> ss[j].id != id
  {
    if ss == [] then 0
    else if ss[0].id == id then 0
    else 1 + FirstWithId(ss[1..], id)
  }

  // ---------------------------------------------------------------------
  // preselectResponse
  // ---------------------------------------------------------------------

  ghost predicate SortedByStatus(rs: seq<Response>) {
    forall i, j :: 0 <= i < j < |rs| ==> rs[i].statusCode <= rs[j].statusCode
  }

  predicate HasStatus(rs: seq<Response>, code: nat) {
    exists i :: 0 <= i < |rs| && rs[i].statusCode == code
  }

  /** Inserts `x` before the first response with a code not below it. */
  function InsertByStatus(x: Response, rs: seq<Response>): (r: seq<Response>)
    ensures |r| == |rs| + 1
    ensures multiset(r) == multiset(rs) + multiset{x}
  {
    if rs == [] || x.statusCode <= rs[0].statusCode then [x] + rs
    else
      assert rs == [rs[0]] + rs[1..];
      [rs[0]] + InsertByStatus(x, rs[1..])
  }

  /** A bound below every code stays below every code after an insertion. */
  lemma {:induction false} InsertKeepsBound(x: Response, rs: seq<Response>, b: nat)
    requires x.statusCode >= b
    requires forall i :: 0 <= i < |rs| ==> rs[i].statusCode >= b
    ensures forall i :: 0 <= i < |InsertByStatus(x, rs)| ==> InsertByStatus(x, rs)[i].statusCode >= b
  {
    if rs != [] && x.statusCode > rs[0].statusCode {
      InsertKeepsBound(x, rs[1..], b);
    }
  }

  /** Inserting into a sorted list keeps it sorted. */
  lemma {:induction false} InsertKeepsSorted(x: Response, rs: seq<Response>)
    requires SortedByStatus(rs)
    ensures SortedByStatus(InsertByStatus(x, rs))
  {
    if rs != [] && x.statusCode > rs[0].statusCode {
      var t := InsertByStatus(x, rs[1..]);
      InsertKeepsSorted(x, rs[1..]);
      InsertKeepsBound(x, rs[1..], rs[0].statusCode);
      var r := [rs[0]] + t;
      assert InsertByStatus(x, rs) == r;
      forall i, j | 0 <= i < j < |r| ensures r[i].statusCode <= r[j].statusCode {
        assert r[j] == t[j - 1];
        if i == 0 {
          assert t[j - 1].statusCode >= rs[0].statusCode;
        } else {
          assert r[i] == t[i - 1];
          assert t[i - 1].statusCode <= t[j - 1].statusCode;
        }
      }
    }
  }

  /** The responses in ascending order of status code. */
  function SortByStatus(rs: seq<Response>): (r: seq<Response>)
    ensures SortedByStatus(r)
    ensures multiset(r) == multiset(rs)
  {
    if rs == [] then []
    else
      assert rs == [rs[0]] + rs[1..];
      InsertKeepsSorted(rs[0], SortByStatus(rs[1..]));
      InsertByStatus(rs[0], SortByStatus(rs[1..]))
  }

  /** After the sort the first code is the lowest one, and every code of
      the list is still there. */
  lemma SortedFirstIsLowest(rs: seq<Response>)
    requires rs != []
    ensures |SortByStatus(rs)| == |rs|
    ensures forall i :: 0 <= i < |rs| ==> SortByStatus(rs)[0].statusCode <= rs[i].statusCode
    ensures forall c :: HasStatus(SortByStatus(rs), c) <==> HasStatus(rs, c)
  {
    var s := SortByStatus(rs);
    assert |s| == |multiset(s)| == |multiset(rs)| == |rs|;
    forall i | 0 <= i < |rs| ensures s[0].statusCode <= rs[i].statusCode {
      assert rs[i] in multiset(s);
      var j :| 0 <= j < |s| && s[j] == rs[i];
    }
    forall c ensures HasStatus(s, c) <==> HasStatus(rs, c) {
      if HasStatus(s, c) {
        var j :| 0 <= j < |s| && s[j].statusCode == c;
        assert s[j] in multiset(rs);
        var i :| 0 <= i < |rs| && rs[i] == s[j];
      }
      if HasStatus(rs, c) {
        var i :| 0 <= i < |rs| && rs[i].statusCode == c;
        assert rs[i] in multiset(s);
        var j :| 0 <= j < |s| && s[j] == rs[i];
      }
    }
  }

  // ---------------------------------------------------------------------
  // The trait names in traitsTemplate
  // ---------------------------------------------------------------------

  /** `traits.map(trait => trait.name).filter(i => !!i)`. */
  function TraitNames(traits: seq<Trait>): (r: seq<string>)
    ensures forall i :: 0 <= i < |r| ==> r[i] != ""
    ensures |r| <= |traits|
    ensures forall x :: x in r ==> Trait(Some(x)) in traits
    ensures forall i :: 0 <= i < |traits| && TruthyStr(traits[i].name) ==> traits[i].name.value in r
  {
    if traits == [] then []
    else (if TruthyStr(traits[0].name) then [traits[0].name.value] else []) + TraitNames(traits[1..])
  }

  /** The names keep the traits' order: a concatenation of traits gives
      the concatenation of their names. */
  lemma {:induction false} TraitNamesConcat(a: seq<Trait>, b: seq<Trait>)
    ensures TraitNames(a + b) == TraitNames(a) + TraitNames(b)
  {
    if a == [] {
      assert a + b == b;
    } else {
      assert (a + b)[0] == a[0];
      assert (a + b)[1..] == a[1..] + b;
      TraitNamesConcat(a[1..], b);
    }
  }

  /** `last = names.pop(); names.join(', ') + ', and ' + last`. */
  function SerialJoin(names: seq<string>): string {
    if names == [] then ", and undefined"
    else Join(names[..|names| - 1], ", ") + ", and " + names[|names| - 1]
  }

  /** The trait text as written: `None` when there are no traits (the
      template renders nothing). The serial-comma branch tests the length
      of the still-empty result string, so it is never taken. */
  function TraitsText(traits: seq<Trait>): (r: Option<string>)
    ensures r.None? <==> traits == []
    ensures r.Some? && |TraitNames(traits)| == 2 ==> r.value == Join(TraitNames(traits), " and ")
  {
    if traits == [] then None
    else
      var names := TraitNames(traits);
      var value := "";
      Some(if |names| == 2 then Join(names, " and ")
           else if |value| > 2 then SerialJoin(names)
           else Join(names, ", "))
  }

  /** The evidently intended trait text: the serial-comma branch tests the
      number of names. */
  function TraitsTextIntended(traits: seq<Trait>): (r: Option<string>)
    ensures r.None? <==> traits == []
    ensures r.Some? && |TraitNames(traits)| == 2 ==> r.value == Join(TraitNames(traits), " and ")
    ensures r.Some? && |TraitNames(traits)| < 2 ==> r.value == Join(TraitNames(traits), ", ")
  {
    if traits == [] then None
    else
      var names := TraitNames(traits);
      Some(if |names| == 2 then Join(names, " and ")
           else if |names| > 2 then SerialJoin(names)
           else Join(names, ", "))
  }

  /** As written, two names are joined with " and " and any other count
      with ", ": three names never get ", and". */
  lemma TraitsTextAsWritten(traits: seq<Trait>)
    requires traits != []
    ensures TraitsText(traits) == Some(if |TraitNames(traits)| == 2 then Join(TraitNames(traits), " and ")
                                       else Join(TraitNames(traits), ", "))
  {
  }

  /** The names of the traits a, b and c. */
  lemma ThreeTraitNames()
    ensures TraitNames([Trait(Some("a")), Trait(Some("b")), Trait(Some("c"))]) == ["a", "b", "c"]
  {
    var ts := [Trait(Some("a")), Trait(Some("b")), Trait(Some("c"))];
    assert ts[1..][1..] == [Trait(Some("c"))];
    assert TraitNames([Trait(Some("c"))]) == ["c"];
    assert ts[1..] == [Trait(Some("b")), Trait(Some("c"))];
    assert TraitNames(ts[1..]) == ["b"] + ["c"];
    assert TraitNames(ts) == ["a"] + ["b", "c"];
  }

  lemma TraitsTextThreeNames()
    ensures TraitsText([Trait(Some("a")), Trait(Some("b")), Trait(Some("c"))]) == Some("a, b, c")
    ensures TraitsTextIntended([Trait(Some("a")), Trait(Some("b")), Trait(Some("c"))]) == Some("a, b, and c")
  {
    ThreeTraitNames();
    assert ["a", "b", "c"][1..] == ["b", "c"];
    assert ["b", "c"][1..] == ["c"];
    assert ["a", "b", "c"][..2] == ["a", "b"];
    assert ["a", "b"][1..] == ["b"];
    assert Join(["a", "b", "c"], ", ") == "a" + ", " + ("b" + ", " + "c");
    assert "a" + ", " + ("b" + ", " + "c") == "a, b, c";
    assert Join(["a", "b"], ", ") == "a" + ", " + "b";
    assert "a" + ", " + "b" + ", and " + "c" == "a, b, and c";
  }

  /** Corrected: with three or more names, all but the last are joined with
      ", " and the last follows ", and ". As written, the same names come
      out with a plain ", " before the last, so the two texts differ for
      every such list. */
  lemma TraitsTextIntendedSerial(traits: seq<Trait>)
    requires |TraitNames(traits)| > 2
    ensures var names := TraitNames(traits);
            var init := Join(names[..|names| - 1], ", ");
            && TraitsTextIntended(traits) == Some(init + ", and " + names[|names| - 1])
            && TraitsText(traits) == Some(init + ", " + names[|names| - 1])
            && TraitsText(traits) != TraitsTextIntended(traits)
  {
    var names := TraitNames(traits);
    var n := |names|;
    assert names == names[..n - 1] + [names[n - 1]];
    JoinConcat(names[..n - 1], [names[n - 1]], ", ");
    var x := Join(names[..n - 1], ", ") + ", " + names[n - 1];
    var y := Join(names[..n - 1], ", ") + ", and " + names[n - 1];
    assert |x| != |y|;
  }

  // ---------------------------------------------------------------------
  // The component
  // ---------------------------------------------------------------------

  class ApiOperationDocument {
    var operation: Option<Operation>
    var servers: Option<seq<Server>>
    var serverId: Option<string>
    /** The endpoint URL that `UrlLib.computeEndpointUri` produced. */
    var url: Option<string>
    var responses: Option<seq<Response>>
    /** The selected status code; `None` also stands for `''`. */
    var selectedStatus: Option<nat>
    var requestMimeType: Option<string>
    var asyncApi: bool
    var snippetsParametersValue: Option<string>
    var snippetsPayloadValue: Option<string>
    var snippetsHeadersValue: Option<string>

    constructor ()
      ensures operation.None? && servers.None? && serverId.None? && url.None?
      ensures responses.None? && selectedStatus.None? && requestMimeType.None? && !asyncApi
      ensures snippetsParametersValue.None? && snippetsPayloadValue.None? && snippetsHeadersValue.None?
    {
      operation, servers, serverId, url := None, None, None, None;
      responses, selectedStatus, requestMimeType, asyncApi := None, None, None, false;
      snippetsParametersValue, snippetsPayloadValue, snippetsHeadersValue := None, None, None;
    }

    /** The `server` getter: none without a non-empty server list; with a
        truthy `serverId` the first server with that id, if any; otherwise
        the first server. */
    function CurrentServer(): (r: Option<Server>)
      reads this
      ensures servers.None? || servers.value == [] ==> r.None?
      ensures servers.Some? && servers.value != [] && !TruthyStr(serverId) ==> r == Some(servers.value[0])
      ensures servers.Some? && TruthyStr(serverId) ==>
        (r.None? <==> forall i :: 0 <= i < |servers.value| ==> servers.value[i].id != serverId.value)
      ensures servers.Some? && TruthyStr(serverId) && r.Some? ==>
        exists k :: 0 <= k < |servers.value| && r == Some(servers.value[k]) && r.value.id == serverId.value
          && forall j :: 0 <= j < k ==> servers.value[j].id != serverId.value
    {
      if servers.None? || servers.value == [] then None
      else if TruthyStr(serverId) then
        var k := FirstWithId(servers.value, serverId.value);
        if k < |servers.value| then Some(servers.value[k]) else None
      else Some(servers.value[0])
    }

    /** The `snippetsUri` getter: the URL, then the query string, a
        missing part contributing nothing. */
    function SnippetsUri(): (r: string)
      reads this
      ensures |r| == |OrEmpty(url)| + |OrEmpty(snippetsParametersValue)|
      ensures r[..|OrEmpty(url)|] == OrEmpty(url)
      ensures r[|OrEmpty(url)|..] == OrEmpty(snippetsParametersValue)
    {
      OrEmpty(url) + OrEmpty(snippetsParametersValue)
    }

    /** `computeParametersValue`. `applyUrlParameters` stands for
        `UrlLib.applyUrlParameters('', qp, true)`. `threw` reports the
        TypeError of a required parameter without a schema, which
        leaves the value undefined. */
    method ComputeParametersValue(applyUrlParameters: QueryMap -> string) returns (threw: bool)
      modifies this`snippetsParametersValue
      ensures snippetsParametersValue ==
        (if SnippetQuery(operation).Some? then Some(applyUrlParameters(SnippetQuery(operation).value)) else None)
      ensures threw <==> operation.Some? && operation.value.request.Some?
                         && QuerySource(operation.value.request.value) != [] && SnippetQuery(operation).None?
    {
      snippetsParametersValue := None;
      threw := false;
      if operation.None? {
        return;
      }
      var request := operation.value.request;
      if request.None? {
        return;
      }
      var params := QuerySource(request.value);
      if params == [] {
        return;
      }
      var qp := CollectQueryParameters(params);
      if qp.None? {
        threw := true;
        return;
      }
      snippetsParametersValue := Some(applyUrlParameters(qp.value));
    }

    /** `computeSnippetsHeaders`. */
    method ComputeSnippetsHeaders()
      modifies this`snippetsHeadersValue
      ensures snippetsHeadersValue == SnippetHeaders(operation, requestMimeType, asyncApi)
    {
      snippetsHeadersValue := None;
      if asyncApi || operation.None? {
        return;
      }
      var request := operation.value.request;
      if request.None? {
        return;
      }
      var parts, hasMime := CollectHeaderLines(request.value.headers);
      if !hasMime && TruthyStr(requestMimeType) && operation.value.httpMethod != Some("get") {
        parts := parts + ["content-type: " + requestMimeType.value];
      }
      assert parts == SnippetHeaderLines(request.value.headers, requestMimeType, operation.value.httpMethod);
      snippetsHeadersValue := Some(Join(parts, "\n"));
    }

    /** `computeSnippetsPayload`: `evaluate` stands for `evaluateExample`
        and `generate` for `ApiSchemaGenerator.asExample`. */
    method ComputeSnippetsPayload(evaluate: (Example, string) -> Option<Rendered>,
                                  generate: (PayloadSchema, string) -> Option<Rendered>) returns (threw: bool)
      modifies this`snippetsPayloadValue
      ensures threw <==> ChoosePayloadExample(operation, requestMimeType, asyncApi).PayloadThrew?
      ensures var choice := ChoosePayloadExample(operation, requestMimeType, asyncApi);
              snippetsPayloadValue ==
                (if choice.Chosen? then PayloadText(choice, requestMimeType.value, evaluate, generate) else None)
    {
      var choice := ChoosePayloadExample(operation, requestMimeType, asyncApi);
      snippetsPayloadValue := None;
      threw := choice.PayloadThrew?;
      if choice.Chosen? {
        snippetsPayloadValue := PayloadText(choice, requestMimeType.value, evaluate, generate);
      }
    }

    /** `preselectResponse`: sorts the responses by status code and keeps
        the selected status only when some response has it, selecting the
        lowest code otherwise. An absent or empty list changes nothing. */
    method PreselectResponse()
      modifies this`responses, this`selectedStatus
      ensures old(responses).None? || old(responses).value == [] ==>
        responses == old(responses) && selectedStatus == old(selectedStatus)
      ensures old(responses).Some? && old(responses).value != [] ==>
        && responses == Some(SortByStatus(old(responses).value))
        && selectedStatus ==
             (if old(selectedStatus).Some? && HasStatus(old(responses).value, old(selectedStatus).value)
              then old(selectedStatus) else Some(responses.value[0].statusCode))
        && selectedStatus.Some? && HasStatus(responses.value, selectedStatus.value)
        && forall r :: r in old(responses).value ==> selectedStatus.value <= r.statusCode || selectedStatus == old(selectedStatus)
    {
      if responses.None? || responses.value == [] {
        return;
      }
      var before := responses.value;
      SortedFirstIsLowest(before);
      responses := Some(SortByStatus(before));
      var sorted := responses.value;
      if selectedStatus.None? {
        selectedStatus := Some(sorted[0].statusCode);
        assert HasStatus(sorted, sorted[0].statusCode);
        return;
      }
      if HasStatus(sorted, selectedStatus.value) {
        return;
      }
      selectedStatus := Some(sorted[0].statusCode);
      assert HasStatus(sorted, sorted[0].statusCode);
    }

    /** The `serverId` setter: a new id recomputes the URL from the server
        it selects (`computeEndpointUri` stands for `UrlLib.computeEndpointUri`
        with the component's base URI, endpoint, protocols and version;
        nothing changes for an asynchronous API) and the query string. */
    method SetServerId(value: Option<string>, computeEndpointUri: Option<Server> -> Option<string>,
                       applyUrlParameters: QueryMap -> string) returns (threw: bool)
      modifies this`serverId, this`url, this`snippetsParametersValue
      ensures old(serverId) == value ==>
        serverId == value && url == old(url) && snippetsParametersValue == old(snippetsParametersValue) && !threw
      ensures old(serverId) != value ==>
        && serverId == value
        && url == (if asyncApi then old(url) else computeEndpointUri(CurrentServer()))
        && snippetsParametersValue ==
             (if SnippetQuery(operation).Some? then Some(applyUrlParameters(SnippetQuery(operation).value)) else None)
        && (threw <==> operation.Some? && operation.value.request.Some?
                       && QuerySource(operation.value.request.value) != [] && SnippetQuery(operation).None?)
    {
      threw := false;
      if serverId == value {
        return;
      }
      serverId := value;
      if !asyncApi {
        url := computeEndpointUri(CurrentServer());
      }
      threw := ComputeParametersValue(applyUrlParameters);
    }

    /** The request panel's media-type change: stores the new type and
        recomputes the payload and then the headers; a TypeError in the
        payload step stops before the headers. */
    method RequestMimeChanged(mime: Option<string>,
                              evaluate: (Example, string) -> Option<Rendered>,
                              generate: (PayloadSchema, string) -> Option<Rendered>) returns (threw: bool)
      modifies this`requestMimeType, this`snippetsPayloadValue, this`snippetsHeadersValue
      ensures requestMimeType == mime
      ensures threw <==> ChoosePayloadExample(operation, mime, asyncApi).PayloadThrew?
      ensures var choice := ChoosePayloadExample(operation, mime, asyncApi);
              snippetsPayloadValue == (if choice.Chosen? then PayloadText(choice, mime.value, evaluate, generate) else None)
      ensures !threw ==> snippetsHeadersValue == SnippetHeaders(operation, mime, asyncApi)
      ensures threw ==> snippetsHeadersValue == old(snippetsHeadersValue)
    {
      requestMimeType := mime;
      threw := ComputeSnippetsPayload(evaluate, generate);
      if !threw {
        ComputeSnippetsHeaders();
      }
    }
  }
}
