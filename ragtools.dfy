/**
 * The retrieval tools the middle tier registers: `search`, which formats
 * the hits of a hybrid query as text for the model, and
 * `report_grounding`, which looks up the cited chunks by id and returns
 * them for the client to show. The search service is a parameter: `query`
 * maps the tool's query argument to its hits, `lookup` maps a filter
 * expression to the chunks it selects.
 */
module RagTools {
  import opened Wrappers
  import opened Json
  import OrderedDict
  import Rtmt

  /** A search hit: the three fields both tools select. */
  datatype SearchDoc = SearchDoc(chunkId: string, title: string, chunk: string)

  // ---- search ----

  const EntryEnd: string := "\n-----\n"

  /** One hit as the model reads it: its source name in brackets, its text, and a separator line. */
  function Formatted(d: SearchDoc): (r: string)
    ensures |r| == |d.chunkId| + |d.chunk| + 11
  {
    "[" + d.chunkId + "]: " + d.chunk + EntryEnd
  }

  /** An entry opens with the bracketed chunk id, carries the chunk after `]: `, and closes with the separator. */
  lemma {:induction false} FormattedShape(d: SearchDoc)
    ensures var r := Formatted(d);
      r[0] == '[' && r[1..|d.chunkId| + 1] == d.chunkId && r[|d.chunkId| + 1..|d.chunkId| + 4] == "]: "
      && r[|d.chunkId| + 4..|r| - 7] == d.chunk && r[|r| - 7..] == EntryEnd
  {
  }

  /** The text of the `search` answer: every hit formatted, in result order. */
  function SearchText(results: seq<SearchDoc>): (r: string)
    ensures |r| >= 11 * |results|
    ensures results != [] ==> r[0] == '['
    decreases |results|
  {
    if results == [] then "" else SearchText(results[..|results| - 1]) + Formatted(results[|results| - 1])
  }

  /** The text of a run of hits is the texts of its parts, one after the other. */
  lemma {:induction false} SearchTextConcat(a: seq<SearchDoc>, b: seq<SearchDoc>)
    ensures SearchText(a + b) == SearchText(a) + SearchText(b)
    decreases |b|
  {
    if b == [] {
      assert a + b == a;
    } else {
      var init, last := b[..|b| - 1], b[|b| - 1];
      assert (a + b)[..|a + b| - 1] == a + init && (a + b)[|a + b| - 1] == last;
      SearchTextConcat(a, init);
      assert SearchText(a + b) == SearchText(a + init) + Formatted(last);
      assert SearchText(b) == SearchText(init) + Formatted(last);
    }
  }

  /** The text is empty exactly when there are no hits. */
  lemma {:induction false} SearchTextEmpty(results: seq<SearchDoc>)
    ensures SearchText(results) == "" <==> results == []
  {
    if results != [] {
      assert |SearchText(results)| >= |Formatted(results[|results| - 1])| > 0;
    }
  }

  /** Each hit's entry follows the entries of those before it. */
  lemma {:induction false} SearchTextEntries(results: seq<SearchDoc>, i: nat)
    requires i < |results|
    ensures SearchText(results) == SearchText(results[..i]) + Formatted(results[i]) + SearchText(results[i + 1..])
  {
    calc {
      SearchText(results);
    ==  { assert results == results[..i] + [results[i]] + results[i + 1..]; }
      SearchText(results[..i] + [results[i]] + results[i + 1..]);
    ==  { SearchTextAround(results[..i], results[i], results[i + 1..]); }
      SearchText(results[..i]) + Formatted(results[i]) + SearchText(results[i + 1..]);
    }
  }

  /** The text of hits around one hit is the texts before, the hit's entry, and the texts after. */
  lemma {:induction false} SearchTextAround(before: seq<SearchDoc>, hit: SearchDoc, after: seq<SearchDoc>)
    ensures SearchText(before + [hit] + after) == SearchText(before) + Formatted(hit) + SearchText(after)
  {
    calc {
      SearchText(before + [hit] + after);
    ==  { SearchTextConcat(before + [hit], after); }
      SearchText(before + [hit]) + SearchText(after);
    ==  { SearchTextConcat(before, [hit]); SearchTextOne(hit); }
      SearchText(before) + Formatted(hit) + SearchText(after);
    }
  }

  /** A single hit's text is its entry. */
  lemma {:induction false} SearchTextOne(d: SearchDoc)
    ensures SearchText([d]) == Formatted(d)
  {
    assert [d][..0] == [];
  }

  /** `_search_tool`: the query argument is read (KeyError or TypeError otherwise); the answer goes to the server. */
  function SearchResult(args: Json, query: Json -> seq<SearchDoc>): (r: Result<Rtmt.ToolResult, PyError>)
    ensures r.Success? <==> PyIndex(args, "query").Success?
    ensures r.Success? ==> r.value.destination == Rtmt.ToServer
  {
    match PyIndex(args, "query")
    case Failure(e) => Failure(e)
    case Success(q) => Success(Rtmt.ToolResult(JStr(SearchText(query(q))), Rtmt.ToServer))
  }

  /** `_search_tool`, accumulating the text hit by hit. */
  method SearchTool(args: Json, query: Json -> seq<SearchDoc>) returns (r: Result<Rtmt.ToolResult, PyError>)
    ensures r == SearchResult(args, query)
  {
    var q := PyIndex(args, "query");
    if q.Failure? {
      return Failure(q.error);
    }
    var results := query(q.value);
    var result := "";
    for i := 0 to |results|
      invariant result == SearchText(results[..i])
    {
      assert results[..i + 1][..i] == results[..i];
      result := result + Formatted(results[i]);
    }
    assert results[..|results|] == results;
    r := Success(Rtmt.ToolResult(JStr(result), Rtmt.ToServer));
  }

  // ---- report_grounding: the source list ----

  /** `",".join(xs)`. */
  function Join(xs: seq<string>): (r: string)
    ensures xs != [] ==> |xs[0]| <= |r| && r[..|xs[0]|] == xs[0]
    ensures |xs| > 1 ==> |xs[0]| < |r| && r[|xs[0]|] == ','
    ensures |r| >= |xs| - 1
    decreases |xs|
  {
    if xs == [] then "" else if |xs| == 1 then xs[0] else xs[0] + "," + Join(xs[1..])
  }

  function IndexOfComma(s: string): (i: nat)
    requires ',' in s
    ensures i < |s| && s[i] == ',' && ',' !in s[..i]
  {
    if s[0] == ',' then 0 else
      assert ',' in s[1..] by { var k :| 0 <= k < |s| && s[k] == ','; assert s[1..][k - 1] == ','; }
      var j := IndexOfComma(s[1..]);
      assert s[..j + 1] == [s[0]] + s[1..][..j];
      j + 1
  }

  /** Splitting at every comma, the inverse of `Join` for names without one. */
  function Split(s: string): (r: seq<string>)
    ensures |r| >= 1
    decreases |s|
  {
    if ',' !in s then [s] else
      var i := IndexOfComma(s);
      [s[..i]] + Split(s[i + 1..])
  }

  /** Joining loses nothing: names without commas are recovered, in order, by splitting. */
  lemma {:induction false} SplitJoin(xs: seq<string>)
    requires xs != [] && forall i :: 0 <= i < |xs| ==> ',' !in xs[i]
    ensures Split(Join(xs)) == xs
    decreases |xs|
  {
    if |xs| > 1 {
      SplitJoin(xs[1..]);
      var s := Join(xs);
      assert s == xs[0] + "," + Join(xs[1..]);
      assert s[|xs[0]|] == ',';
      assert s[..|xs[0]|] == xs[0];
      var i := IndexOfComma(s);
      assert s[i + 1..] == Join(xs[1..]);
    }
  }

  predicate AllStrings(items: seq<Json>)
  {
    forall i :: 0 <= i < |items| ==> items[i].JStr?
  }

  /**
   * `args["sources"]` iterated: each item must be a string or the join
   * raises TypeError. A string argument is iterated character by character.
   */
  function SourceNames(args: Json): (r: Result<seq<string>, PyError>)
    ensures r.Success? <==>
      (PyIndex(args, "sources").Success? && PyIter(PyIndex(args, "sources").value).Success?
       && AllStrings(PyIter(PyIndex(args, "sources").value).value))
    ensures r.Success? ==>
      var items := PyIter(PyIndex(args, "sources").value).value;
      |r.value| == |items| && forall i :: 0 <= i < |items| ==> items[i] == JStr(r.value[i])
  {
    match PyIndex(args, "sources")
    case Failure(e) => Failure(e)
    case Success(v) =>
      match PyIter(v)
      case Failure(e) => Failure(e)
      case Success(items) =>
        if AllStrings(items) then Success(seq(|items|, i requires 0 <= i < |items| => items[i].s))
        else Failure(PyError.TypeError)
  }

  /** A single source passed as a string, not a list, is cited character by character. */
  lemma {:induction false} SourceStringSplitsIntoCharacters(args: Json, s: string)
    requires PyIndex(args, "sources") == Success(JStr(s))
    ensures SourceNames(args).Success?
    ensures var names := SourceNames(args).value; |names| == |s| && forall i :: 0 <= i < |s| ==> names[i] == [s[i]]
  {
    var items := PyIter(JStr(s)).value;
    assert forall i :: 0 <= i < |items| ==> items[i] == JStr([s[i]]);
  }

  // ---- report_grounding: the filter ----

  /** `s.replace("'", "''")`. */
  function DoubleQuotes(s: string): (r: string)
    ensures |r| >= |s|
    decreases |s|
  {
    if s == [] then [] else (if s[0] == '\'' then "''" else [s[0]]) + DoubleQuotes(s[1..])
  }

  /** Reading an OData string body back: `''` stands for one quote. */
  function UndoubleQuotes(t: string): string
    decreases |t|
  {
    if t == [] then []
    else if |t| >= 2 && t[0] == '\'' && t[1] == '\'' then "'" + UndoubleQuotes(t[2..])
    else [t[0]] + UndoubleQuotes(t[1..])
  }

  /** Every quote is one of a doubled pair, so none ends the string literal early. */
  predicate QuotesPaired(t: string)
    decreases |t|
  {
    if t == [] then true
    else if t[0] == '\'' then |t| >= 2 && t[1] == '\'' && QuotesPaired(t[2..])
    else QuotesPaired(t[1..])
  }

  lemma {:induction false} DoubleQuotesStep(s: string)
    requires s != []
    ensures DoubleQuotes(s) == (if s[0] == '\'' then "''" else [s[0]]) + DoubleQuotes(s[1..])
  {
  }

  /** Doubling leaves no lone quote, and undoubling gives the original back. */
  lemma {:induction false} DoubleQuotesInverse(s: string)
    ensures QuotesPaired(DoubleQuotes(s))
    ensures UndoubleQuotes(DoubleQuotes(s)) == s
    decreases |s|
  {
    if s != [] {
      DoubleQuotesInverse(s[1..]);
      var d := DoubleQuotes(s);
      if s[0] == '\'' {
        assert d[2..] == DoubleQuotes(s[1..]);
      } else {
        assert d[1..] == DoubleQuotes(s[1..]);
      }
    }
  }

  /** Conversely, a body with no lone quote is the doubling of its reading. */
  lemma {:induction false} UndoubleQuotesInverse(t: string)
    requires QuotesPaired(t)
    ensures DoubleQuotes(UndoubleQuotes(t)) == t
    decreases |t|
  {
    if t != [] {
      if t[0] == '\'' {
        UndoubleQuotesInverse(t[2..]);
        var u := UndoubleQuotes(t);
        assert u == "'" + UndoubleQuotes(t[2..]);
        DoubleQuotesStep(u);
        assert u[1..] == UndoubleQuotes(t[2..]);
        assert t == "''" + t[2..];
      } else {
        UndoubleQuotesInverse(t[1..]);
        var u := UndoubleQuotes(t);
        assert u == [t[0]] + UndoubleQuotes(t[1..]);
        DoubleQuotesStep(u);
        assert u[1..] == UndoubleQuotes(t[1..]);
        assert t == [t[0]] + t[1..];
      }
    }
  }

  const FilterStart: string := "search.in(chunk_id, '"
  const FilterEnd: string := "')"

  /** The filter that selects the cited chunks by id. */
  function Filter(names: seq<string>): (r: string)
    ensures |FilterStart| + |FilterEnd| <= |r|
    ensures r[..|FilterStart|] == FilterStart && r[|r| - |FilterEnd|..] == FilterEnd
  {
    FilterStart + DoubleQuotes(Join(names)) + FilterEnd
  }

  /**
   * The filter's quoted argument is exactly the joined names: the body
   * between the opening and the closing quote has no lone quote, and
   * reading it back gives the joined list.
   */
  lemma {:induction false} FilterQuotesNames(names: seq<string>)
    ensures var f := Filter(names);
      |FilterStart| + |FilterEnd| <= |f|
      && f[..|FilterStart|] == FilterStart && f[|f| - |FilterEnd|..] == FilterEnd
      && var body := f[|FilterStart|..|f| - |FilterEnd|];
      QuotesPaired(body) && UndoubleQuotes(body) == Join(names)
  {
    var f := Filter(names);
    var body := DoubleQuotes(Join(names));
    assert f[|FilterStart|..|f| - |FilterEnd|] == body;
    DoubleQuotesInverse(Join(names));
  }

  // ---- report_grounding: the documents ----

  /** How the client reads a grounding document back. */
  function ReadDoc(doc: Json): Option<SearchDoc>
  {
    match (PyIndex(doc, "chunk_id"), PyIndex(doc, "title"), PyIndex(doc, "chunk"))
    case (Success(JStr(id)), Success(JStr(title)), Success(JStr(chunk))) => Some(SearchDoc(id, title, chunk))
    case _ => None
  }

  /** A hit as a grounding document: exactly the three fields, in this order. */
  function GroundingDoc(d: SearchDoc): (r: Json)
    ensures r.JObj? && OrderedDict.Keys(r.fields) == ["chunk_id", "title", "chunk"]
  {
    JObj([("chunk_id", JStr(d.chunkId)), ("title", JStr(d.title)), ("chunk", JStr(d.chunk))])
  }

  /** A grounding document gives the hit back. */
  lemma {:induction false} GroundingDocRoundTrip(d: SearchDoc)
    ensures ReadDoc(GroundingDoc(d)) == Some(d)
  {
    var fields := GroundingDoc(d).fields;
    assert "title"[0] != "chunk"[0];
    assert |"chunk_id"| == 8 && |"title"| == 5;
    OrderedDict.GetLiteral(fields, "chunk_id");
    OrderedDict.GetLiteral(fields, "title");
    OrderedDict.GetLiteral(fields, "chunk");
  }

  /** The documents sent to the client, one per hit, in result order. */
  function GroundingDocs(results: seq<SearchDoc>): (docs: seq<Json>)
    ensures |docs| == |results| && forall i :: 0 <= i < |results| ==> docs[i] == GroundingDoc(results[i])
    decreases |results|
  {
    if results == [] then [] else GroundingDocs(results[..|results| - 1]) + [GroundingDoc(results[|results| - 1])]
  }

  /** `_report_grounding_tool`: the names are read and joined, the chunks looked up; the answer goes to the client. */
  function GroundingResult(args: Json, lookup: string -> seq<SearchDoc>): (r: Result<Rtmt.ToolResult, PyError>)
    ensures r.Success? <==> SourceNames(args).Success?
    ensures r.Success? ==> r.value.destination == Rtmt.ToClient
  {
    match SourceNames(args)
    case Failure(e) => Failure(e)
    case Success(names) =>
      Success(Rtmt.ToolResult(JObj([("sources", JArr(GroundingDocs(lookup(Filter(names)))))]), Rtmt.ToClient))
  }

  /** `_report_grounding_tool`, appending the documents hit by hit. */
  method ReportGroundingTool(args: Json, lookup: string -> seq<SearchDoc>) returns (r: Result<Rtmt.ToolResult, PyError>)
    ensures r == GroundingResult(args, lookup)
  {
    var names := SourceNames(args);
    if names.Failure? {
      return Failure(names.error);
    }
    var results := lookup(Filter(names.value));
    var docs := [];
    for i := 0 to |results|
      invariant docs == GroundingDocs(results[..i])
    {
      assert results[..i + 1][..i] == results[..i];
      assert GroundingDocs(results[..i + 1]) == GroundingDocs(results[..i]) + [GroundingDoc(results[i])];
      docs := docs + [GroundingDoc(results[i])];
    }
    assert results[..|results|] == results;
    r := Success(Rtmt.ToolResult(JObj([("sources", JArr(docs))]), Rtmt.ToClient));
  }

  // ---- Registration ----

  const SearchTarget: string := "_search_tool"
  const GroundingTarget: string := "_report_grounding_tool"

  const SearchSchema: Json := JObj([
    ("type", JStr("function")),
    ("name", JStr("search")),
    ("description", JStr("Search the knowledge base. The knowledge base is in English, translate to and from English if " +
                         "needed. Results are formatted as a source name first in square brackets, followed by the text " +
                         "content, and a line with '-----' at the end of each result.")),
    ("parameters", JObj([
      ("type", JStr("object")),
      ("properties", JObj([("query", JObj([("type", JStr("string")), ("description", JStr("Search query"))]))])),
      ("required", JArr([JStr("query")])),
      ("additionalProperties", JBool(false))]))])

  const GroundingSchema: Json := JObj([
    ("type", JStr("function")),
    ("name", JStr("report_grounding")),
    ("description", JStr("Report use of a source from the knowledge base as part of an answer (effectively, cite the source). Sources " +
                         "appear in square brackets before each knowledge base passage. Always use this tool to cite sources when responding " +
                         "with information from the knowledge base.")),
    ("parameters", JObj([
      ("type", JStr("object")),
      ("properties", JObj([("sources", JObj([
        ("type", JStr("array")),
        ("items", JObj([("type", JStr("string"))])),
        ("description", JStr("List of source names from last statement actually used, do not include the ones not used to formulate a response"))]))])),
      ("required", JArr([JStr("sources")])),
      ("additionalProperties", JBool(false))]))])

  const SearchEntry: Rtmt.Tool := Rtmt.Tool(SearchTarget, SearchSchema)
  const GroundingEntry: Rtmt.Tool := Rtmt.Tool(GroundingTarget, GroundingSchema)

  /** The registry with the two tools set, every other entry untouched. */
  function WithRagTools(tools: Rtmt.Tools): (r: Rtmt.Tools)
    ensures OrderedDict.Get(r, "search") == Some(SearchEntry)
    ensures OrderedDict.Get(r, "report_grounding") == Some(GroundingEntry)
    ensures forall k :: k != "search" && k != "report_grounding" ==> OrderedDict.Get(r, k) == OrderedDict.Get(tools, k)
    ensures |r| > 0
  {
    var t1 := OrderedDict.Put(tools, "search", SearchEntry);
    var t2 := OrderedDict.Put(t1, "report_grounding", GroundingEntry);
    OrderedDict.GetPutSame(tools, "search", SearchEntry);
    OrderedDict.GetPutSame(t1, "report_grounding", GroundingEntry);
    assert |"search"| == 6 && |"report_grounding"| == 16;
    OrderedDict.GetPutOther(t1, "report_grounding", GroundingEntry, "search");
    forall k | k != "search" && k != "report_grounding"
      ensures OrderedDict.Get(t2, k) == OrderedDict.Get(tools, k)
    {
      OrderedDict.GetPutOther(tools, "search", SearchEntry, k);
      OrderedDict.GetPutOther(t1, "report_grounding", GroundingEntry, k);
    }
    t2
  }

  /** `attach_rag_tools`: the two entries are assigned on the middle tier; nothing else changes. */
  method AttachRagTools(rtmt: Rtmt.RTMiddleTier)
    modifies rtmt
    ensures rtmt.tools == WithRagTools(old(rtmt.tools))
    ensures rtmt.toolCalls == old(rtmt.toolCalls) && rtmt.sentToServer == old(rtmt.sentToServer)
    ensures rtmt.Settings() == old(rtmt.Settings()) && rtmt.model == old(rtmt.model)
  {
    rtmt.tools := OrderedDict.Put(rtmt.tools, "search", SearchEntry);
    rtmt.tools := OrderedDict.Put(rtmt.tools, "report_grounding", GroundingEntry);
  }

  /** Once the tools are attached, the configuration the server receives always lets the model choose a tool. */
  lemma {:induction false} AttachedToolsAreOffered(fields: OrderedDict.Dict<string, Json>, o: Rtmt.Overrides, tools: Rtmt.Tools)
    ensures OrderedDict.Get(Rtmt.ApplyOverrides(fields, o, WithRagTools(tools)), "tool_choice") == Some(JStr("auto"))
  {
  }

  // ---- The tools as the middle tier calls them ----

  /**
   * One call of a registered target, as `_process_message` awaits it: each
   * resolves to a `ToolResult` object. Only the two targets are ever
   * registered; any other identifier names nothing callable, a TypeError.
   */
  function RunRagTarget(query: Json -> seq<SearchDoc>, lookup: string -> seq<SearchDoc>, target: string, args: Json)
    : (r: Result<Rtmt.TargetResult, PyError>)
    ensures target == SearchTarget ==> (r.Success? <==> PyIndex(args, "query").Success?)
    ensures target == GroundingTarget ==> (r.Success? <==> SourceNames(args).Success?)
    ensures r.Success? ==> r.value.ToolResultObject?
    ensures r.Success? ==> r.value.r.destination == if target == SearchTarget then Rtmt.ToServer else Rtmt.ToClient
    ensures target != SearchTarget && target != GroundingTarget ==> r == Failure(PyError.TypeError)
  {
    var res := if target == SearchTarget then SearchResult(args, query)
               else if target == GroundingTarget then GroundingResult(args, lookup)
               else Failure(PyError.TypeError);
    match res
    case Failure(e) => Failure(e)
    case Success(v) => Success(Rtmt.ToolResultObject(v))
  }

  /** The registered targets as the middle tier's `run` parameter. */
  function RagTargets(query: Json -> seq<SearchDoc>, lookup: string -> seq<SearchDoc>): (string, Json) -> Result<Rtmt.TargetResult, PyError>
  {
    (target: string, args: Json) => RunRagTarget(query, lookup, target, args)
  }

  /**
   * A completed `search` call, answered through the registered target: the
   * target's `ToolResult` is not JSON-serialisable, so the step raises
   * TypeError and no answer reaches the server.
   */
  lemma {:induction false} SearchAnswerRaises(tools: Rtmt.Tools, calls: Rtmt.Calls, message: Json, id: Json, call: Rtmt.RTToolCall,
                           args: Json, parseArgs: string -> Option<Json>, query: Json -> seq<SearchDoc>,
                           lookup: string -> seq<SearchDoc>, dumps: Json -> string)
    requires PyIndex(message, "id") == Success(id) && Hashable(id)
    requires OrderedDict.Get(calls, id) == Some(call) && call.name == JStr("search")
    requires call.arguments.JStr? && parseArgs(call.arguments.s) == Some(args)
    requires PyIndex(args, "query").Success?
    ensures Rtmt.MessageAdded(WithRagTools(tools), calls, message, parseArgs, RagTargets(query, lookup), dumps)
      == Rtmt.Effect(Failure(PyError.TypeError), calls, [])
  {
    var run := RagTargets(query, lookup);
    var res := SearchResult(args, query).value;
    assert run(SearchTarget, args) == Success(Rtmt.ToolResultObject(res));
    Rtmt.ToolResultObjectRaises(WithRagTools(tools), calls, message, id, call, SearchEntry, args, res, parseArgs, run, dumps);
  }
}
