/**
 * Parsed JSON values, shared by the browser client (JavaScript) and the
 * middle tier (Python), and the two languages' ways of reading a member.
 * An object keeps its members in document order, as both `JSON.parse`
 * and `json.loads` do.
 */
module Json {
  import opened Wrappers
  import OrderedDict

  datatype Json =
    | JNull
    | JBool(b: bool)
    | JNum(n: real)
    | JStr(s: string)
    | JArr(items: seq<Json>)
    | JObj(fields: OrderedDict.Dict<string, Json>)

  /** The exceptions JavaScript code in the client can raise on the modelled paths. */
  datatype JsError = SyntaxError | TypeError | InvalidCharacterError | RangeError

  /** The exceptions Python code in the middle tier can raise on the modelled paths. */
  datatype PyError = JsonDecodeError | KeyError | TypeError

  /**
   * JavaScript `v.k` on a parsed value: reading a member of `null` throws,
   * a member an object lacks is `undefined` (None), and strings, numbers,
   * booleans and arrays have none of the members the client reads.
   */
  function JsProp(v: Json, k: string): (r: Result<Option<Json>, JsError>)
    ensures r.Failure? <==> v.JNull?
    ensures v.JObj? ==> r == Success(OrderedDict.Get(v.fields, k))
  {
    match v
    case JNull => Failure(JsError.TypeError)
    case JObj(fields) => Success(OrderedDict.Get(fields, k))
    case _ => Success(None)
  }

  /** Python `v[k]` with a string key: a dict lookup or KeyError; any other value raises TypeError. */
  function PyIndex(v: Json, k: string): (r: Result<Json, PyError>)
    ensures r.Success? <==> v.JObj? && k in OrderedDict.Keys(v.fields)
    ensures r.Success? ==> OrderedDict.Get(v.fields, k) == Some(r.value)
  {
    match v
    case JObj(fields) =>
      (match OrderedDict.Get(fields, k)
       case Some(x) => Success(x)
       case None => Failure(KeyError))
    case _ => Failure(PyError.TypeError)
  }

  /** Python dict keys must be hashable: lists and dicts are not. */
  predicate Hashable(v: Json)
  {
    !v.JArr? && !v.JObj?
  }

  /** Python `message[k] = v` on a dict. */
  function PySet(fields: OrderedDict.Dict<string, Json>, k: string, v: Json): (r: OrderedDict.Dict<string, Json>)
    ensures OrderedDict.Get(r, k) == Some(v)
    ensures forall k' :: k' != k ==> OrderedDict.Get(r, k') == OrderedDict.Get(fields, k')
  {
    OrderedDict.GetPutSame(fields, k, v);
    forall k' | k' != k ensures OrderedDict.Get(OrderedDict.Put(fields, k, v), k') == OrderedDict.Get(fields, k') {
      OrderedDict.GetPutOther(fields, k, v, k');
    }
    OrderedDict.Put(fields, k, v)
  }

  /** Python iteration over a parsed value (`for x in v`, `enumerate(v)`) and `len(v)`. */
  function PyIter(v: Json): (r: Result<seq<Json>, PyError>)
    ensures v.JArr? ==> r == Success(v.items)
    ensures r.Failure? <==> !(v.JArr? || v.JObj? || v.JStr?)
  {
    match v
    case JArr(items) => Success(items)
    case JObj(fields) => Success(seq(|fields|, i requires 0 <= i < |fields| => JStr(fields[i].0)))
    case JStr(s) => Success(seq(|s|, i requires 0 <= i < |s| => JStr([s[i]])))
    case _ => Failure(PyError.TypeError)
  }
}
