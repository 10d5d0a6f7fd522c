/**
 * The function editor of the dashboard: the parameter tables of a function
 * (query and header, each an object from key to type name), the test
 * arguments derived from them, adding and deleting parameters, when the form
 * may be submitted, and the request `handleApiCall` sends.
 *
 * A JavaScript object is modelled as its entries in insertion order. Lookup
 * takes the last entry with the key, which is the only one in a table built
 * by Put, since Put overwrites an existing key where it stands.
 */
module FunctionEditor {
  import opened Options
  import opened Text

  datatype Entry<V> = Entry(key: string, value: V)

  /** `Object.keys(t)` as a set. */
  function Keys<V>(t: seq<Entry<V>>): set<string>
  {
    if t == [] then {} else Keys(t[..|t| - 1]) + {t[|t| - 1].key}
  }

  /** `t[k]`: None when the key is absent. */
  function Lookup<V>(t: seq<Entry<V>>, k: string): (r: Option<V>)
    ensures r.Some? <==> k in Keys(t)
  {
    if t == [] then None
    else if t[|t| - 1].key == k then Some(t[|t| - 1].value)
    else Lookup(t[..|t| - 1], k)
  }

  /** No key occurs twice, as in any JavaScript object. */
  predicate Unique<V>(t: seq<Entry<V>>) {
    forall i, j :: 0 <= i < j < |t| ==> t[i].key != t[j].key
  }

  lemma {:induction false} KeysAt<V>(t: seq<Entry<V>>, k: string)
    ensures k in Keys(t) <==> exists i :: 0 <= i < |t| && t[i].key == k
  {
    if t != [] {
      KeysAt(t[..|t| - 1], k);
      if k in Keys(t[..|t| - 1]) {
        var i :| 0 <= i < |t| - 1 && t[..|t| - 1][i].key == k;
        assert t[i].key == k;
      }
      if exists i :: 0 <= i < |t| && t[i].key == k {
        var i :| 0 <= i < |t| && t[i].key == k;
        if i < |t| - 1 {
          assert t[..|t| - 1][i].key == k;
        }
      }
    }
  }

  /** Every entry with key `k` takes value `v`; the keys and their order stay. */
  function Replace<V>(t: seq<Entry<V>>, k: string, v: V): (r: seq<Entry<V>>)
    ensures |r| == |t| && Keys(r) == Keys(t)
    ensures forall i :: 0 <= i < |t| ==> r[i].key == t[i].key
    ensures k in Keys(t) ==> Lookup(r, k) == Some(v)
    ensures forall j :: j != k ==> Lookup(r, j) == Lookup(t, j)
  {
    if t == [] then []
    else
      var last := t[|t| - 1];
      var init := Replace(t[..|t| - 1], k, v);
      assert (init + [if last.key == k then Entry(k, v) else last])[..|t| - 1] == init;
      init + [if last.key == k then Entry(k, v) else last]
  }

  /** `{ ...t, [k]: v }`: an existing key keeps its place and takes the new value, a new key goes last. */
  function Put<V>(t: seq<Entry<V>>, k: string, v: V): (r: seq<Entry<V>>)
    ensures Keys(r) == Keys(t) + {k}
    ensures Lookup(r, k) == Some(v)
    ensures forall j :: j != k ==> Lookup(r, j) == Lookup(t, j)
  {
    if k in Keys(t) then Replace(t, k, v)
    else
      assert (t + [Entry(k, v)])[..|t|] == t;
      t + [Entry(k, v)]
  }

  /** `delete t[k]`: the entries with that key go, the others keep their order. */
  function Remove<V>(t: seq<Entry<V>>, k: string): (r: seq<Entry<V>>)
    ensures Keys(r) == Keys(t) - {k}
    ensures Lookup(r, k) == None
    ensures forall j :: j != k ==> Lookup(r, j) == Lookup(t, j)
  {
    if t == [] then []
    else
      var last := t[|t| - 1];
      var init := Remove(t[..|t| - 1], k);
      if last.key == k then init
      else
        assert (init + [last])[..|init|] == init;
        init + [last]
  }

  /** Removing a key that is not there changes nothing. */
  lemma {:induction false} RemoveAbsent<V>(t: seq<Entry<V>>, k: string)
    requires k !in Keys(t)
    ensures Remove(t, k) == t
  {
    if t != [] {
      RemoveAbsent(t[..|t| - 1], k);
      assert t == t[..|t| - 1] + [t[|t| - 1]];
    }
  }

  /** Adding a new key and deleting it again gives the table back. */
  lemma RemovePut<V>(t: seq<Entry<V>>, k: string, v: V)
    requires k !in Keys(t)
    ensures Remove(Put(t, k, v), k) == t
  {
    var r := t + [Entry(k, v)];
    assert r[..|r| - 1] == t;
    RemoveAbsent(t, k);
  }

  /** Put and Remove keep the keys of a table distinct. */
  lemma PutKeepsUnique<V>(t: seq<Entry<V>>, k: string, v: V)
    requires Unique(t)
    ensures Unique(Put(t, k, v))
  {
    if k !in Keys(t) {
      KeysAt(t, k);
      var r := t + [Entry(k, v)];
      assert forall i :: 0 <= i < |t| ==> r[i] == t[i];
    }
  }

  lemma {:induction false} RemoveKeepsUnique<V>(t: seq<Entry<V>>, k: string)
    requires Unique(t)
    ensures Unique(Remove(t, k))
  {
    if t != [] {
      var init := t[..|t| - 1];
      var last := t[|t| - 1];
      assert Unique(init);
      RemoveKeepsUnique(init, k);
      if last.key != k {
        var ri := Remove(init, k);
        KeysAt(ri, last.key);
        KeysAt(init, last.key);
        assert last.key !in Keys(init);
        var r := ri + [last];
        assert forall i :: 0 <= i < |ri| ==> r[i] == ri[i];
      }
    }
  }

  // ---------------------------------------------------------------------------
  // Parameters and test arguments
  // ---------------------------------------------------------------------------

  datatype Location = Query | Header

  /** `formData.parameters`: a table from key to type name for each location. */
  datatype Parameters = Parameters(query: seq<Entry<string>>, header: seq<Entry<string>>)

  function At(p: Parameters, loc: Location): seq<Entry<string>> {
    match loc
    case Query => p.query
    case Header => p.header
  }

  /** `{ ...parameters, [loc]: t }`. */
  function With(p: Parameters, loc: Location, t: seq<Entry<string>>): (q: Parameters)
    ensures At(q, loc) == t
    ensures forall other :: other != loc ==> At(q, other) == At(p, other)
  {
    match loc
    case Query => p.(query := t)
    case Header => p.(header := t)
  }

  /** Each location is a JavaScript object, so its keys are distinct. */
  predicate DistinctKeys(p: Parameters) {
    Unique(p.query) && Unique(p.header)
  }

  /** Replacing one location's table by a table with distinct keys keeps every key set distinct. */
  lemma WithKeepsDistinct(p: Parameters, loc: Location, t: seq<Entry<string>>)
    requires DistinctKeys(p) && Unique(t)
    ensures DistinctKeys(With(p, loc, t))
  {
    assert At(With(p, loc, t), Query) == if loc == Query then t else p.query;
    assert At(With(p, loc, t), Header) == if loc == Header then t else p.header;
  }

  /** The JSON values the editor produces. */
  datatype Json =
    | JNull
    | JBool(b: bool)
    | JNum(n: int)
    | JStr(s: string)
    | JObj(fields: seq<Entry<Json>>)

  /** The zero value of a parameter type; any other type name gets `null`. */
  function DefaultFor(paramType: string): (v: Json)
    ensures paramType == "string" <==> v == JStr("")
    ensures paramType == "number" <==> v == JNum(0)
    ensures paramType == "boolean" <==> v == JBool(false)
    ensures paramType !in {"string", "number", "boolean"} <==> v == JNull
  {
    if paramType == "string" then JStr("")
    else if paramType == "number" then JNum(0)
    else if paramType == "boolean" then JBool(false)
    else JNull
  }

  /** One `forEach` over a table: each entry writes the default of its type under its key. */
  function Assign(args: map<string, Json>, t: seq<Entry<string>>): map<string, Json>
  {
    if t == [] then args
    else Assign(args, t[..|t| - 1])[t[|t| - 1].key := DefaultFor(t[|t| - 1].value)]
  }

  /** The test arguments the effect on `formData.parameters` computes: query first, then header. */
  function DefaultArgs(p: Parameters): map<string, Json>
  {
    Assign(Assign(map[], p.query), p.header)
  }

  lemma {:induction false} AssignSpec(args: map<string, Json>, t: seq<Entry<string>>)
    ensures forall k :: k in Assign(args, t) <==> k in args || k in Keys(t)
    ensures forall k :: k in Keys(t) ==> Assign(args, t)[k] == DefaultFor(Lookup(t, k).value)
    ensures forall k :: k in args && k !in Keys(t) ==> Assign(args, t)[k] == args[k]
  {
    if t != [] {
      AssignSpec(args, t[..|t| - 1]);
    }
  }

  /**
   * Every query and header key has exactly one test argument, the zero value
   * of its type; for a key in both tables the header's type decides.
   */
  lemma DefaultArgsSpec(p: Parameters)
    ensures forall k :: k in DefaultArgs(p) <==> k in Keys(p.query) + Keys(p.header)
    ensures forall k :: k in Keys(p.header) ==> DefaultArgs(p)[k] == DefaultFor(Lookup(p.header, k).value)
    ensures forall k :: k in Keys(p.query) && k !in Keys(p.header) ==>
              DefaultArgs(p)[k] == DefaultFor(Lookup(p.query, k).value)
  {
    AssignSpec(map[], p.query);
    AssignSpec(Assign(map[], p.query), p.header);
  }

  /** The submit button's `disabled` expression, negated. */
  predicate SubmitEnabled(isSubmitting: bool, isDeleting: bool, name: string, endpoint: string, testArgs: map<string, Json>) {
    !isSubmitting && !isDeleting && name != "" && endpoint != "" && |testArgs| != 0
  }

  /** With the derived test arguments, a function without parameters cannot be submitted. */
  lemma SubmitNeedsParameter(isSubmitting: bool, isDeleting: bool, name: string, endpoint: string, p: Parameters)
    ensures SubmitEnabled(isSubmitting, isDeleting, name, endpoint, DefaultArgs(p)) <==>
              && !isSubmitting && !isDeleting && name != "" && endpoint != ""
              && (Keys(p.query) != {} || Keys(p.header) != {})
  {
    DefaultArgsSpec(p);
    var args := DefaultArgs(p);
    if Keys(p.query) != {} || Keys(p.header) != {} {
      var k :| k in Keys(p.query) + Keys(p.header);
      assert k in args;
    } else {
      assert args.Keys == {};
    }
  }

  /** `formData.parameters[loc][key]` is truthy: the key is there with a non-empty type name. */
  predicate Taken(t: seq<Entry<string>>, key: string) {
    Lookup(t, key).Some? && Lookup(t, key).value != ""
  }

  function AlreadyExists(key: string): string {
    "Parameter \"" + key + "\" already exists"
  }

  class ModalForm {
    var name: string
    var endpoint: string
    var parameters: Parameters
    var testArgs: map<string, Json>
    var newParamKey: string
    var newParamType: string
    var newParamLocation: Location
    var paramError: string

    /** The parameter tables are objects: no key appears twice in one of them. */
    predicate Valid()
      reads this
    {
      DistinctKeys(parameters)
    }

    /** The form opened on a function; the effect fills the test arguments on mount. */
    constructor (name: string, endpoint: string, parameters: Parameters)
      requires DistinctKeys(parameters)
      ensures Valid()
      ensures this.name == name && this.endpoint == endpoint && this.parameters == parameters
      ensures testArgs == DefaultArgs(parameters)
      ensures newParamKey == "" && newParamType == "string" && newParamLocation == Query && paramError == ""
    {
      this.name := name;
      this.endpoint := endpoint;
      this.parameters := parameters;
      testArgs := map[];
      newParamKey := "";
      newParamType := "string";
      newParamLocation := Query;
      paramError := "";
      new;
      ResetTestArgs();
    }

    /** The effect on `[formData.parameters]`: the two `forEach` loops, then `setTestArgs`. */
    method ResetTestArgs()
      modifies this`testArgs
      ensures testArgs == DefaultArgs(parameters)
    {
      var q, h := parameters.query, parameters.header;
      var defaultArgs: map<string, Json> := map[];
      var i := 0;
      while i < |q|
        invariant 0 <= i <= |q|
        invariant defaultArgs == Assign(map[], q[..i])
      {
        assert q[..i + 1][..i] == q[..i];
        defaultArgs := defaultArgs[q[i].key := DefaultFor(q[i].value)];
        i := i + 1;
      }
      assert q[..|q|] == q;
      ghost var afterQuery := defaultArgs;
      i := 0;
      while i < |h|
        invariant 0 <= i <= |h|
        invariant defaultArgs == Assign(afterQuery, h[..i])
      {
        assert h[..i + 1][..i] == h[..i];
        defaultArgs := defaultArgs[h[i].key := DefaultFor(h[i].value)];
        i := i + 1;
      }
      assert h[..|h|] == h;
      testArgs := defaultArgs;
    }

    /**
     * `addParameter`: a blank key does nothing; a key already taken in the
     * chosen location only sets the error; otherwise the key is added there
     * with the chosen type, the inputs are reset and, the parameters having
     * changed, the effect recomputes the test arguments.
     */
    method AddParameter()
      requires Valid()
      modifies this`parameters, this`newParamKey, this`newParamType, this`paramError, this`testArgs
      ensures Valid()
      ensures var key := Trim(old(newParamKey));
              key == "" ==>
                && parameters == old(parameters) && newParamKey == old(newParamKey)
                && newParamType == old(newParamType) && paramError == old(paramError) && testArgs == old(testArgs)
      ensures var key := Trim(old(newParamKey));
              key != "" && Taken(At(old(parameters), newParamLocation), key) ==>
                && paramError == AlreadyExists(key)
                && parameters == old(parameters) && newParamKey == old(newParamKey)
                && newParamType == old(newParamType) && testArgs == old(testArgs)
      ensures var key := Trim(old(newParamKey));
              key != "" && !Taken(At(old(parameters), newParamLocation), key) ==>
                && parameters == With(old(parameters), newParamLocation,
                                      Put(At(old(parameters), newParamLocation), key, old(newParamType)))
                && newParamKey == "" && newParamType == "string" && paramError == ""
                && testArgs == DefaultArgs(parameters)
    {
      var trimmedKey := Trim(newParamKey);
      if trimmedKey == "" {
        return;
      }
      var table := At(parameters, newParamLocation);
      if Taken(table, trimmedKey) {
        paramError := AlreadyExists(trimmedKey);
        return;
      }
      PutKeepsUnique(table, trimmedKey, newParamType);
      WithKeepsDistinct(parameters, newParamLocation, Put(table, trimmedKey, newParamType));
      parameters := With(parameters, newParamLocation, Put(table, trimmedKey, newParamType));
      newParamKey := "";
      newParamType := "string";
      paramError := "";
      ResetTestArgs();
    }

    /** The delete button of one parameter row, followed by the effect. */
    method DeleteParameter(loc: Location, key: string)
      requires Valid()
      modifies this`parameters, this`testArgs
      ensures Valid()
      ensures parameters == With(old(parameters), loc, Remove(At(old(parameters), loc), key))
      ensures testArgs == DefaultArgs(parameters)
    {
      assert Unique(At(parameters, loc));
      RemoveKeepsUnique(At(parameters, loc), key);
      WithKeepsDistinct(parameters, loc, Remove(At(parameters, loc), key));
      parameters := With(parameters, loc, Remove(At(parameters, loc), key));
      ResetTestArgs();
    }
  }

  /**
   * Adding a new key makes it a parameter of the chosen location only, with
   * the chosen type, and gives it the zero value of that type as test
   * argument unless the header table already holds it.
   */
  lemma AddedParameterGetsDefault(p: Parameters, loc: Location, key: string, paramType: string)
    requires loc == Header || key !in Keys(p.header)
    ensures var q := With(p, loc, Put(At(p, loc), key, paramType));
            && Lookup(At(q, loc), key) == Some(paramType)
            && (forall other :: other != loc ==> At(q, other) == At(p, other))
            && key in DefaultArgs(q) && DefaultArgs(q)[key] == DefaultFor(paramType)
  {
    var q := With(p, loc, Put(At(p, loc), key, paramType));
    DefaultArgsSpec(q);
  }

  /** Deleting a parameter that no other location holds drops its test argument. */
  lemma DeletedParameterLosesArg(p: Parameters, loc: Location, key: string)
    requires forall other :: other != loc ==> key !in Keys(At(p, other))
    ensures key !in DefaultArgs(With(p, loc, Remove(At(p, loc), key)))
  {
    var q := With(p, loc, Remove(At(p, loc), key));
    DefaultArgsSpec(q);
    assert key !in Keys(q.query) && key !in Keys(q.header) by {
      assert At(q, loc) == Remove(At(p, loc), key);
      assert loc == Query ==> key !in Keys(At(p, Header));
      assert loc == Header ==> key !in Keys(At(p, Query));
    }
  }

  // ---------------------------------------------------------------------------
  // handleApiCall
  // ---------------------------------------------------------------------------

  /** A value written into a template literal. */
  function Render(v: Option<Json>): string {
    match v
    case None => "undefined"
    case Some(JNull) => "null"
    case Some(JBool(b)) => if b then "true" else "false"
    case Some(JNum(n)) => IntToString(n)
    case Some(JStr(s)) => s
    case Some(JObj(_)) => "[object Object]"
  }

  /** A `localStorage` item: a string, or `null` when it is not set. */
  function Stored(item: Option<string>): Json {
    if item.Some? then JStr(item.value) else JNull
  }

  /** `{ ...base, ...data }`: the entries of `data` put one after the other. */
  function Spread(base: seq<Entry<Json>>, data: seq<Entry<Json>>): seq<Entry<Json>>
  {
    if data == [] then base
    else Put(Spread(base, data[..|data| - 1]), data[|data| - 1].key, data[|data| - 1].value)
  }

  lemma {:induction false} SpreadSpec(base: seq<Entry<Json>>, data: seq<Entry<Json>>)
    ensures Keys(Spread(base, data)) == Keys(base) + Keys(data)
    ensures forall k :: k in Keys(data) ==> Lookup(Spread(base, data), k) == Lookup(data, k)
    ensures forall k :: k !in Keys(data) ==> Lookup(Spread(base, data), k) == Lookup(base, k)
  {
    if data != [] {
      SpreadSpec(base, data[..|data| - 1]);
    }
  }

  /** A key of `base` keeps its place when another object is spread over it. */
  lemma {:induction false} SpreadKeepsPlace(base: seq<Entry<Json>>, data: seq<Entry<Json>>)
    ensures |Spread(base, data)| >= |base|
    ensures forall i :: 0 <= i < |base| ==> Spread(base, data)[i].key == base[i].key
  {
    if data != [] {
      SpreadKeepsPlace(base, data[..|data| - 1]);
      var s := Spread(base, data[..|data| - 1]);
      var k := data[|data| - 1].key;
      if k !in Keys(s) {
        assert forall i :: 0 <= i < |s| ==> (s + [Entry(k, data[|data| - 1].value)])[i] == s[i];
      }
    }
  }

  /** What `fetch` is called with. `body == None` is `body: undefined`. */
  datatype ApiRequest = ApiRequest(url: string, authorization: string, body: Option<seq<Entry<Json>>>)

  /**
   * The request of `handleApiCall(endpoint, data)`. `apiBase` is
   * `API_BASE_URL`; the token and assistant id are what `localStorage` holds.
   */
  function ApiRequestFor(apiBase: string, endpoint: string, data: seq<Entry<Json>>,
                         authToken: Option<string>, assistantId: Option<string>): (r: ApiRequest)
    ensures StartsWith(r.url, apiBase + "/function/" + endpoint)
    ensures endpoint != "delete" ==> r.url == apiBase + "/function/" + endpoint
    ensures r.body == None <==> endpoint == "delete"
  {
    var url := apiBase + "/function/" + endpoint
               + (if endpoint == "delete" then "?functionId=" + Render(Lookup(data, "functionId")) else "");
    assert url[..|apiBase + "/function/" + endpoint|] == apiBase + "/function/" + endpoint;
    ApiRequest(
      url,
      "Bearer " + Render(Some(Stored(authToken))),
      if endpoint == "delete" then None else Some(Spread([Entry("assistantId", Stored(assistantId))], data)))
  }

  /** A delete carries the function id in the query string and sends no body. */
  lemma DeleteRequest(apiBase: string, data: seq<Entry<Json>>, id: string,
                      authToken: Option<string>, assistantId: Option<string>)
    requires Lookup(data, "functionId") == Some(JStr(id))
    ensures ApiRequestFor(apiBase, "delete", data, authToken, assistantId).url ==
              apiBase + "/function/" + "delete" + ("?functionId=" + id)
    ensures ApiRequestFor(apiBase, "delete", data, authToken, assistantId).body == None
  {
  }

  /**
   * Any other call sends `assistantId` first, then every field of `data`;
   * a field of `data` named `assistantId` wins over the stored one.
   */
  lemma BodyOfOtherCalls(apiBase: string, endpoint: string, data: seq<Entry<Json>>,
                         authToken: Option<string>, assistantId: Option<string>)
    requires endpoint != "delete"
    ensures var body := ApiRequestFor(apiBase, endpoint, data, authToken, assistantId).body.value;
            && |body| >= 1 && body[0].key == "assistantId"
            && Keys(body) == {"assistantId"} + Keys(data)
            && (forall k :: k in Keys(data) ==> Lookup(body, k) == Lookup(data, k))
            && ("assistantId" !in Keys(data) ==> Lookup(body, "assistantId") == Some(Stored(assistantId)))
  {
    var base := [Entry("assistantId", Stored(assistantId))];
    SpreadSpec(base, data);
    SpreadKeepsPlace(base, data);
    assert base[..0] == [];
  }

  /** The body `response.json()` gives: its `message` ("" when falsy), or the message of the rejection. */
  datatype JsonResult = NotJson(message: string) | Parsed(message: string)

  /**
   * How `handleApiCall` ends once `fetch` has resolved: None when it returns
   * the result, otherwise the message of the error it throws.
   */
  function CallFailure(ok: bool, result: JsonResult, endpoint: string): (e: Option<string>)
    ensures e == None <==> ok && result.Parsed?
    ensures !ok && result.Parsed? && result.message != "" ==> e == Some(result.message)
    ensures !ok && result.Parsed? && result.message == "" ==> e == Some("Failed to " + endpoint + " function")
  {
    match result
    case NotJson(m) => Some(m)
    case Parsed(message) =>
      if ok then None
      else Some(if message != "" then message else "Failed to " + endpoint + " function")
  }
}
