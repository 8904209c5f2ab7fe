/** The values that cross the application's boundaries: Python dicts of text, the
    exceptions the core raises, the outcome of one LLM completion call, and the shape of
    what `json.loads` returns. */
module Boundary {

  datatype Option<T> = None | Some(value: T)

  /** The Python exceptions that escape the modelled functions. */
  datatype Error =
    | KeyError(key: string)          // `d[key]` on a dict without `key`
    | ValueError(message: string)    // raised by `configure_litellm`
    | StopIteration                  // `next(...)` over an empty generator
    | RuntimeFailure                 // any other exception re-raised by a retry loop

  datatype Result<T> = Ok(value: T) | Err(error: Error)

  /** A Python dict whose values are strings (personas, knowledge sources, messages). */
  type Dict = map<string, string>

  /** The outcome of one `litellm.completion` call: the message content, or an exception. */
  datatype Completion = Completed(text: string) | Failed

  /** What `json.loads` may return, as far as the core looks at it: an object is seen
      through its string-valued members; numbers, booleans and null are `JOther`. */
  datatype Json =
    | JString(text: string)
    | JObject(fields: Dict)
    | JArray(items: seq<Json>)
    | JOther

  /** The `task_details` dict: "task" is always supplied by its callers, the other two keys
      may be absent. */
  datatype TaskDetails = TaskDetails(task: string, goals: Option<string>, referenceUrls: Option<seq<string>>)

  /** A chat message as sent to the completion API. */
  datatype Message = Message(role: string, content: string)

  /** `d.get(key, default)` */
  function Get(d: Dict, key: string, default: string): string {
    if key in d then d[key] else default
  }

  predicate HasKeys(d: Dict, keys: seq<string>) {
    forall j :: 0 <= j < |keys| ==> keys[j] in d
  }

  /** The first of `keys`, in order, that `d` lacks: the KeyError a run of `d[k]` lookups raises. */
  function FirstMissing(d: Dict, keys: seq<string>): (r: Option<string>)
    ensures r.None? <==> HasKeys(d, keys)
    ensures r.Some? ==> r.value in keys && r.value !in d
  {
    if |keys| == 0 then None
    else if keys[0] !in d then Some(keys[0])
    else
      var r := FirstMissing(d, keys[1..]);
      assert forall j :: 1 <= j < |keys| ==> keys[j] == keys[1..][j - 1];
      r
  }

  predicate AllNamed(ps: seq<Dict>) {
    forall i :: 0 <= i < |ps| ==> "name" in ps[i]
  }

  /** `[p["name"] for p in personas]` */
  function Names(ps: seq<Dict>): (r: seq<string>)
    requires AllNamed(ps)
    ensures |r| == |ps| && forall i :: 0 <= i < |ps| ==> r[i] == ps[i]["name"]
  {
    seq(|ps|, i requires 0 <= i < |ps| => ps[i]["name"])
  }

  /** The KeyError raised by looking up `keys` in each of `ds`, dict by dict. */
  function MissingKey(ds: seq<Dict>, keys: seq<string>): (r: Option<string>)
    ensures r.None? <==> forall i :: 0 <= i < |ds| ==> HasKeys(ds[i], keys)
    ensures r.Some? ==> r.value in keys
  {
    if |ds| == 0 then None
    else if FirstMissing(ds[0], keys).Some? then FirstMissing(ds[0], keys)
    else
      var r := MissingKey(ds[1..], keys);
      assert forall i :: 1 <= i < |ds| ==> ds[i] == ds[1..][i - 1];
      r
  }
}
