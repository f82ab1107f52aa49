/**
 * The decoded body of a CoinMarketCap reply, and the HTTP exchange around it.
 * Only the shapes the integration inspects are distinguished: objects,
 * numbers and `null`.
 */
module Json {
  import opened Wrappers

  datatype Json = JObject(fields: map<string, Json>) | JNumber(number: real) | JNull

  /** What subscripting or a membership test on a decoded body can raise. */
  datatype PyError =
    | KeyError(key: string)   // `d[k]` with `k` not a key of the dict `d`
    | TypeError               // `x[k]` or `k in x` where `x` is a number or None

  /**
   * One request: either the server answered (status and decoded body), or the
   * request raised (transport failure, undecodable body).
   */
  datatype HttpReply = Reply(status: int, body: Json) | Raised

  /** `j[key]` */
  function Get(j: Json, key: string): (r: Result<Json, PyError>)
    ensures r.Success? <==> j.JObject? && key in j.fields
    ensures r.Success? ==> r.value == j.fields[key]
  {
    match j
    case JObject(fields) => if key in fields then Success(fields[key]) else Failure(KeyError(key))
    case _ => Failure(TypeError)
  }

  /** `j[k0][k1]...[kn]`, raising at the first step that fails. */
  function Path(j: Json, keys: seq<string>): (r: Result<Json, PyError>)
    ensures keys == [] ==> r == Success(j)
    ensures keys != [] && Get(j, keys[0]).Failure? ==> r == Get(j, keys[0])
    ensures |keys| == 1 ==> r == Get(j, keys[0])
    ensures r.Failure? && r.error.KeyError? ==> r.error.key in keys
    decreases |keys|
  {
    if keys == [] then Success(j)
    else
      match Get(j, keys[0])
      case Success(child) => Path(child, keys[1..])
      case Failure(e) => Failure(e)
  }

  /** Following a chain and then another is following their concatenation. */
  lemma {:induction false} PathConcat(j: Json, a: seq<string>, b: seq<string>)
    ensures Path(j, a + b) == if Path(j, a).Success? then Path(Path(j, a).value, b) else Path(j, a)
    decreases |a|
  {
    if a != [] {
      assert (a + b)[0] == a[0] && (a + b)[1..] == a[1..] + b;
      match Get(j, a[0])
      case Success(child) =>
        assert Path(j, a + b) == Path(child, a[1..] + b);
        assert Path(j, a) == Path(child, a[1..]);
        PathConcat(child, a[1..], b);
      case Failure(e) =>
        assert Path(j, a + b) == Failure(e) == Path(j, a);
    } else {
      assert a + b == b;
    }
  }

  /** `key in j` */
  function Has(j: Json, key: string): (r: Result<bool, PyError>)
    ensures r.Success? <==> j.JObject?
    ensures r.Success? ==> (r.value <==> key in j.fields)
  {
    match j
    case JObject(fields) => Success(key in fields)
    case _ => Failure(TypeError)
  }
}
