/**
 * The outgoing action request `{action, echo, params}` and its by-value
 * builder: each setter replaces one field and leaves the others alone.
 */
module ActionType {
  import opened Wrappers
  import opened Json

  datatype NapcatRequestData = NapcatRequestData(action: string, echo: string, params: Json)

  /** `new`: an empty action, an empty echo and null params. */
  function New(): (d: NapcatRequestData)
    ensures d.action == "" && d.echo == "" && d.params == Null
  {
    NapcatRequestData("", "", Null)
  }

  /** `Default` is `new`. */
  function Default(): (d: NapcatRequestData)
    ensures d == New()
  {
    New()
  }

  function WithAction(d: NapcatRequestData, action: string): (r: NapcatRequestData)
    ensures r.action == action && r.echo == d.echo && r.params == d.params
  {
    d.(action := action)
  }

  function WithEcho(d: NapcatRequestData, echo: string): (r: NapcatRequestData)
    ensures r.echo == echo && r.action == d.action && r.params == d.params
  {
    d.(echo := echo)
  }

  function WithParams(d: NapcatRequestData, params: Json): (r: NapcatRequestData)
    ensures r.params == params && r.action == d.action && r.echo == d.echo
  {
    d.(params := params)
  }

  /** A later call of a setter overrides an earlier one. */
  lemma LaterSetterWins(d: NapcatRequestData, a: string, b: string, p: Json, q: Json)
    ensures WithAction(WithAction(d, a), b) == WithAction(d, b)
    ensures WithEcho(WithEcho(d, a), b) == WithEcho(d, b)
    ensures WithParams(WithParams(d, p), q) == WithParams(d, q)
  {
  }

  /** Setters of different fields commute. */
  lemma SettersCommute(d: NapcatRequestData, a: string, e: string, p: Json)
    ensures WithEcho(WithAction(d, a), e) == WithAction(WithEcho(d, e), a)
    ensures WithParams(WithAction(d, a), p) == WithAction(WithParams(d, p), a)
    ensures WithParams(WithEcho(d, e), p) == WithEcho(WithParams(d, p), e)
  {
  }

  /** The derived serialiser: an object with exactly the three fields. */
  function ToValue(d: NapcatRequestData): (v: Json)
    ensures v.Obj? && v.fields.Keys == {"action", "echo", "params"}
    ensures Get(v, "echo") == Some(Str(d.echo))
  {
    Obj(map["action" := Str(d.action), "echo" := Str(d.echo), "params" := d.params])
  }

  /** The derived deserialiser. */
  function FromValue(v: Json): Result<NapcatRequestData, DecodeError> {
    if !v.Obj? then Err(NotAnObject)
    else
      var action :- StrField(v.fields, "action");
      var echo :- StrField(v.fields, "echo");
      var params :- Field(v.fields, "params");
      Ok(NapcatRequestData(action, echo, params))
  }

  lemma ValueRoundTrip(d: NapcatRequestData)
    ensures FromValue(ToValue(d)) == Ok(d)
  {
  }
}
