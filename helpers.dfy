/**
 * The parameter normaliser of app/utils/helpers.py: looking up one raw
 * query parameter, and telling the two phone dialects apart.
 */
module Helpers {

  /** One raw parameter: a single string, or a list of strings, which `get_param` also accepts. */
  datatype ParamValue = Scalar(text: string) | Multi(items: seq<string>)

  /** The flat parameter map of one action-URL callback. */
  type Params = map<string, ParamValue>

  /** The value `get_param` falls back to when the caller gives no default. */
  const UnknownText: string := "unknown"

  /** The vendor dialect a callback is written in. */
  datatype PhoneType = Yealink | Cisco | UnknownType

  /**
   * `get_param(params, name, default)`: the stored value, or the default
   * when the key is absent; a non-empty list, stored or default, is
   * replaced by its first element, and an empty list is kept as it is.
   */
  function GetParamOr(params: Params, name: string, default: ParamValue): (r: ParamValue)
    ensures name in params && params[name].Scalar? ==> r == params[name]
    ensures name in params && params[name] == Multi([]) ==> r == params[name]
    ensures name in params && params[name].Multi? && params[name].items != [] ==>
      r == Scalar(params[name].items[0])
    ensures name !in params && (default.Scalar? || default == Multi([])) ==> r == default
    ensures name !in params && default.Multi? && default.items != [] ==>
      r == Scalar(default.items[0])
    ensures r.Multi? ==> r == Multi([])
  {
    var value := if name in params then params[name] else default;
    if value.Multi? && |value.items| > 0 then Scalar(value.items[0]) else value
  }

  /** `get_param(params, name)` with the default left out: it is "unknown". */
  function GetParam(params: Params, name: string): (r: ParamValue)
    ensures name !in params ==> r == Scalar("unknown")
    ensures name in params && params[name].Scalar? ==> r == params[name]
    ensures name in params && params[name] == Multi([]) ==> r == Multi([])
    ensures name in params && params[name].Multi? && params[name].items != [] ==>
      r == Scalar(params[name].items[0])
  {
    GetParamOr(params, name, Scalar(UnknownText))
  }

  /** `determine_phone_type`: the `phone` key means Yealink and wins over `mac`, which means Cisco. */
  function DeterminePhoneType(params: Params): (r: PhoneType)
    ensures r == Yealink <==> "phone" in params
    ensures r == Cisco <==> "mac" in params && "phone" !in params
    ensures r == UnknownType <==> "phone" !in params && "mac" !in params
  {
    if "phone" in params then Yealink
    else if "mac" in params then Cisco
    else UnknownType
  }

  /**
   * The parameter maps the HTTP layer can hand over: it passes
   * `dict(request.query_params)`, whose values are strings, so no value is
   * an empty list.
   */
  ghost predicate WellFormed(params: Params)
  {
    forall name :: name in params ==> params[name] != Multi([])
  }

  /** The string a value stands for once the first-of-list rule has run. */
  function FirstText(v: ParamValue): string
    requires v != Multi([])
  {
    match v
    case Scalar(s) => s
    case Multi(items) => items[0]
  }

  /**
   * `get_param` with a string default, on a well-formed map: always a
   * string, taken from the parameter when it is present.
   */
  function Arg(params: Params, name: string, default: string): (r: string)
    requires WellFormed(params)
    ensures name in params ==> r == FirstText(params[name])
    ensures name !in params ==> r == default
  {
    GetParamOr(params, name, Scalar(default)).text
  }
}
