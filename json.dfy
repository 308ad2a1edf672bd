/**
 * Decoded JSON values, as Go's encoding/json produces them when the target is
 * `interface{}`, and the coercions the handlers apply to them.
 *
 * Every JSON number decodes to a Go float64; the model keeps it as a `real`
 * and never does arithmetic on it, so rounding does not arise.
 */
module Json {

  datatype Value =
    | Null
    | Bool(b: bool)
    | Number(n: real)
    | Str(s: string)
    | Array(items: seq<Value>)
    | Object(fields: map<string, Value>)

  /** A loosely typed argument map (`map[string]interface{}`). */
  type Args = map<string, Value>

  /**
   * `v, ok := args[key].(string)` followed by `if ok { x = v }`: a missing key
   * and a present key of any other type both leave the default in place.
   */
  function StringOr(args: Args, key: string, default: string): (r: string)
    ensures key in args && args[key].Str? ==> r == args[key].s
    ensures key !in args ==> r == default
    ensures key in args && !args[key].Str? ==> r == default
  {
    if key in args && args[key].Str? then args[key].s else default
  }

  /** The same silent-default coercion for `.(float64)`. */
  function NumberOr(args: Args, key: string, default: real): (r: real)
    ensures key in args && args[key].Number? ==> r == args[key].n
    ensures key !in args ==> r == default
    ensures key in args && !args[key].Number? ==> r == default
  {
    if key in args && args[key].Number? then args[key].n else default
  }

  /**
   * Go's conversion `int(f)` of a float64: the fractional part is discarded,
   * rounding toward zero (for values inside the int range).
   */
  function TruncateToInt(x: real): (r: int)
    ensures 0.0 <= x ==> 0 <= r && r as real <= x < r as real + 1.0
    ensures x < 0.0 ==> r <= 0 && r as real - 1.0 < x <= r as real
  {
    if 0.0 <= x then x.Floor else -((-x).Floor)
  }

  /**
   * `arguments, _ := params["arguments"].(map[string]interface{})`: anything
   * other than a JSON object (including a missing entry) yields a nil map,
   * on which every lookup misses.
   */
  function ArgumentsOf(params: Args): (r: Args)
    ensures "arguments" in params && params["arguments"].Object? ==> r == params["arguments"].fields
    ensures !("arguments" in params && params["arguments"].Object?) ==> r == map[]
  {
    if "arguments" in params && params["arguments"].Object? then params["arguments"].fields else map[]
  }

  /** The entries of `args` whose keys lie in `keys`. */
  function Restrict(args: Args, keys: set<string>): (r: Args)
    ensures r.Keys == args.Keys * keys
    ensures forall k :: k in r ==> r[k] == args[k]
  {
    map k | k in args && k in keys :: args[k]
  }
}
