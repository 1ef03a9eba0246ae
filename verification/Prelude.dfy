/** Stock result types and the JSON values that cross every provider boundary. */
module Prelude {
  datatype Option<+T> = None | Some(value: T) {
    function Or(default: T): T {
      if Some? then value else default
    }
  }

  datatype Result<+R, +E> = Ok(value: R) | Err(error: E)

  /** A decoded JSON value. Objects are maps, so a decoded object has no duplicate keys. */
  datatype Json =
    | Null
    | Bool(b: bool)
    | Int(n: int)
    | Float(r: real)
    | Str(s: string)
    | Arr(items: seq<Json>)
    | Obj(fields: map<string, Json>)

  type JObj = map<string, Json>

  /** The largest integer a double holds exactly together with all smaller ones. */
  const MAX_SAFE: int := 9007199254740991
  const MAX_SIGNED_BIGINT: int := 0x7FFF_FFFF_FFFF_FFFF

  /** `o.get(k)`: a missing key and a JSON null read alike. */
  function Get(o: JObj, k: string): Json {
    if k in o then o[k] else Null
  }

  /** `o.get(k, o.get(k2))`: the second key is read only when the first is missing. */
  function GetEither(o: JObj, k: string, k2: string): Json {
    if k in o then o[k] else Get(o, k2)
  }

  /** The object behind `o.get(k)` when it is one. */
  function GetObj(o: JObj, k: string): Option<JObj> {
    var v := Get(o, k);
    if v.Obj? then Some(v.fields) else None
  }
}
