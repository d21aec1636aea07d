/**
 JSON values as the runner manipulates them. Objects are maps, because the
 runner's JSON library keeps one value per key; numbers are reals.
 */
module Json {
  import opened Common

  datatype Json =
    | Null
    | Bool(b: bool)
    | Num(n: real)
    | Str(s: string)
    | Arr(items: seq<Json>)
    | Obj(fields: map<string, Json>)
  {
    /** The member called `key`, when this is an object that has one. */
    function Get(key: string): Option<Json> {
      if Obj? && key in fields then Some(fields[key]) else None
    }

    /** The string held by the member called `key`. */
    function GetString(key: string): Option<string> {
      match Get(key)
      case Some(Str(s)) => Some(s)
      case _ => None
    }

    /** The items of the array held by the member called `key`. */
    function GetArray(key: string): Option<seq<Json>> {
      match Get(key)
      case Some(Arr(items)) => Some(items)
      case _ => None
    }

    /** Follows a path of object keys. */
    function Pointer(path: seq<string>): Option<Json>
      decreases |path|
    {
      if path == [] then Some(this)
      else match Get(path[0])
           case Some(v) => v.Pointer(path[1..])
           case None => None
    }
  }
}
