/** Decoded JSON data as the tool handlers see it after `json.loads`, and the
    dictionary lookup with a default (`dict.get`) they use on it. */
module Json {

  datatype Option<+T> = None | Some(value: T)

  /** A decoded JSON value. `VNull` is what Python's `None` stands for, both for a
      JSON `null` and for the default of a `dict.get` without one. */
  datatype Value =
    | VNull
    | VBool(b: bool)
    | VNumber(n: real)
    | VString(s: string)
    | VList(items: seq<Value>)
    | VObject(fields: map<string, Value>)

  /** The argument object of a tool call, once decoded. */
  type Args = map<string, Value>

  /** `json.loads` applied to a tool call's argument text: `None` when decoding
      raises, or when the decoded value is not an object (the `.get` that follows
      would raise then). What it accepts is not modelled. */
  type Parser = string -> Option<Args>

  /** `args.get(key, default)`. */
  function GetOr(args: Args, key: string, default: Value): (v: Value)
    ensures key in args ==> v == args[key]
    ensures key !in args ==> v == default
  {
    if key in args then args[key] else default
  }

  /** `args.get(key)`: Python's `None` when the key is absent. */
  function Get(args: Args, key: string): (v: Value)
    ensures key in args ==> v == args[key]
    ensures key !in args ==> v == VNull
  {
    GetOr(args, key, VNull)
  }
}
