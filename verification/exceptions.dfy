/** The exceptions the client raises: its own `Error` class and the
    exceptions of Python and of the decoding library that reach callers. */
module Exceptions {
  import opened Json

  /** What an operation of the client can raise. */
  datatype Exception =
    | AvitoError(args: seq<Json>)  // `raise Error(*args)`; see class Error for its fields
    | ValidationError              // a reply body that does not fit the model it is decoded into
    | AttributeError               // `.get` on a reply value that is not an object
    | TypeError                    // a `for` loop over null, a number or a boolean
    | OverflowError                // date arithmetic before 0001-01-01

  /** The client's exception type; its fields depend on how many arguments it was raised with. */
  class Error {
    var error: Json
    var errorDescription: Json

    constructor(args: seq<Json>)
      ensures |args| >= 2 ==> error == args[0] && errorDescription == args[1]
      ensures |args| == 1 ==> error == args[0] && errorDescription == JStr("")
      ensures |args| == 0 ==> error == JStr("") && errorDescription == JStr("")
    {
      if |args| >= 2 {
        error := args[0];
        errorDescription := args[1];
      } else if |args| >= 1 {
        error := args[0];
        errorDescription := JStr("");
      } else {
        error := JStr("");
        errorDescription := JStr("");
      }
    }

    /** The dictionary view: exactly the two fields, under their Python names. */
    function ToDict(): (d: map<string, Json>)
      reads this
      ensures d.Keys == {"error", "error_description"}
      ensures d["error"] == error && d["error_description"] == errorDescription
    {
      map["error" := error, "error_description" := errorDescription]
    }
  }

  /** The dictionary an error raised with `args` serialises: the first
      argument, then the second, each '' when not given; extra arguments
      are dropped. */
  method ErrorDict(args: seq<Json>) returns (d: map<string, Json>)
    ensures d.Keys == {"error", "error_description"}
    ensures d["error"] == (if |args| >= 1 then args[0] else JStr(""))
    ensures d["error_description"] == (if |args| >= 2 then args[1] else JStr(""))
  {
    var e := new Error(args);
    d := e.ToDict();
  }
}
