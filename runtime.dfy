/**
 The few pieces of the host language's runtime that the pipeline relies on:
 `None` as an optional value, the exceptions that travel through it, the
 outcome of a call (a return value or a raised exception) and the JSON values
 read from the configuration file, with the host language's truthiness.
 */
module Runtime {

  datatype Option<+T> = None | Some(value: T)

  /** The exceptions that the pipeline raises, catches or retries on. */
  datatype Exception =
    | StopIteration                 // raised by the code itself to request a retry
    | ClientError                   // the provider's error for a rejected request
    | KeyError                      // a missing key in a response dictionary
    | AttributeError                // a missing field of the configuration object
    | TypeError(message: string)    // instantiating a constants-only class
    | OtherError                    // anything else the provider may raise

  /** What one call does: return a value or raise an exception. */
  datatype Outcome<+T> = Returned(value: T) | Raised(exc: Exception)

  /** A value of a parsed JSON document. */
  datatype JValue =
    | JNull
    | JBool(b: bool)
    | JNumber(n: real)
    | JString(s: string)
    | JArray(elems: seq<JValue>)
    | JObject(members: map<string, JValue>)

  /** Truthiness of a parsed JSON value in an `if` test: null, false, zero and empty values are false. */
  predicate Truthy(v: JValue)
  {
    match v
    case JNull => false
    case JBool(b) => b
    case JNumber(n) => n != 0.0
    case JString(s) => s != ""
    case JArray(elems) => elems != []
    case JObject(members) => members != map[]
  }

  /** A list of strings as a JSON array. */
  function JStrings(s: seq<string>): JValue
  {
    JArray(seq(|s|, i requires 0 <= i < |s| => JString(s[i])))
  }
}
