/** The value types the core passes around: queries, responses and the
    exceptions the core can raise. The Python classes `Query` and `Response`
    are defined in `structs.py`, which is not part of this model; only the
    fields the core reads are represented. */
module Structs {
  import opened Wrappers

  /** An attached image, identified by its encoded contents. */
  datatype Image = Image(pixels: seq<int>)

  /** A hashable hyperparameter value (floating point values are not modelled). */
  datatype HyperValue = IntValue(i: int) | TextValue(s: string) | BoolValue(b: bool)

  /** A JSON value, as stored in `metadata.json`. */
  datatype Json =
    | JNull
    | JBool(b: bool)
    | JInt(i: int)
    | JString(s: string)
    | JArray(items: seq<Json>)
    | JObject(fields: map<string, Json>)

  type Metadata = map<string, Json>

  /** Two queries are equal exactly when all three fields are equal. */
  datatype Query = Query(
    prompt: string,
    imgs: Option<seq<Image>>,
    hyperparameters: Option<map<string, HyperValue>>)

  datatype Response = Response(text: string, metadata: Metadata)

  /** The exceptions the core raises or lets propagate. */
  datatype Error =
    | ResponseNotFound                  // cache.py's own exception class
    | ValueError(message: string)       // raised by a cache-only model on a miss
    | KeyError(missing: Query)          // a canned model asked an unregistered query
    | FileNotFoundError(file: string)   // a cache folder lacking a file the code opens
}
