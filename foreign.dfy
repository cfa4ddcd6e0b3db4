/** Functions the worker takes from Node.js and from libraries whose code is not part of this
    model. They are passed around as one record so that every statement about the worker holds
    for whatever these functions compute. */
module Foreign {
  import opened Wrappers
  import opened JsValues

  datatype Host = Host(
    /** `path.resolve(...segments)` */
    resolve: seq<string> -> string,
    /** `path.join(a, b)` */
    join: (string, string) -> string,
    /** `utils.parseArgs`: a shell-style argument string to an argument vector */
    parseArgs: Value -> seq<string>,
    /** `utils.iconv`: the compiler's output bytes to text */
    iconv: Bytes -> string,
    /** `buffer.toString()`: UTF-8 decoding */
    utf8: Bytes -> string,
    /** `format(template, context)` of the string-format package */
    format: (string, Value) -> string,
    /** `err.stack` */
    stack: Error -> string,
    /** `JSON.parse(buffer.toString())`, `None` when it throws */
    parseJson: Bytes -> Option<Value>,
    /** the TypeError `path.resolve` throws for a segment that is not a string */
    pathTypeError: Value -> Error
  )
}
