/** Option and Result, used for `no_update` slots and for Python exceptions. */
module Wrappers {

  datatype Option<+T> = None | Some(value: T)

  datatype Result<+R, +E> = Ok(value: R) | Err(error: E) {

    predicate IsFailure() {
      Err?
    }

    function PropagateFailure<U>(): Result<U, E>
      requires Err?
    {
      Err(error)
    }

    function Extract(): R
      requires Ok?
    {
      value
    }
  }
}

/** The exceptions the core can raise, as values. */
module Errors {

  datatype Error =
    | FileNotFound(path: string)       // load_data on an absent file
    | KeyError(columns: seq<string>)   // a column that a frame operation needs is absent
    | ValueError(text: string)         // float() on a string it cannot parse
    | TypeError(text: string)          // float() on None
    | PipelineError(text: string)      // anything the classifier raises

  /**
   * The text `str(e)` gives for an error. A KeyError shows the Python list of
   * the missing columns, `['a', 'b']`, the part that the pandas messages for
   * `dropna`, `drop` and `df[cols]` have in common.
   */
  function Describe(e: Error): (r: string)
    ensures e.FileNotFound? ==> r == "No data found at " + e.path
    ensures e.KeyError? ==> r == "[" + QuotedList(e.columns) + "]"
    ensures e.ValueError? || e.TypeError? || e.PipelineError? ==> r == e.text
  {
    match e
    case FileNotFound(path) => "No data found at " + path
    case KeyError(columns) => "[" + QuotedList(columns) + "]"
    case ValueError(text) => text
    case TypeError(text) => text
    case PipelineError(text) => text
  }

  /** The names as Python prints a list of strings, without the brackets. */
  function QuotedList(names: seq<string>): (r: string)
    ensures names == [] <==> r == ""
    ensures |names| == 1 ==> r == "'" + names[0] + "'"
  {
    if names == [] then ""
    else if |names| == 1 then "'" + names[0] + "'"
    else "'" + names[0] + "', " + QuotedList(names[1..])
  }
}
