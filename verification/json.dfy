/** Values read from JSON (the settings file, the `/api/ps` reply) and the text
    Python's `str()` gives them when they are spliced into an f-string. */
module Json {
  import opened PyText

  /** A decoded JSON value. Floats, arrays and objects are not inspected by the
      application; they are carried with the text `str()` renders them as. */
  datatype Value =
    | Null
    | Bool(b: bool)
    | Int(i: int)
    | Str(s: string)
    | Other(rendered: string)

  /** `str(v)`, as used by `f"{v}"`. */
  function PyStr(v: Value): string {
    match v
    case Null => "None"
    case Bool(b) => if b then "True" else "False"
    case Int(i) => IntToDecimal(i)
    case Str(s) => s
    case Other(rendered) => rendered
  }
}
