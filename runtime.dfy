/** The Python library calls the bridges and tools make, as opaque functions
    supplied by the caller of the model. */
module Runtime {
  import opened Wrappers
  import opened Json

  type Bytes = seq<bv8>

  /** - `loads`: `json.loads`, `None` where it raises a decoding error;
      - `dumps`: `json.dumps(value, indent=2)`;
      - `strip`: `str.strip()` with Python's whitespace set;
      - `decode`: `bytes.decode()`;
      - `render`: `str(value)` of a value that is not a string. */
  datatype Library = Library(
    loads: string -> Option<Json>,
    dumps: Json -> string,
    strip: string -> string,
    decode: Bytes -> string,
    render: Json -> string)

  /** What an f-string placeholder `{value}` produces: a string is inserted
      as it is, anything else through `str()`. */
  function Show(lib: Library, j: Json): (s: string)
    ensures j.JString? ==> s == j.s
  {
    if j.JString? then j.s else lib.render(j)
  }
}
