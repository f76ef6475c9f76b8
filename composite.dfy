/** The observed composite resource (the XR) as the function reads it: a kind and a document of
    fields addressed by dotted paths, with the SDK's typed accessors `GetString` and `GetInteger`. */
module Composite {
  import opened Wrappers

  /** A field's value in the composite's document; `OtherValue` stands for booleans, floats,
      objects, lists and null. */
  datatype FieldValue = Str(s: string) | Int(n: int) | OtherValue

  /** The composite resource: its declared kind and its fields by dotted path. */
  datatype Resource = Resource(kind: string, fields: map<string, FieldValue>)

  /** Why a typed accessor could not return a value. */
  datatype AccessError =
    | NoSuchField(path: string)
    | NotAString(path: string)
    | NotAnInteger(path: string)
  {
    /** The dotted path the failing accessor was asked for. */
    function Path(): string {
      match this
      case NoSuchField(p) => p
      case NotAString(p) => p
      case NotAnInteger(p) => p
    }
  }

  /** The string at `path`, or why there is none. */
  function GetString(xr: Resource, path: string): (r: Result<string, AccessError>)
    ensures r.Ok? <==> path in xr.fields && xr.fields[path].Str?
    ensures r.Ok? ==> r.value == xr.fields[path].s
    ensures r.Err? ==> r.error.Path() == path
    ensures r.Err? ==> (r.error == NoSuchField(path) <==> path !in xr.fields)
    ensures r.Err? && path in xr.fields ==> r.error == NotAString(path)
  {
    if path !in xr.fields then Err(NoSuchField(path))
    else match xr.fields[path]
      case Str(s) => Ok(s)
      case _ => Err(NotAString(path))
  }

  /** The bounds of Go's `int64`, the type `GetInteger` returns. */
  const Int64Min: int := -0x8000_0000_0000_0000
  const Int64Max: int := 0x7FFF_FFFF_FFFF_FFFF

  /** The integers a Go `int64` can hold. */
  type Int64 = n: int | Int64Min <= n <= Int64Max

  /** The integer at `path`, or why there is none. The model refuses every value that is not an
      integer within the `int64` range, including fractional and out-of-range numbers. */
  function GetInteger(xr: Resource, path: string): (r: Result<Int64, AccessError>)
    ensures r.Ok? <==> path in xr.fields && xr.fields[path].Int? && Int64Min <= xr.fields[path].n <= Int64Max
    ensures r.Ok? ==> r.value == xr.fields[path].n
    ensures r.Err? ==> r.error.Path() == path
    ensures r.Err? ==> (r.error == NoSuchField(path) <==> path !in xr.fields)
    ensures r.Err? && path in xr.fields ==> r.error == NotAnInteger(path)
  {
    if path !in xr.fields then Err(NoSuchField(path))
    else match xr.fields[path]
      case Int(n) => if Int64Min <= n <= Int64Max then Ok(n) else Err(NotAnInteger(path))
      case _ => Err(NotAnInteger(path))
  }

  /** The accessor's error text, the part of a fatal message after the function's own context. */
  function ErrorText(e: AccessError): string {
    match e
    case NoSuchField(p) => p + ": no such field"
    case NotAString(p) => p + ": not a string"
    case NotAnInteger(p) => p + ": not a (int64) number"
  }
}
