/**
 * The crate's error type (src/error.rs). Each variant wraps a foreign error
 * value; the model keeps only that value's `Debug` text, which is all the
 * report ever shows of it.
 */
module Error {

  datatype CliError =
    | IO(cause: string)
    | Deserialize(cause: string)

  /** The derived `Debug` rendering of a tuple variant: `Variant(<inner>)`. */
  function Debug(e: CliError): string
  {
    match e
    case IO(c) => "IO(" + c + ")"
    case Deserialize(c) => "Deserialize(" + c + ")"
  }
}
