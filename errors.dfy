// The exceptions the bindings raise (src/error.rs and PyO3's own extraction
// errors) and the deserialization error used while handing Python values to
// the mods library (`DeserializeError` in src/mods.rs).
module Errors {
  import opened Base

  datatype PyErr =
    | TypeError(msg: string)
    | ValueError(msg: string)
    /** `KeyError` raised by a dict lookup of a missing key. */
    | KeyError(key: string)
    /** An int outside the range of the Rust number type `target`. */
    | OverflowError(target: string)
    /** PyO3: an object of Python type `actual` is not a `target`. */
    | DowncastError(actual: string, target: string)
    /** PyO3: "failed to extract field `owner`.`field`", caused by `cause`. */
    | FieldError(owner: string, field: string, cause: PyErr)
    /** PyO3's `failed_to_extract_enum`: every variant of `owner` failed,
        variant `variants[i]` (shown as `shapes[i]`) with `causes[i]`. */
    | EnumError(owner: string, variants: seq<string>, shapes: seq<string>, causes: seq<PyErr>)
    /** The bindings' own `ArgsError` and `ParseError`; the older API also
        raises a `KwargsError`. */
    | ArgsError(msg: string)
    | KwargsError(msg: string)
    | ParseError(msg: string)
    /** A `ParseError` whose message is the text of a deserialization error. */
    | ModParseError(deError: DeErr)

  /** What a serde visitor was handed when it did not expect it. */
  datatype Unexpected = UnexpectedBool(b: bool) | UnexpectedFloat(x: Float) | UnexpectedStr(s: string)

  /** The `Deserializer` entry points a visitor can call on a setting value;
      the others are unimplemented in the bindings. */
  datatype Request = AnyRequest | BoolRequest | F64Request | StrRequest | StringRequest
                   | OptionRequest | IgnoredAnyRequest

  datatype DeErr =
    /** `Error::invalid_type(unexpected, &visitor)` for a visitor that asked
        through `expected`. */
    | InvalidType(unexpected: Unexpected, expected: Request)
    /** `Error::custom(err)` wrapping a Python extraction error. */
    | Custom(pyError: PyErr)
    /** An error raised by the mods library's own visitors (unknown acronym,
        bits that name no mod, ...), with its message. */
    | CatalogError(msg: string)
}
