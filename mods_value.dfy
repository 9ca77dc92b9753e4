// The deserializer over a setting value (`impl Deserializer for PyValue` in
// src/mods.rs): which visitor call each entry point makes, and the
// `invalid_type` error it raises on a kind it does not accept.
module ModsValue {
  import opened Base
  import opened Errors
  import opened ModsInput

  /** The visitor call a deserializer entry point ends in. */
  datatype Visit =
    | VisitBool(b: bool)
    | VisitF64(x: Float)
    | VisitStr(s: string)
    | VisitString(s: string)
    | VisitSome(inner: PyValue)
    | VisitUnit

  /** How an `invalid_type` error shows the value it was handed. */
  function UnexpectedOf(v: PyValue): Unexpected
  {
    match v
    case Bool(b) => UnexpectedBool(b)
    case Number(x) => UnexpectedFloat(x)
    case String(s) => UnexpectedStr(s)
  }

  /** Which values an entry point accepts: `deserialize_bool` only bools,
      `deserialize_f64` only numbers, `deserialize_str` and
      `deserialize_string` only strings; the others accept anything. */
  predicate Accepts(req: Request, v: PyValue)
  {
    match req
    case BoolRequest => v.Bool?
    case F64Request => v.Number?
    case StrRequest | StringRequest => v.String?
    case AnyRequest | OptionRequest | IgnoredAnyRequest => true
  }

  /** The value a visitor call passes on (nothing for `visit_unit`). */
  function Payload(visit: Visit): Option<PyValue>
  {
    match visit
    case VisitBool(b) => Some(Bool(b))
    case VisitF64(x) => Some(Number(x))
    case VisitStr(s) => Some(String(s))
    case VisitString(s) => Some(String(s))
    case VisitSome(inner) => Some(inner)
    case VisitUnit => None
  }

  /** One entry point of the deserializer on value `v`. */
  function Deserialize(v: PyValue, req: Request): (r: Result<Visit, DeErr>)
    ensures r.Ok? <==> Accepts(req, v)
    ensures r.Err? ==> r.error == InvalidType(UnexpectedOf(v), req)
    ensures r.Ok? && req != IgnoredAnyRequest ==> Payload(r.value) == Some(v)
    ensures req == IgnoredAnyRequest ==> r == Ok(VisitUnit)
    ensures req == OptionRequest ==> r == Ok(VisitSome(v))
  {
    match req
    case AnyRequest =>
      (match v
       case Bool(b) => Ok(VisitBool(b))
       case Number(x) => Ok(VisitF64(x))
       case String(s) => Ok(VisitString(s)))
    case BoolRequest =>
      (match v
       case Bool(b) => Ok(VisitBool(b))
       case Number(x) => Err(InvalidType(UnexpectedFloat(x), req))
       case String(s) => Err(InvalidType(UnexpectedStr(s), req)))
    case F64Request =>
      (match v
       case Bool(b) => Err(InvalidType(UnexpectedBool(b), req))
       case Number(x) => Ok(VisitF64(x))
       case String(s) => Err(InvalidType(UnexpectedStr(s), req)))
    case StrRequest =>
      (match v
       case Bool(b) => Err(InvalidType(UnexpectedBool(b), req))
       case Number(x) => Err(InvalidType(UnexpectedFloat(x), req))
       case String(s) => Ok(VisitStr(s)))
    case StringRequest =>
      (match v
       case Bool(b) => Err(InvalidType(UnexpectedBool(b), req))
       case Number(x) => Err(InvalidType(UnexpectedFloat(x), req))
       case String(s) => Ok(VisitString(s)))
    case OptionRequest => Ok(VisitSome(v))
    case IgnoredAnyRequest => Ok(VisitUnit)
  }

  /** The typed entry point that matches a value's own kind. */
  function OwnRequest(v: PyValue): Request
  {
    match v
    case Bool(_) => BoolRequest
    case Number(_) => F64Request
    case String(_) => StringRequest
  }

  /** `deserialize_any` dispatches on the variant: it makes the same visitor
      call as the typed entry point of the value's own kind, and that is the
      only typed entry point that accepts the value. */
  lemma AnyIsOwnKind(v: PyValue, req: Request)
    ensures Deserialize(v, AnyRequest) == Deserialize(v, OwnRequest(v))
    ensures req in {BoolRequest, F64Request, StringRequest} ==>
      (Deserialize(v, req).Ok? <==> req == OwnRequest(v))
  {
  }
}
