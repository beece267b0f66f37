/** Application errors (internal/apperror/error.go) and the Go `error` values the core
    passes around. */
module AppErrors {
  import opened Wrappers
  import Json
  import Encoding

  /** A non-nil Go `error` value, as far as the core tells them apart. */
  datatype GoError =
    | App(app: AppError)          // a *apperror.AppError
    | Errorf(format: string)      // the value of fmt.Errorf(format) called with no operands
    | InvalidHex                  // primitive.ErrInvalidHex from ObjectIDFromHex
    | InvalidByte(b: Encoding.byte) // hex.InvalidByteError from ObjectIDFromHex
    | CorruptInput(offset: nat)   // base64.CorruptInputError
    | External(text: string)      // an error raised inside a collaborator (driver, bcrypt, signer)

  /** `apperror.AppError`: the wrapped error and the two texts shown to clients. */
  datatype AppError = AppError(err: GoError, message: string, developerMessage: string)

  /** A Go call that returns a value or a non-nil error, or panics at run time. */
  datatype Result<T> = Ok(value: T) | Err(error: GoError) | Panic(reason: string)

  const NilDereference := "runtime error: invalid memory address or nil pointer dereference"
  const IndexZeroOutOfRange := "runtime error: index out of range [0] with length 0"

  // ------------------------------------------------------------------
  // fmt.Errorf(format) with no operands
  // ------------------------------------------------------------------

  function DropFlags(t: string): (r: string)
    ensures |r| <= |t|
  {
    if t != [] && (t[0] == '#' || t[0] == '0' || t[0] == '+' || t[0] == '-' || t[0] == ' ') then DropFlags(t[1..]) else t
  }

  function DropDigits(t: string): (r: string)
    ensures |r| <= |t|
  {
    if t != [] && '0' <= t[0] <= '9' then DropDigits(t[1..]) else t
  }

  /** What follows a `%` once its flags, width and precision are read. */
  function VerbAndRest(t: string): (r: string)
    ensures |r| <= |t|
  {
    var w := DropDigits(DropFlags(t));
    if w != [] && w[0] == '.' then DropDigits(w[1..]) else w
  }

  /** The text `fmt.Sprintf(format)` produces when no operands are given: `%%` prints a
      percent sign, a verb with no operand prints `%!v(MISSING)`, a `%` with no verb prints
      `%!(NOVERB)`; every other character is copied. */
  function Sprintf(format: string): string
    decreases |format|
  {
    if format == [] then ""
    else if format[0] != '%' then [format[0]] + Sprintf(format[1..])
    else
      var v := VerbAndRest(format[1..]);
      if v == [] then "%!(NOVERB)"
      else if v[0] == '%' then "%" + Sprintf(v[1..])
      else "%!" + [v[0]] + "(MISSING)" + Sprintf(v[1..])
  }

  /** A format string without `%` prints as itself. */
  lemma {:induction false} SprintfPlain(format: string)
    requires '%' !in format
    ensures Sprintf(format) == format
  {
    if format != [] {
      assert format[0] in format;
      assert forall c :: c in format[1..] ==> c in format;
      SprintfPlain(format[1..]);
      assert [format[0]] + format[1..] == format;
    }
  }

  /** `err.Error()`. */
  function ErrorText(e: GoError): string {
    match e
    case App(a) => Error(a)
    case Errorf(f) => Sprintf(f)
    case InvalidHex => "the provided hex string is not a valid ObjectID"
    case InvalidByte(b) => "encoding/hex: invalid byte: " + RuneVerbose(b)
    case CorruptInput(k) => "illegal base64 data at input byte " + Decimal(k)
    case External(t) => t
  }

  /** `strconv.IsPrint` on a rune below 256. */
  predicate IsPrintLatin1(b: Encoding.byte) {
    0x20 <= b <= 0x7E || (0xA1 <= b <= 0xFF && b != 0xAD)
  }

  function UpperHexDigit(d: int): char
    requires 0 <= d < 16
  {
    if d < 10 then ('0' as int + d) as char else ('A' as int + d - 10) as char
  }

  /** `fmt.Sprintf("%#U", rune(b))`: `U+` and four upper-case hex digits, then the character
      in single quotes when it is printable. */
  function RuneVerbose(b: Encoding.byte): string {
    "U+00" + [UpperHexDigit(b / 16), UpperHexDigit(b % 16)]
      + (if IsPrintLatin1(b) then " '" + [b as char] + "'" else "")
  }

  /** The two forms of `hex.InvalidByteError`'s text: a printable byte is shown, a control
      byte only by its code. */
  lemma InvalidByteTexts()
    ensures ErrorText(InvalidByte('z' as int)) == "encoding/hex: invalid byte: U+007A 'z'"
    ensures ErrorText(InvalidByte(0xAD)) == "encoding/hex: invalid byte: U+00AD"
  {
  }

  function Decimal(n: nat): string
    decreases n
  {
    if n < 10 then [('0' as int + n) as char] else Decimal(n / 10) + [('0' as int + n % 10) as char]
  }

  // ------------------------------------------------------------------
  // apperror.AppError
  // ------------------------------------------------------------------

  /** `(*AppError).Error`. */
  function Error(e: AppError): string {
    e.message
  }

  /** `(*AppError).Unwrap`. */
  function Unwrap(e: AppError): GoError {
    e.err
  }

  /** `(*AppError).Marshal`: the JSON text `json.Marshal` writes for the struct; `Err` carries
      the tag `json:"-"` and is not written. */
  function Marshal(e: AppError): string {
    Json.Object([("message", e.message), ("developerMessage", e.developerMessage)])
  }

  /** `NewAppError`: the `err` argument is not used; `Err` becomes `fmt.Errorf(message)`. */
  function NewAppError(cause: Option<GoError>, message: string, developerMessage: string): AppError {
    AppError(Errorf(message), message, developerMessage)
  }

  /** `systemError`. */
  function SystemError(cause: GoError): AppError {
    NewAppError(Some(cause), "Internal system error", ErrorText(cause))
  }

  /** `ErrNotFound`. */
  function ErrNotFound(): AppError {
    NewAppError(None, "Not Found", "")
  }

  /** What NewAppError builds: `Error()` is the message, the wrapped error prints the message
      read as a format (the same text when it holds no `%`), the developer message is kept,
      and the `err` argument makes no difference. */
  lemma NewAppErrorFields(cause: Option<GoError>, other: Option<GoError>, message: string, developerMessage: string)
    ensures var e := NewAppError(cause, message, developerMessage);
      && ErrorText(App(e)) == message
      && ErrorText(Unwrap(e)) == Sprintf(message)
      && ('%' !in message ==> ErrorText(Unwrap(e)) == message)
      && e.developerMessage == developerMessage
      && e == NewAppError(other, message, developerMessage)
  {
    if '%' !in message {
      SprintfPlain(message);
    }
  }

  /** systemError shows a fixed message and keeps the cause's text as the developer message. */
  lemma SystemErrorFields(cause: GoError)
    ensures var e := SystemError(cause);
      && Error(e) == "Internal system error"
      && ErrorText(Unwrap(e)) == "Internal system error"
      && e.developerMessage == ErrorText(cause)
  {
    SprintfPlain("Internal system error");
  }

  /** ErrNotFound shows "Not Found", wraps an error with that text, and has no developer message. */
  lemma ErrNotFoundFields()
    ensures Error(ErrNotFound()) == "Not Found"
    ensures ErrorText(Unwrap(ErrNotFound())) == "Not Found"
    ensures ErrNotFound().developerMessage == ""
  {
    SprintfPlain("Not Found");
  }

  /** Marshal writes exactly the two public texts, in this order, and nothing of `Err`. */
  lemma MarshalFields(e: AppError, err: GoError)
    ensures Json.ParseObject(Marshal(e)) == Some([("message", e.message), ("developerMessage", e.developerMessage)])
    ensures Marshal(e.(err := err)) == Marshal(e)
  {
    Json.ObjectRoundTrip([("message", e.message), ("developerMessage", e.developerMessage)]);
  }
}
