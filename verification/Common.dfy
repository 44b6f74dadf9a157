// Vocabulary shared by every part of the model.
module Common {

  datatype Option<+T> = None | Some(value: T) {
    function GetOr(default: T): T {
      if Some? then value else default
    }
  }

  datatype Result<+T> = Ok(value: T) | Err(code: ErrorCode)

  datatype ErrorCode = Success | KeyNotFound | ConnectionError | Timeout | InvalidInput | InternalError

  type Key = string
  type Value = string
  type Time = nat

  /** The counters are 64-bit words. */
  const WORD: nat := 0x1_0000_0000_0000_0000

  /** A pointer and length as they cross the C boundary. */
  datatype Raw = NullPtr | BadUtf8 | Text(text: string)

  function Decode(raw: Raw): Option<string> {
    match raw
    case Text(text) => Some(text)
    case _ => None
  }
}
