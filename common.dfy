/** Optional values, results, and the exceptions the core throws. */
module Outcomes {

  /** A C# reference that may be null: `None` stands for null. */
  datatype Option<+T> = None | Some(value: T) {
    function GetOr(default: T): T {
      match this
      case Some(v) => v
      case None => default
    }
  }

  /** What a call that may throw produces: its value, or the exception it throws. */
  datatype Result<+R, +E> = Success(value: R) | Failure(error: E)

  /** What a call without a value that may throw produces. */
  datatype Outcome<+E> = Pass | Fail(error: E)

  /** The exceptions of the core, by .NET exception type, with the parameter name or message the source gives. */
  datatype Error =
    | ArgumentNull(paramName: string)
    | ArgumentOutOfRange(paramName: string)
    | NullReference(message: string)
    | FileNotFound(path: string)
    | InvalidOperation(message: string)
    | RequestFailed  // an HTTP call that failed, or whose answer did not parse
    | ServiceNotRegistered(serviceType: string)  // a required service the kernel does not hold

  /** The message of a NullReferenceException thrown without one. */
  const DefaultNullReferenceMessage := "Object reference not set to an instance of an object."

  /** `string.IsNullOrEmpty`. */
  predicate IsNullOrEmpty(s: Option<string>) {
    s.None? || s.value == ""
  }

  /** `char.IsWhiteSpace`: the Unicode space, line and paragraph separators, the controls U+0009 to U+000D, and U+0085. */
  predicate IsWhiteSpace(c: char) {
    var k := c as int;
    (0x09 <= k <= 0x0D) || k == 0x20 || k == 0x85 || k == 0xA0 || k == 0x1680
    || (0x2000 <= k <= 0x200A) || k == 0x2028 || k == 0x2029 || k == 0x202F
    || k == 0x205F || k == 0x3000
  }

  /** `string.IsNullOrWhiteSpace`. */
  predicate IsNullOrWhiteSpace(s: Option<string>) {
    s.None? || forall i :: 0 <= i < |s.value| ==> IsWhiteSpace(s.value[i])
  }
}
