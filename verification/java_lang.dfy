/**
 The few pieces of the Java platform that the request handler relies on:
 `String.startsWith`, byte arrays, and what an exception contributes to a
 message (`Throwable.toString`, `getMessage`, and string concatenation of a
 null message).
 */
module JavaLang {
  import opened Wrappers

  /** A Java `byte`: signed, eight bits. */
  newtype byte = b: int | -128 <= b < 128

  /**
   `s.startsWith(prefix)`, comparing character by character from the front
   as the JDK does. The contract is the slice characterisation.
   */
  function StartsWith(s: string, prefix: string): (r: bool)
    ensures r <==> |prefix| <= |s| && s[..|prefix|] == prefix
  {
    if |prefix| == 0 then true
    else if |s| == 0 then false
    else s[0] == prefix[0] && StartsWith(s[1..], prefix[1..])
  }

  /** Whether a throwable is an `Exception`, which `catch (Exception e)` catches, or not (an `Error`, or any other `Throwable`). */
  datatype ThrowableKind = ExceptionKind | ErrorKind

  /** A thrown object: its branch of the hierarchy, its runtime class and its (possibly null) detail message. */
  datatype Throwable = Throwable(kind: ThrowableKind, className: string, message: Option<string>) {

    /** Whether `catch (Exception e)` catches it. */
    predicate IsException() {
      kind.ExceptionKind?
    }
  }

  const RuntimeExceptionClass: string := "java.lang.RuntimeException"
  const NoSuchElementClass: string := "java.util.NoSuchElementException"

  /** `Throwable.toString()`: the class name, then `": "` and the message when there is one. */
  function ToString(t: Throwable): (r: string)
    ensures StartsWith(r, t.className)
    ensures t.message.None? ==> r == t.className
    ensures t.message.Some? ==> r[|t.className|..] == ": " + t.message.value
  {
    match t.message
    case None => t.className
    case Some(m) => t.className + ": " + m
  }

  /** What `"..." + t.getMessage()` appends: the message, or the four letters `null` when it is null. */
  function MessageText(t: Throwable): (r: string)
    ensures t.message.Some? ==> r == t.message.value
    ensures t.message.None? ==> r == "null"
  {
    match t.message
    case None => "null"
    case Some(m) => m
  }

  /** `new RuntimeException(cause)`: an unchecked exception whose message is the cause's `toString()`. */
  function WrapInRuntimeException(cause: Throwable): (t: Throwable)
    ensures t.IsException() && t.className == RuntimeExceptionClass
    ensures t.message == Some(ToString(cause))
  {
    Throwable(ExceptionKind, RuntimeExceptionClass, Some(ToString(cause)))
  }

  /** A wrapped exception's message names the cause's class and repeats the cause's message. */
  lemma WrappedMessageNamesCause(cause: Throwable)
    ensures StartsWith(MessageText(WrapInRuntimeException(cause)), cause.className)
    ensures cause.message.Some? ==>
              var m := cause.message.value;
              var text := MessageText(WrapInRuntimeException(cause));
              |m| <= |text| && text[|text| - |m|..] == m
    ensures cause.message.None? ==> MessageText(WrapInRuntimeException(cause)) == cause.className
  {
  }
}
