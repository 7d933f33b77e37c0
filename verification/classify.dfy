/** Connection-error classification (`isClosed` in server.js): decides from a
    driver error's code and message whether the pooled connection is dead. */
module Classify {
  import opened JsValues
  import opened Driver

  /** The message fragment the driver uses when a connection is in closed state. */
  const ClosedStateMarker: string := "closed state"

  /** The error codes that mark a dead or unreachable connection. */
  const TransientCodes: seq<string> := ["PROTOCOL_CONNECTION_LOST", "ECONNRESET", "ECONNREFUSED"]

  /** `String(err?.message || "")`: an absent or empty message reads as "". */
  function MessageText(e: DbError): string
  {
    OrElse(e.message, "")
  }

  /** The four tests of `isClosed`, in source order: the message contains
      the closed-state marker, or the code is one of the three codes (strict
      equality, so an absent code matches none). */
  predicate IsClosed(e: DbError)
  {
    || Includes(MessageText(e), ClosedStateMarker)
    || e.code == Some("PROTOCOL_CONNECTION_LOST")
    || e.code == Some("ECONNRESET")
    || e.code == Some("ECONNREFUSED")
  }

  /** An error is transient exactly when the marker occurs in its message
      text or its code is one of the listed codes; every other error is not. */
  lemma ClassificationExact(e: DbError)
    ensures IsClosed(e) <==>
      IsSubstring(ClosedStateMarker, MessageText(e)) || (e.code.Some? && e.code.value in TransientCodes)
  {
    IncludesIsSubstring(MessageText(e), ClosedStateMarker);
  }

  /** An error with no message text is transient only through its code. */
  lemma NoMessageMeansCodeDecides(e: DbError)
    requires e.message == None || e.message == Some("")
    ensures IsClosed(e) <==> e.code.Some? && e.code.value in TransientCodes
  {
    ClassificationExact(e);
    LongPatternNeverIncluded(MessageText(e), ClosedStateMarker);
  }

  /** The classification reads the message regardless of the code: the
      driver's "Can't add new command when connection is in closed state" is
      transient whatever its code, and so is a query error whose text happens
      to quote "closed state" (an unknown column of that name, say), which is
      therefore retried once. */
  lemma MarkerInQueryErrorIsTransient(code: Option<string>, before: string, after: string)
    ensures IsClosed(DbError(code, Some(before + ClosedStateMarker + after)))
  {
    var e := DbError(code, Some(before + ClosedStateMarker + after));
    var m := MessageText(e);
    assert m[|before|..|before| + |ClosedStateMarker|] == ClosedStateMarker;
    assert OccursAt(ClosedStateMarker, m, |before|);
    ClassificationExact(e);
  }
}
