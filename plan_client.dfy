/**
 * The remote plan client `analyze_and_generate_plan`: one POST to the plan
 * webhook, whose outcome is turned into the dictionary the batch loop reads.
 * The request itself (the prompt built from the row, the URL, the 15-second
 * timeout) is network I/O; the model takes its OUTCOME as a value.
 */
module PlanClient {
  import Decimal

  /** A JSON object as decoded by `response.json()`, with every value a string. */
  type Output = map<string, string>

  const ErrorKey := "error"

  /** What one call to the webhook ended in. */
  datatype CallOutcome =
    | Http(status: int, body: Output)  // a response arrived; for status 200, `body` is its decoded JSON
    | Raised(message: string)          // `requests` or `response.json()` raised; `message` is `str(e)`

  /** The text `f"Status {code}"`. */
  function StatusMessage(status: int): string {
    "Status " + Decimal.IntToString(status)
  }

  /** A 200 response hands back its body; anything else becomes `{"error": ...}`. */
  function Normalise(o: CallOutcome): (r: Output)
    ensures o.Http? && o.status == 200 ==> r == o.body
    ensures o.Http? && o.status != 200 ==> r == map[ErrorKey := StatusMessage(o.status)]
    ensures o.Raised? ==> r == map[ErrorKey := o.message]
  {
    match o
    case Http(status, body) =>
      if status == 200 then body else map[ErrorKey := StatusMessage(status)]
    case Raised(message) => map[ErrorKey := message]
  }

  /** The batch loop's skip test `"error" in output`. */
  predicate IsError(output: Output) {
    ErrorKey in output
  }

  /**
   * A call is skipped exactly when it did not end in status 200, or when the
   * 200 body itself carries an "error" key.
   */
  lemma SkippedIff(o: CallOutcome)
    ensures IsError(Normalise(o)) <==> !(o.Http? && o.status == 200) || ErrorKey in o.body
  {
  }

  /** The status-error dictionary names the status: two different codes never give the same one. */
  lemma StatusErrorIdentifiesCode(a: int, b: int, bodyA: Output, bodyB: Output)
    requires a != 200 && b != 200
    ensures Normalise(Http(a, bodyA)) == Normalise(Http(b, bodyB)) <==> a == b
  {
    if Normalise(Http(a, bodyA)) == Normalise(Http(b, bodyB)) {
      var prefix := "Status ";
      assert StatusMessage(a) == Normalise(Http(a, bodyA))[ErrorKey];
      assert Decimal.IntToString(a) == StatusMessage(a)[|prefix|..];
      assert Decimal.IntToString(b) == StatusMessage(b)[|prefix|..];
      Decimal.IntToStringInjective(a, b);
    }
  }

  /**
   * The error dictionary keeps no record of where the error came from: an
   * exception whose text is "Status <code>" gives the same dictionary as that status.
   */
  lemma RaisedMimicsStatus(code: int, body: Output)
    requires code != 200
    ensures Normalise(Raised(StatusMessage(code))) == Normalise(Http(code, body))
  {
  }
}
