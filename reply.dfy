/**
 * What the assistant says at the end of a turn (app.py:79-100): the outcome of
 * the POST to the generation endpoint mapped to the reply text, and a reader
 * that tells the kinds of reply apart again.
 */
module Reply {
  import opened Wrappers
  import opened Decimal

  /**
   * How the POST ended. `Http` is a response that arrived: its status code and,
   * when the status is 200, the `response` field of its JSON body if the body
   * has one. `ConnectionError` is `requests.exceptions.ConnectionError`;
   * `OtherError` is any other exception raised in the `try` block, with its
   * `str` text.
   */
  datatype Outcome =
    | Http(status: int, responseField: Option<string>)
    | ConnectionError
    | OtherError(desc: string)

  const OkStatus := 200
  const NoAnswer := "AI ni vrnil odgovora."
  /** Both notices written by the application itself open with this word ("error"). */
  const ErrorPrefix := "Napaka: "
  const StatusPrefix := ErrorPrefix + "Ollama je vrnila status "
  const StatusSuffix := "."
  const ConnectionMessage :=
    ErrorPrefix + "Ne morem se povezati z Ollama storitvijo. " + "Preveri, če container 'ollama_service' teče."
  const FailurePrefix := "Prišlo je do napake: "

  /** The final value of `full_response` for each way the call can end. */
  function ReplyOf(o: Outcome): string {
    match o
    case Http(status, field) =>
      if status == OkStatus then
        (if field.Some? then field.value else NoAnswer)
      else StatusPrefix + IntToString(status) + StatusSuffix
    case ConnectionError => ConnectionMessage
    case OtherError(desc) => FailurePrefix + desc
  }

  /** The kinds of reply a reader of the conversation can tell apart. */
  datatype Diagnosis =
    | BackendStatus(code: int)
    | Unreachable
    | Failed(desc: string)
    | Answer

  /** Reads a reply back: the connectivity notice, a status notice with its code, a generic failure, or an answer. */
  function Diagnose(reply: string): Diagnosis {
    if reply == ConnectionMessage then Unreachable
    else if |StatusPrefix| + |StatusSuffix| <= |reply|
         && reply[..|StatusPrefix|] == StatusPrefix
         && reply[|reply| - |StatusSuffix|..] == StatusSuffix
         && ParseInt(reply[|StatusPrefix|..|reply| - |StatusSuffix|]).Some?
    then BackendStatus(ParseInt(reply[|StatusPrefix|..|reply| - |StatusSuffix|]).value)
    else if |FailurePrefix| <= |reply| && reply[..|FailurePrefix|] == FailurePrefix
    then Failed(reply[|FailurePrefix|..])
    else Answer
  }

  /** Status 200 with a `response` field: the reply is exactly that text, even an empty one. */
  lemma SuccessPassesTextThrough(text: string)
    ensures ReplyOf(Http(200, Some(text))) == text
  {
  }

  /** Status 200 without the field: the fixed fallback, which reads as an answer and not as an error. */
  lemma MissingFieldIsNotAnError()
    ensures ReplyOf(Http(200, None)) == "AI ni vrnil odgovora."
    ensures Diagnose(ReplyOf(Http(200, None))) == Answer
  {
    var r := ReplyOf(Http(200, None));
    assert r[0] == 'A';
    assert r != ConnectionMessage by { assert ConnectionMessage[0] == 'N'; }
    assert r[..|FailurePrefix|] != FailurePrefix by { assert FailurePrefix[0] == 'P'; }
  }

  /** A status other than 200: the reply names the status, and the code can be read back from it. */
  lemma {:induction false} BadStatusNamesCode(code: int, field: Option<string>)
    requires code != 200
    ensures var r := ReplyOf(Http(code, field));
      r == StatusPrefix + IntToString(code) + "." && Diagnose(r) == BackendStatus(code)
  {
    var digits := IntToString(code);
    var r := StatusPrefix + digits + StatusSuffix;
    assert r[..|StatusPrefix|] == StatusPrefix;
    assert r[|r| - |StatusSuffix|..] == StatusSuffix;
    assert r[|StatusPrefix|..|r| - |StatusSuffix|] == digits;
    ParseIntRoundTrip(code);
    assert r != ConnectionMessage by {
      assert r[8] == StatusPrefix[8] == 'O';
      assert ConnectionMessage[8] == 'N';
    }
  }

  /**
   * A connection error gets the connectivity notice. Its handler comes before
   * the generic one, so the reply never reads as a generic failure.
   */
  lemma ConnectionErrorIsReported()
    ensures ReplyOf(ConnectionError) == ConnectionMessage
    ensures Diagnose(ReplyOf(ConnectionError)) == Unreachable
  {
  }

  /** Any other failure: the generic notice followed by the exception text, which reads back unchanged. */
  lemma {:induction false} OtherFailureQuotesDescription(desc: string)
    ensures ReplyOf(OtherError(desc)) == "Prišlo je do napake: " + desc
    ensures Diagnose(ReplyOf(OtherError(desc))) == Failed(desc)
  {
    var r := FailurePrefix + desc;
    assert r[0] == 'P';
    assert r != ConnectionMessage by { assert ConnectionMessage[0] == 'N'; }
    assert !(|StatusPrefix| <= |r| && r[..|StatusPrefix|] == StatusPrefix) by { assert StatusPrefix[0] == 'N'; }
    assert r[..|FailurePrefix|] == FailurePrefix;
    assert r[|FailurePrefix|..] == desc;
  }

  /**
   * Every way the call can fail is reported as a failure of its own kind, so
   * no failure is mistaken for an answer or for another kind of failure.
   */
  lemma {:induction false} FailuresAreDistinguished(o: Outcome)
    requires !(o.Http? && o.status == 200)
    ensures Diagnose(ReplyOf(o)) ==
      match o
      case Http(code, _) => BackendStatus(code)
      case ConnectionError => Unreachable
      case OtherError(desc) => Failed(desc)
  {
    match o
    case Http(code, field) => BadStatusNamesCode(code, field);
    case ConnectionError => ConnectionErrorIsReported();
    case OtherError(desc) => OtherFailureQuotesDescription(desc);
  }
}
