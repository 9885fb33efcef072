/**
 * `EchoJson` (main.go:1243-1260): the JSON text every API answer is written
 * as. Success ("0") embeds the detail bytes verbatim; an error code carries
 * its configured message (or the code itself) as a quoted string.
 */
module Response {
  import opened Text

  const ErrPrefix: string := "{\"err\":\""
  const SuccessMiddle: string := "\",\"detail\":"
  const ErrorMiddle: string := "\",\"detail\":\""
  const Success: string := "0"

  /** The configured message for `errId`, or `errId` itself. */
  function Message(config: map<string, string>, errId: string): (m: string)
    ensures errId in config ==> m == config[errId]
    ensures errId !in config ==> m == errId
  {
    if errId in config then config[errId] else errId
  }

  /** `EchoJson(w, errId, detail)`: the answer text. */
  function EchoJson(config: map<string, string>, errId: string, detail: string): (r: string)
    ensures |r| > |ErrPrefix| && r[..|ErrPrefix|] == ErrPrefix && r[|r| - 1] == '}'
    ensures errId != Success ==> |r| >= 2 && r[|r| - 2] == '"'
  {
    if errId == Success then ErrPrefix + Message(config, errId) + SuccessMiddle + detail + "}"
    else ErrPrefix + errId + ErrorMiddle + Message(config, errId) + "\"}"
  }

  /** The value of the `err` member as a client reads it: the text up to the next quote. */
  function ErrField(r: string): (e: string)
    ensures |e| <= |r|
  {
    if |r| < |ErrPrefix| || r[..|ErrPrefix|] != ErrPrefix then "" else FirstField(r[|ErrPrefix|..], '"')
  }

  /** The embedded detail of a success answer: between the middle separator and the closing brace. */
  function SuccessDetail(r: string, errText: string): string
  {
    var start := |ErrPrefix| + |errText| + |SuccessMiddle|;
    if start < |r| then r[start..|r| - 1] else ""
  }

  /** The `err` member of a text that starts with the prefix, then `body`, then a quote, is `body`. */
  lemma ErrFieldOf(body: string, rest: string)
    requires '"' !in body && |rest| > 0 && rest[0] == '"'
    ensures ErrField(ErrPrefix + (body + rest)) == body
  {
    var r := ErrPrefix + (body + rest);
    assert r[..|ErrPrefix|] == ErrPrefix;
    assert r[|ErrPrefix|..] == body + rest;
    FirstFieldOfConcat(body, rest, '"');
  }

  /** The `detail` member of an error answer for `errId`: the text after its opening quote, up to the next quote. */
  function ErrorDetail(r: string, errId: string): string
  {
    var start := |ErrPrefix| + |errId| + |ErrorMiddle|;
    if start <= |r| then FirstField(r[start..], '"') else ""
  }

  /**
   * An error answer carries the configured message of its code, or the code
   * itself when none is configured, whenever that text has no quote; the
   * detail passed in is not written.
   */
  lemma ErrorMessageRoundTrip(config: map<string, string>, errId: string, detail: string)
    requires errId != Success && '"' !in Message(config, errId)
    ensures ErrorDetail(EchoJson(config, errId, detail), errId) == if errId in config then config[errId] else errId
  {
    var m := Message(config, errId);
    var head := ErrPrefix + errId + ErrorMiddle;
    var r := EchoJson(config, errId, detail);
    assert r == head + (m + "\"}");
    assert r[|head|..] == m + "\"}";
    FirstFieldOfConcat(m, "\"}", '"');
  }

  /** An error answer is the prefix, the code, then the rest starting with a quote. */
  lemma ErrorShape(config: map<string, string>, errId: string, detail: string)
    requires errId != Success
    ensures EchoJson(config, errId, detail) == ErrPrefix + (errId + (ErrorMiddle + Message(config, errId) + "\"}"))
  {
  }

  /**
   * An error answer names its code: a client reading the `err` member gets
   * `errId` back whenever the code has no quote character.
   */
  lemma ErrorCodeRoundTrip(config: map<string, string>, errId: string, detail: string)
    requires errId != Success && '"' !in errId
    ensures ErrField(EchoJson(config, errId, detail)) == errId
  {
    var rest := ErrorMiddle + Message(config, errId) + "\"}";
    ErrorShape(config, errId, detail);
    ErrFieldOf(errId, rest);
  }

  /**
   * A success answer carries the configured text for "0" (or "0") as `err`,
   * and its detail verbatim.
   */
  lemma SuccessRoundTrip(config: map<string, string>, detail: string)
    requires '"' !in Message(config, Success)
    ensures ErrField(EchoJson(config, Success, detail)) == Message(config, Success)
    ensures SuccessDetail(EchoJson(config, Success, detail), Message(config, Success)) == detail
  {
    var m := Message(config, Success);
    var rest := SuccessMiddle + detail + "}";
    assert EchoJson(config, Success, detail) == ErrPrefix + (m + rest);
    ErrFieldOf(m, rest);
    assert EchoJson(config, Success, detail) == (ErrPrefix + m + SuccessMiddle) + detail + "}";
  }
}
