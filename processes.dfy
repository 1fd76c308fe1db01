/** How the service reads the end of a child process (git, goose): the exit
    code of the 'close' event, or an 'error' event when the process could not
    be started. */
module Processes {
  import opened JsText

  /** The `code` of a 'close' event: a number, or null when a signal ended the
      process. */
  datatype ExitCode = Code(n: int) | Killed

  /** How an awaited process ends. */
  datatype ProcessEnd = Closed(code: ExitCode) | SpawnError(error: string)

  /** `"" + code`. */
  function CodeText(code: ExitCode): string {
    match code
    case Code(n) => IntToString(n)
    case Killed => "null"
  }

  /** `String(new Error(message))`. */
  function ErrorText(message: string): string { "Error: " + message }

  /** The promise around a process whose 'close' handler tests `!code`
      (launchAgent, publish): it resolves on 0 and on null, rejects with a new
      Error naming any other code, and rejects with the spawn error itself when
      an 'error' listener caught one. */
  function SettleFalsy(end: ProcessEnd, nonZero: string): (r: Outcome)
    ensures r.Pass? <==> end == Closed(Code(0)) || end == Closed(Killed)
    ensures end.SpawnError? ==> r == Fail(end.error)
    ensures end.Closed? && r.Fail? ==> r.error == ErrorText(nonZero + CodeText(end.code))
  {
    match end
    case SpawnError(e) => Fail(e)
    case Closed(code) =>
      if code == Code(0) || code == Killed then Pass
      else Fail(ErrorText(nonZero + CodeText(code)))
  }

  /** The promise around the clone process, whose handler tests `code === 0`
      and which has no 'error' listener. */
  function SettleExact(code: ExitCode, nonZero: string): (r: Outcome)
    ensures r.Pass? <==> code == Code(0)
    ensures r.Fail? ==> r.error == ErrorText(nonZero + CodeText(code))
  {
    if code == Code(0) then Pass else Fail(ErrorText(nonZero + CodeText(code)))
  }

  /** The two tests disagree on exactly one exit: a process ended by a signal
      (null code) counts as success under `!code` and as failure under
      `code === 0`. */
  lemma ExitTestsDisagreeOnlyOnSignal(code: ExitCode, a: string, b: string)
    ensures SettleFalsy(Closed(code), a).Pass? != SettleExact(code, b).Pass? <==> code == Killed
  {
  }
}
