/**
 * The error classes of common/classes.js and the top-level dispatcher
 * `handleError` of common/functions.js.
 *
 * JavaScript distinguishes the four application errors by `instanceof`;
 * here they are the constructors of a closed kind, and every other error
 * the program can meet (a puppeteer timeout, a `TypeError` from reading a
 * missing CSV column, a file-system error) is `Unrecognised`, carrying the
 * name of its JavaScript class.
 */
module Errors {

  datatype ErrorKind =
    | ArgumentError
    | WorkDLogInError
    | WorkDCreateUserError
    | WorkDInsufficientQuotaError
    | Unrecognised(name: string)

  /** A thrown error: its class and its `message`. */
  datatype Error = Error(kind: ErrorKind, message: string)

  /** What `handleError` does with an error: log one line, or rethrow it. */
  datatype Handled = Reported(line: string) | Rethrown(error: Error)

  /** Every reported line starts with this tag. */
  const Tag: string := "error: "
  const LogInOpening: string := "workD login failure ("
  const CreateUserOpening: string := "failed to create user ("
  const QuotaBody: string := "insufficient quota"
  const ArgumentOpening: string := "invalid argument(s) ("

  /** An error raised by the browser layer or the runtime: never one of the four known kinds. */
  function Foreign(name: string, message: string): (e: Error)
    ensures e.kind.Unrecognised? && e.kind.name == name && e.message == message
  {
    Error(Unrecognised(name), message)
  }

  /** The error a puppeteer wait raises when its selector never appears. */
  function Timeout(selector: string): (e: Error)
    ensures e.kind == Unrecognised("TimeoutError")
  {
    Foreign("TimeoutError", "Waiting for selector `" + selector + "` failed")
  }

  /**
   * `handleError`: the four known kinds are reported with a kind-specific
   * line; every other error is rethrown unchanged.
   */
  function HandleError(e: Error): (r: Handled)
    ensures r.Rethrown? <==> e.kind.Unrecognised?
    ensures r.Rethrown? ==> r.error == e
    ensures r.Reported? ==> |r.line| > |Tag| && r.line[..|Tag|] == Tag
  {
    if e.kind.Unrecognised? then Rethrown(e) else Reported(Tag + ReportBody(e))
  }

  /** The text after the tag: a fixed opening, then the message in parentheses (none for the quota). */
  function ReportBody(e: Error): (body: string)
    requires !e.kind.Unrecognised?
    ensures body != []
  {
    match e.kind
    case WorkDLogInError => LogInOpening + e.message + ")"
    case WorkDCreateUserError => CreateUserOpening + e.message + ")"
    case WorkDInsufficientQuotaError => QuotaBody
    case ArgumentError => ArgumentOpening + e.message + ")"
  }

  /**
   * The reported line loses nothing but the quota error's message: two
   * errors reported with the same line have the same kind and, except for
   * the quota error, the same message.
   */
  lemma {:induction false} ReportIdentifiesError(e1: Error, e2: Error)
    requires HandleError(e1).Reported? && HandleError(e1) == HandleError(e2)
    ensures e1.kind == e2.kind
    ensures !e1.kind.WorkDInsufficientQuotaError? ==> e1.message == e2.message
  {
    var line := HandleError(e1).line;
    assert HandleError(e2).Reported?;
    var body := ReportBody(e1);
    assert body == line[|Tag|..] == ReportBody(e2);
    // The four bodies differ at index 0 or, for the two that begin with 'i', at index 2.
    assert Signature(e1.kind) == (body[0], if |body| > 2 then body[2] else ' ');
    assert Signature(e2.kind) == (body[0], if |body| > 2 then body[2] else ' ');
    SignatureInjective(e1.kind, e2.kind);
    if !e1.kind.WorkDInsufficientQuotaError? {
      Unenclose(OpeningOf(e1.kind), e1.message, e2.message);
    }
  }

  lemma {:induction false} Unenclose(p: string, m1: string, m2: string)
    requires p + m1 + ")" == p + m2 + ")"
    ensures m1 == m2
  {
    assert m1 == (p + m1 + ")")[|p|..|p| + |m1|];
  }

  function OpeningOf(k: ErrorKind): string
    requires !k.Unrecognised? && !k.WorkDInsufficientQuotaError?
  {
    match k
    case WorkDLogInError => LogInOpening
    case WorkDCreateUserError => CreateUserOpening
    case ArgumentError => ArgumentOpening
  }

  /** The characters at indices 0 and 2 of each kind's report body. */
  function Signature(k: ErrorKind): (char, char)
    requires !k.Unrecognised?
  {
    match k
    case WorkDLogInError => ('w', 'r')
    case WorkDCreateUserError => ('f', 'i')
    case WorkDInsufficientQuotaError => ('i', 's')
    case ArgumentError => ('i', 'v')
  }

  lemma {:induction false} SignatureInjective(k1: ErrorKind, k2: ErrorKind)
    requires !k1.Unrecognised? && !k2.Unrecognised?
    requires Signature(k1) == Signature(k2)
    ensures k1 == k2
  {
  }
}
