/**
 * The two entry scripts, import-users.js and get-users.js. Each checks its
 * arguments, then prompts for a credential, launches a browser, logs in,
 * opens the user-management screen, does its work and writes a CSV file.
 * Whatever it throws goes to `handleError`, and a `finally` closes the
 * browser if one was launched.
 *
 * Everything the scripts do outside the model is an answer of the world: a
 * step of the filesystem, the prompt or the browser either succeeds or
 * throws the error the world names. The run is recorded as a trace of the
 * steps that took effect.
 */
module Scripts {
  import opened Wrappers
  import opened Errors
  import opened Text
  import opened Cli
  import opened Session
  import opened Scraper
  import opened Provisioner

  /** A step of a run that took effect. */
  datatype Event =
    | ReadInput(path: string)                                   // fs.readFile returned
    | PromptCredential                                          // the credential was entered
    | LaunchBrowser                                             // puppeteer.launch returned: `browser` is set
    | LogIn                                                     // logInWorkD returned
    | OpenUserManagement                                        // openUserManagementPage returned
    | ImportBatch                                               // importWorkDUsers returned
    | ScrapeListing                                             // getAllUser returned
    | WriteImported(path: string, users: seq<ImportedUser>)     // the imported accounts were written
    | WriteListing(path: string, listed: seq<ListedUser>)       // the listing was written
    | CloseBrowser                                              // browser.close() in `finally`

  /** How a run ends. */
  datatype Exit =
    | Finished                // the `try` block ran to its end
    | Logged(line: string)    // `handleError` logged a known error
    | Crashed(error: Error)   // `handleError` rethrew an unknown error

  /** The answers of the prompt and the browser up to the user-management screen; `None` means the step succeeds. */
  datatype SessionWorld = SessionWorld(
    credentialFault: Option<Error>,
    launchFault: Option<Error>,
    newPageFault: Option<Error>,
    login: LoginAnswer,
    openFault: Option<Error>)

  /** The answers the world gives to an import run; `None` means the step succeeds. */
  datatype ImportWorld = ImportWorld(
    readFault: Option<Error>,
    records: seq<Record>,
    session: SessionWorld,
    portal: (nat, NewUserForm) -> Screen,
    writeFault: Option<Error>)

  /** The answers the world gives to a listing run; `None` means the step succeeds. */
  datatype ListingWorld = ListingWorld(
    session: SessionWorld,
    pages: seq<seq<Cells>>,
    writeFault: Option<Error>)

  /** The steps that need a page of a launched browser. */
  predicate UsesBrowser(e: Event) {
    e.LogIn? || e.OpenUserManagement? || e.ImportBatch? || e.ScrapeListing?
  }

  /** Steps that write a result file. */
  predicate IsWrite(e: Event) {
    e.WriteImported? || e.WriteListing?
  }

  /** No result file was written. */
  predicate NoWrite(trace: seq<Event>) {
    forall i :: 0 <= i < |trace| ==> !IsWrite(trace[i])
  }

  lemma {:induction false} NoWriteAppend(trace: seq<Event>, e: Event)
    requires NoWrite(trace) && !IsWrite(e)
    ensures NoWrite(trace + [e])
  {
    forall i | 0 <= i < |trace + [e]| ensures !IsWrite((trace + [e])[i]) {
      if i < |trace| {
        assert (trace + [e])[i] == trace[i];
      }
    }
  }

  /** A trace of a `try` block so far: browser steps follow the launch, nothing is closed yet. */
  predicate BeforeClose(trace: seq<Event>, launched: bool) {
    && (forall i :: 0 <= i < |trace| && UsesBrowser(trace[i]) ==> LaunchBrowser in trace[..i])
    && (launched <==> LaunchBrowser in trace)
    && CloseBrowser !in trace
  }

  /**
   * A whole run: every browser step follows the launch, and the browser is
   * closed exactly when it was launched, once, as the last step.
   */
  predicate Bracketed(trace: seq<Event>) {
    && (forall i :: 0 <= i < |trace| && UsesBrowser(trace[i]) ==> LaunchBrowser in trace[..i])
    && (LaunchBrowser in trace <==> CloseBrowser in trace)
    && (CloseBrowser in trace ==> trace[|trace| - 1] == CloseBrowser && CloseBrowser !in trace[..|trace| - 1])
  }

  lemma {:induction false} AppendStep(trace: seq<Event>, launched: bool, e: Event)
    requires BeforeClose(trace, launched)
    requires e != LaunchBrowser && e != CloseBrowser
    requires UsesBrowser(e) ==> launched
    ensures BeforeClose(trace + [e], launched)
  {
    var t := trace + [e];
    assert t[..|trace|] == trace;
    forall i | 0 <= i < |t| && UsesBrowser(t[i]) ensures LaunchBrowser in t[..i] {
      if i < |trace| {
        assert t[..i] == trace[..i];
      } else {
        assert LaunchBrowser in trace;
      }
    }
  }

  lemma {:induction false} AppendLaunch(trace: seq<Event>)
    requires BeforeClose(trace, false)
    ensures BeforeClose(trace + [LaunchBrowser], true)
  {
  }

  /** The `finally` block turns a `try` trace into a whole run. */
  lemma {:induction false} FinallyBrackets(trace: seq<Event>, launched: bool)
    requires BeforeClose(trace, launched)
    ensures Bracketed(if launched then trace + [CloseBrowser] else trace)
  {
    if launched {
      var t := trace + [CloseBrowser];
      assert t[..|trace|] == trace;
      forall i | 0 <= i < |t| && UsesBrowser(t[i]) ensures LaunchBrowser in t[..i] {
        assert i < |trace| && t[..i] == trace[..i];
      }
    }
  }

  /**
   * `handleError` on what the `try` block threw, then the `finally` block:
   * the browser is closed if it was launched, and nothing else happens.
   */
  method Finally(r: Outcome<Error>, launched: bool, tryTrace: seq<Event>) returns (exit: Exit, trace: seq<Event>)
    requires BeforeClose(tryTrace, launched)
    ensures exit == ExitOf(r)
    ensures trace == if launched then tryTrace + [CloseBrowser] else tryTrace
    ensures Bracketed(trace)
    ensures NoWrite(tryTrace) ==> NoWrite(trace)
  {
    exit := ExitOf(r);
    FinallyBrackets(tryTrace, launched);
    trace := tryTrace;
    if launched {
      if NoWrite(tryTrace) {
        NoWriteAppend(tryTrace, CloseBrowser);
      }
      trace := trace + [CloseBrowser];
    }
  }

  /** The exit of a run whose `try` block ended with `r`. */
  function ExitOf(r: Outcome<Error>): (exit: Exit)
    ensures exit.Finished? <==> r.Pass?
    ensures exit.Crashed? <==> r.Fail? && r.error.kind.Unrecognised?
    ensures exit.Crashed? ==> exit.error == r.error
    ensures exit.Logged? ==> exit == Logged(Tag + ReportBody(r.error))
  {
    match r
    case Pass => Finished
    case Fail(e) =>
      match HandleError(e)
      case Reported(line) => Logged(line)
      case Rethrown(e') => Crashed(e')
  }

  /** The outcome of a `try` block whose first failing step, if any, threw `failure`. */
  function Raised(failure: Option<Error>): (r: Outcome<Error>)
    ensures r.Pass? <==> failure.None?
    ensures r.Fail? ==> r.error == failure.value
  {
    match failure
    case None => Pass
    case Some(e) => Fail(e)
  }

  /** What `getArguments(1)` throws on a wrong argument count. */
  const CountError: Error := Error(ArgumentError, "Expected " + Decimal(1) + " argument(s)")
  /** What `validateFiletype(path, ['csv'])` throws on another extension. */
  const FiletypeError: Error := Error(ArgumentError, "Invalid file type. Allowed file type(s): " + JoinComma(["csv"]))

  /** The report of a wrong argument count. */
  const CountReport: string := Tag + ArgumentOpening + "Expected 1 argument(s)" + ")"
  /** The report of an input path whose extension is not `.csv`. */
  const FiletypeReport: string := Tag + ArgumentOpening + "Invalid file type. Allowed file type(s): csv" + ")"

  lemma {:induction false} CountReported()
    ensures ExitOf(Fail(CountError)) == Logged(CountReport)
  {
    var m := "Expected 1 argument(s)";
    assert Decimal(1) == "1";
    assert "Expected " + Decimal(1) + " argument(s)" == m;
    assert ReportBody(Error(ArgumentError, m)) == ArgumentOpening + m + ")";
  }

  lemma {:induction false} FiletypeReported()
    ensures ExitOf(Fail(FiletypeError)) == Logged(FiletypeReport)
  {
    var m := "Invalid file type. Allowed file type(s): csv";
    assert JoinComma(["csv"]) == "csv";
    assert "Invalid file type. Allowed file type(s): " + JoinComma(["csv"]) == m;
    assert ReportBody(Error(ArgumentError, m)) == ArgumentOpening + m + ")";
  }

  /** The single argument of import-users.js names a `.csv` file. */
  predicate ValidImportArgs(argv: seq<string>) {
    |UserArguments(argv)| == 1 && HasFiletype(UserArguments(argv)[0], "csv")
  }

  /**
   * What an import run throws, if anything: the error of its first failing
   * step, in the order the script takes them.
   */
  function ImportFailure(argv: seq<string>, world: ImportWorld): Option<Error> {
    if !ValidImportArgs(argv) then Some(ImportArgumentError(argv)) else RunFailure(world)
  }

  /** What the argument checks of import-users.js throw: the count is checked first. */
  function ImportArgumentError(argv: seq<string>): Error {
    if |UserArguments(argv)| != 1 then CountError else FiletypeError
  }

  /** The first failing step of import-users.js after the argument checks. */
  function RunFailure(world: ImportWorld): Option<Error> {
    if world.readFault.Some? then world.readFault
    else if SessionFailure(world.session).Some? then SessionFailure(world.session)
    else BatchFailure(ImportRun(Outcomes(world.records, world.portal)), world.writeFault)
  }

  /** The failure of a batch step followed by its write. */
  function BatchFailure<T>(batch: Result<T, Error>, writeFault: Option<Error>): Option<Error> {
    if batch.Err? then Some(batch.error) else writeFault
  }

  /** The trace of an import run in which every step succeeds. */
  function ImportTrace(inputPath: string, users: seq<ImportedUser>): seq<Event> {
    [ReadInput(inputPath)] + SessionSteps + [ImportBatch, WriteImported(ImportedPath(inputPath), users)]
  }

  /** The checks of import-users.js, lines 18-21. */
  method CheckImportArgs(argv: seq<string>) returns (r: Result<string, Error>)
    ensures r.Ok? <==> ValidImportArgs(argv)
    ensures r.Ok? ==> r.value == UserArguments(argv)[0]
    ensures r.Err? ==> r.error == ImportArgumentError(argv)
    ensures r.Err? ==>
              ExitOf(Fail(r.error)) == Logged(if |UserArguments(argv)| != 1 then CountReport else FiletypeReport)
  {
    CountReported();
    FiletypeReported();
    var args := GetArguments(argv, 1);
    if args.Err? {
      return Err(args.error);
    }
    var inputFilePath := args.value[0];
    var valid := ValidateFiletype(inputFilePath, ["csv"]);
    assert (exists k :: 0 <= k < |["csv"]| && HasFiletype(inputFilePath, ["csv"][k]))
           <==> HasFiletype(inputFilePath, "csv") by {
      assert ["csv"][0] == "csv";
    }
    if valid.Fail? {
      return Err(valid.error);
    }
    return Ok(inputFilePath);
  }

  /** The prompt and `puppeteer.launch` succeed, so `browser` is set. */
  predicate Launches(w: SessionWorld) {
    w.credentialFault.None? && w.launchFault.None?
  }

  /** The first failing step up to the user-management screen, if any. */
  function SessionFailure(w: SessionWorld): Option<Error> {
    if w.credentialFault.Some? then w.credentialFault
    else if w.launchFault.Some? then w.launchFault
    else BrowserFailure(w.newPageFault, w.login, w.openFault)
  }

  /** The first failing step once the browser is launched, if any. */
  function BrowserFailure(newPageFault: Option<Error>, login: LoginAnswer, openFault: Option<Error>): Option<Error> {
    if newPageFault.Some? then newPageFault
    else if LogInOutcome(login).Fail? then Some(LogInOutcome(login).error)
    else openFault
  }

  /** The steps of the session that took effect when every one of them succeeds. */
  const SessionSteps: seq<Event> := [PromptCredential, LaunchBrowser, LogIn, OpenUserManagement]

  /**
   * The credential prompt, the launch, the new page, `logInWorkD` and
   * `openUserManagementPage`, common to both scripts. `browser` is set
   * once `puppeteer.launch` has returned, whatever fails after it.
   */
  method OpenSession(w: SessionWorld, before: seq<Event>)
    returns (r: Outcome<Error>, launched: bool, trace: seq<Event>)
    requires BeforeClose(before, false)
    ensures BeforeClose(trace, launched)
    ensures |before| <= |trace| && trace[..|before|] == before
    ensures |trace| > |before| ==> trace[|before|] == PromptCredential
    ensures r == Raised(SessionFailure(w))
    ensures launched <==> Launches(w)
    ensures NoWrite(before) ==> NoWrite(trace)
    ensures r.Pass? ==> launched && trace == before + SessionSteps
  {
    launched, trace := false, before;
    if w.credentialFault.Some? {
      return Fail(w.credentialFault.value), launched, trace;
    }
    AppendStep(trace, launched, PromptCredential);
    trace := trace + [PromptCredential];
    if w.launchFault.Some? {
      return Fail(w.launchFault.value), launched, trace;
    }
    AppendLaunch(trace);
    trace, launched := trace + [LaunchBrowser], true;
    ghost var launchedTrace := trace;
    r, trace := BrowserSession(w.newPageFault, w.login, w.openFault, trace);
    assert trace[..|before|] == launchedTrace[..|before|] == before;
    assert trace[|before|] == launchedTrace[|before|];
  }

  /** Opening a page, logging in and opening the user-management screen in a launched browser. */
  method BrowserSession(newPageFault: Option<Error>, login: LoginAnswer, openFault: Option<Error>,
                        before: seq<Event>)
    returns (r: Outcome<Error>, trace: seq<Event>)
    requires BeforeClose(before, true)
    ensures BeforeClose(trace, true)
    ensures r == Raised(BrowserFailure(newPageFault, login, openFault))
    ensures NoWrite(before) ==> NoWrite(trace)
    ensures r.Pass? ==> trace == before + [LogIn, OpenUserManagement]
    ensures |before| <= |trace| && trace[..|before|] == before
  {
    trace := before;
    if newPageFault.Some? {
      return Fail(newPageFault.value), trace;
    }
    var loggedIn := LogInOutcome(login);
    if loggedIn.Fail? {
      return loggedIn, trace;
    }
    AppendStep(trace, true, LogIn);
    trace := trace + [LogIn];
    if openFault.Some? {
      return Fail(openFault.value), trace;
    }
    AppendStep(trace, true, OpenUserManagement);
    trace := trace + [OpenUserManagement];
    return Pass, trace;
  }

  /** The `try` block of import-users.js. */
  method ImportTry(argv: seq<string>, world: ImportWorld)
    returns (r: Outcome<Error>, launched: bool, trace: seq<Event>)
    ensures BeforeClose(trace, launched)
    ensures !ValidImportArgs(argv) ==>
              trace == [] && !launched && r.Fail?
              && ExitOf(r) == Logged(if |UserArguments(argv)| != 1 then CountReport else FiletypeReport)
    ensures trace != [] ==> ValidImportArgs(argv) && trace[0] == ReadInput(UserArguments(argv)[0])
    ensures r == Raised(ImportFailure(argv, world))
    ensures r.Fail? ==> NoWrite(trace)
    ensures launched <==> ValidImportArgs(argv) && world.readFault.None? && Launches(world.session)
    ensures r.Pass? ==>
              && ImportRun(Outcomes(world.records, world.portal)).Ok?
              && trace == ImportTrace(UserArguments(argv)[0], ImportRun(Outcomes(world.records, world.portal)).value)
  {
    launched, trace := false, [];
    var checked := CheckImportArgs(argv);
    if checked.Err? {
      return Fail(checked.error), launched, trace;
    }
    r, launched, trace := ImportFrom(checked.value, world);
  }

  /** import-users.js from line 21 on, once the input path has passed the checks. */
  method ImportFrom(inputFilePath: string, world: ImportWorld)
    returns (r: Outcome<Error>, launched: bool, trace: seq<Event>)
    ensures BeforeClose(trace, launched)
    ensures trace != [] ==> trace[0] == ReadInput(inputFilePath)
    ensures r == Raised(RunFailure(world))
    ensures r.Fail? ==> NoWrite(trace)
    ensures launched <==> world.readFault.None? && Launches(world.session)
    ensures r.Pass? ==>
              && ImportRun(Outcomes(world.records, world.portal)).Ok?
              && trace == ImportTrace(inputFilePath, ImportRun(Outcomes(world.records, world.portal)).value)
  {
    launched, trace := false, [];
    var outputFilePath := ImportedPath(inputFilePath);
    if world.readFault.Some? {
      return Fail(world.readFault.value), launched, trace;
    }
    AppendStep(trace, launched, ReadInput(inputFilePath));
    r, launched, trace := OpenSession(world.session, [ReadInput(inputFilePath)]);
    assert trace[0] == trace[..1][0] == ReadInput(inputFilePath);
    if r.Fail? {
      return;
    }
    ghost var sessionTrace := trace;
    r, trace := ImportAndWrite(world, outputFilePath, trace);
    assert trace[0] == trace[..|sessionTrace|][0] == sessionTrace[0];
  }

  /** `importWorkDUsers` on the user-management screen, then writing its result. */
  method ImportAndWrite(world: ImportWorld, outputFilePath: string, before: seq<Event>)
    returns (r: Outcome<Error>, trace: seq<Event>)
    requires BeforeClose(before, true)
    ensures BeforeClose(trace, true)
    ensures |before| <= |trace| && trace[..|before|] == before
    ensures r == Raised(BatchFailure(ImportRun(Outcomes(world.records, world.portal)), world.writeFault))
    ensures ImportRun(Outcomes(world.records, world.portal)).Err? ==> trace == before
    ensures ImportRun(Outcomes(world.records, world.portal)).Ok? && r.Fail? ==> trace == before + [ImportBatch]
    ensures r.Pass? ==>
              trace == before + [ImportBatch, WriteImported(outputFilePath, ImportRun(Outcomes(world.records, world.portal)).value)]
  {
    var imported, _ := ImportWorkDUsers(world.records, world.portal);
    r, trace := RecordBatch(imported, world.writeFault, outputFilePath, before);
  }

  /** The import's result: thrown on, or recorded and written. */
  method RecordBatch(imported: Result<seq<ImportedUser>, Error>, writeFault: Option<Error>,
                     outputFilePath: string, before: seq<Event>)
    returns (r: Outcome<Error>, trace: seq<Event>)
    requires BeforeClose(before, true)
    ensures BeforeClose(trace, true)
    ensures |before| <= |trace| && trace[..|before|] == before
    ensures r == Raised(BatchFailure(imported, writeFault))
    ensures imported.Err? ==> trace == before
    ensures imported.Ok? && r.Fail? ==> trace == before + [ImportBatch]
    ensures r.Pass? ==> trace == before + [ImportBatch, WriteImported(outputFilePath, imported.value)]
  {
    trace := before;
    if imported.Err? {
      return Fail(imported.error), trace;
    }
    AppendStep(trace, true, ImportBatch);
    r, trace := WriteStep(writeFault, WriteImported(outputFilePath, imported.value), trace + [ImportBatch]);
  }

  /** `fs.writeFile` of a result: the last step of both scripts' `try` blocks. */
  method WriteStep(writeFault: Option<Error>, write: Event, before: seq<Event>)
    returns (r: Outcome<Error>, trace: seq<Event>)
    requires BeforeClose(before, true)
    requires write.WriteImported? || write.WriteListing?
    ensures BeforeClose(trace, true)
    ensures |before| <= |trace| && trace[..|before|] == before
    ensures r == Raised(writeFault)
    ensures r.Pass? ==> trace == before + [write]
    ensures r.Fail? ==> trace == before
  {
    trace := before;
    if writeFault.Some? {
      return Fail(writeFault.value), trace;
    }
    AppendStep(trace, true, write);
    trace := trace + [write];
    return Pass, trace;
  }

  /**
   * import-users.js: argument checks come before any other step, the
   * browser is closed exactly when it was launched, and a run that finishes
   * writes the imported accounts next to the input file.
   */
  method ImportUsers(argv: seq<string>, world: ImportWorld) returns (exit: Exit, trace: seq<Event>)
    ensures Bracketed(trace)
    ensures !ValidImportArgs(argv) ==>
              trace == []
              && exit == Logged(if |UserArguments(argv)| != 1 then CountReport else FiletypeReport)
    ensures trace != [] ==> ValidImportArgs(argv) && trace[0] == ReadInput(UserArguments(argv)[0])
    ensures exit == ExitOf(Raised(ImportFailure(argv, world)))
    ensures !exit.Finished? ==> NoWrite(trace)
    ensures exit.Finished? <==> ImportFailure(argv, world).None?
    ensures CloseBrowser in trace <==> ValidImportArgs(argv) && world.readFault.None? && Launches(world.session)
    ensures exit.Finished? ==>
              && ImportRun(Outcomes(world.records, world.portal)).Ok?
              && trace == ImportTrace(UserArguments(argv)[0], ImportRun(Outcomes(world.records, world.portal)).value)
                          + [CloseBrowser]
    ensures exit.Crashed? ==> exit.error.kind.Unrecognised?
  {
    var r, launched;
    r, launched, trace := ImportTry(argv, world);
    exit, trace := Finally(r, launched, trace);
  }

  /** The argument of get-users.js, if any, names a `.csv` file. */
  predicate ValidListingArgs(argv: seq<string>) {
    UserArguments(argv) == [] || HasFiletype(UserArguments(argv)[0], "csv")
  }

  /**
   * What a listing run throws, if anything: the error of its first failing
   * step, in the order the script takes them.
   */
  function ListingFailure(argv: seq<string>, world: ListingWorld): Option<Error> {
    if !ValidListingArgs(argv) then Some(FiletypeError)
    else if SessionFailure(world.session).Some? then SessionFailure(world.session)
    else BatchFailure(Scrape(world.pages), world.writeFault)
  }

  /** The trace of a listing run in which every step succeeds. */
  function ListingTrace(path: string, users: seq<ListedUser>): seq<Event> {
    SessionSteps + [ScrapeListing, WriteListing(path, users)]
  }

  /** The path selection of get-users.js, lines 17-22. */
  method CheckListingArgs(argv: seq<string>) returns (r: Result<string, Error>)
    ensures r.Ok? <==> ValidListingArgs(argv)
    ensures r.Ok? ==> r.value == ListingPath(UserArguments(argv))
    ensures r.Err? ==> r.error == FiletypeError
    ensures r.Err? ==> ExitOf(Fail(r.error)) == Logged(FiletypeReport)
  {
    FiletypeReported();
    var args := UserArguments(argv);
    var filePath := DefaultListingPath;
    if |args| > 0 {
      filePath := args[0];
      var valid := ValidateFiletype(filePath, ["csv"]);
      assert (exists k :: 0 <= k < |["csv"]| && HasFiletype(filePath, ["csv"][k]))
             <==> HasFiletype(filePath, "csv") by {
        assert ["csv"][0] == "csv";
      }
      if valid.Fail? {
        return Err(valid.error);
      }
    }
    return Ok(filePath);
  }

  /** The `try` block of get-users.js. */
  method ListingTry(argv: seq<string>, world: ListingWorld)
    returns (r: Outcome<Error>, launched: bool, trace: seq<Event>)
    ensures BeforeClose(trace, launched)
    ensures !ValidListingArgs(argv) ==>
              trace == [] && !launched && r.Fail?
              && ExitOf(r) == Logged(FiletypeReport)
    ensures trace != [] ==> ValidListingArgs(argv) && trace[0] == PromptCredential
    ensures r == Raised(ListingFailure(argv, world))
    ensures r.Fail? ==> NoWrite(trace)
    ensures launched <==> ValidListingArgs(argv) && Launches(world.session)
    ensures r.Pass? ==>
              && Scrape(world.pages).Ok?
              && trace == ListingTrace(ListingPath(UserArguments(argv)), Scrape(world.pages).value)
  {
    launched, trace := false, [];
    var checked := CheckListingArgs(argv);
    if checked.Err? {
      return Fail(checked.error), launched, trace;
    }
    var filePath := checked.value;
    r, launched, trace := OpenSession(world.session, []);
    if r.Fail? {
      return;
    }
    r, trace := ScrapeAndWrite(world.pages, world.writeFault, filePath, trace);
  }

  /** `getAllUser` on the user-management screen, then writing its result. */
  method ScrapeAndWrite(pages: seq<seq<Cells>>, writeFault: Option<Error>, filePath: string, before: seq<Event>)
    returns (r: Outcome<Error>, trace: seq<Event>)
    requires BeforeClose(before, true)
    ensures BeforeClose(trace, true)
    ensures |before| <= |trace| && trace[..|before|] == before
    ensures r == Raised(BatchFailure(Scrape(pages), writeFault))
    ensures Scrape(pages).Err? ==> trace == before
    ensures Scrape(pages).Ok? && r.Fail? ==> trace == before + [ScrapeListing]
    ensures r.Pass? ==> trace == before + [ScrapeListing, WriteListing(filePath, Scrape(pages).value)]
  {
    trace := before;
    RenderedRows(PageRows(pages, 1));
    var page := new UserListPage(pages, []);
    assert page.elements == Render(PageRows(pages, 1));
    var users, _ := page.GetAllUser();
    if users.Err? {
      return Fail(users.error), trace;
    }
    AppendStep(trace, true, ScrapeListing);
    r, trace := WriteStep(writeFault, WriteListing(filePath, users.value), trace + [ScrapeListing]);
  }

  /**
   * get-users.js: a supplied path is checked before any other step, the
   * default path is used when none is supplied, the browser is closed
   * exactly when it was launched, and a run that finishes writes the whole
   * listing to the selected path.
   */
  method GetUsers(argv: seq<string>, world: ListingWorld) returns (exit: Exit, trace: seq<Event>)
    ensures Bracketed(trace)
    ensures !ValidListingArgs(argv) ==> trace == [] && exit == Logged(FiletypeReport)
    ensures trace != [] ==> ValidListingArgs(argv) && trace[0] == PromptCredential
    ensures exit == ExitOf(Raised(ListingFailure(argv, world)))
    ensures !exit.Finished? ==> NoWrite(trace)
    ensures exit.Finished? <==> ListingFailure(argv, world).None?
    ensures CloseBrowser in trace <==> ValidListingArgs(argv) && Launches(world.session)
    ensures exit.Finished? ==>
              && Scrape(world.pages).Ok?
              && trace == ListingTrace(ListingPath(UserArguments(argv)), Scrape(world.pages).value) + [CloseBrowser]
    ensures exit.Crashed? ==> exit.error.kind.Unrecognised?
  {
    var r, launched;
    r, launched, trace := ListingTry(argv, world);
    exit, trace := Finally(r, launched, trace);
  }
}
