# workD user tools — a verified model

Two Node.js scripts drive the workD web portal through a browser.

- `import-users.js` reads a CSV file of new accounts and creates each account through the portal's "add user" form. It writes the accounts it created, with the passwords the portal issued, to `<name>_imported.csv`.
- `get-users.js` walks the portal's paginated user listing and writes every listed account to a CSV file.

Their shared logic lives in `common/functions.js`, and their error classes in `common/classes.js`.

This project models that core in Dafny and proves what it promises:

- the argument and file-type checks;
- the login decision;
- the per-record account-creation workflow and its error handling;
- the import loop;
- the listing scraper, including its in-place removal of table rows;
- the order of steps in both scripts: the checks come first, and the browser is closed exactly when it was launched.

The browser is not modelled as a program. It is an oracle, and everything it would answer is an input of the model:

- **Login.** Whether the steps of the login form threw, and otherwise which element won the race on the login page (`Session.LoginAnswer`).
- **Account creation.** What the portal shows after the form of the i-th record is submitted (`Provisioner.Screen`): a browser fault, or a dialog with its title, message and password paragraph.
- **Listing.** The listing's pages, each a sequence of table rows (`Scraper.UserListPage.pages`).
- **Filesystem and prompt.** Whether each filesystem, prompt or browser step of a script succeeds, or which error it throws (`Scripts.SessionWorld`, `Scripts.ImportWorld`, `Scripts.ListingWorld`).

## Layout

| file | module | models |
|---|---|---|
| wrappers.dfy | Wrappers | `Option`, `Result` and `Outcome` (a step that passes or throws) |
| errors.dfy | Errors | the error classes of common/classes.js and `handleError` |
| text.dfy | Text | the JavaScript string built-ins the core uses: `trim`, `indexOf`, first-match `replace`, `toLowerCase`, line-break replacement, number-to-string and `Array.prototype.toString` |
| cli.dfy | Cli | `getArguments`, POSIX `path.extname`, `validateFiletype` and the two scripts' output paths |
| session.dfy | Session | the outcome of `logInWorkD` |
| scraper.dfy | Scraper | `evalGetAllUserInPage`, `evalClearAllUserInPage` and `getAllUser`. The user-management page is a class whose document is updated in place. |
| provisioner.dfy | Provisioner | the body of `importWorkDUsers`: username normalisation, the form, the dialog decision, the issued password, the output row, and the record loop with its per-record `try`/`catch` |
| scripts.dfy | Scripts | the top-level `try`/`catch`/`finally` of import-users.js and get-users.js, as methods that return the trace of steps that took effect |

## Points where the model follows the code

- **Username normalisation** trims the raw username first and then cuts it at the first `@`. So it is not idempotent: `" ab @c"` becomes `"ab "`, and normalising that again gives `"ab"`. `Provisioner.NormalizationNotIdempotent` proves both steps. Cutting at `@` alone is idempotent, which `Provisioner.CutAtFirstAtIdempotent` proves.
- **`path.extname`** ignores trailing slashes. So `"x.csv/"` passes the `.csv` check, while the anchored `/\.csv$/i` rename leaves it unchanged. The output path then equals the input path (`Cli.TrailingSlashKeepsPath`). For a validated path without a trailing slash, the rename always happens (`Cli.ValidatedPathIsRenamed`).
- **The `note` column** is read only after the account was created (common/functions.js:261). A record without that column therefore creates the account and then throws a `TypeError`. The model reports this as an abort of the batch after the portal's success.
- **An upper-case entry** in the allowed-type list can never match, because the extension is lower-cased and the entry is not (`Cli.UpperCaseEntryNeverMatches`).

## Model

| member | source | states |
|---|---|---|
| Errors.HandleError | common/functions.js:326-338 | An error is rethrown unchanged iff it is none of the four known classes; a known one is reported on a line that starts with `error: ` |
| Errors.ReportIdentifiesError | common/functions.js:326-338 | Two errors reported with the same line have the same class and, except for the fixed quota line, the same message |
| Text.TrimShape | common/functions.js:193-205 | `trim` keeps a slice of its input that neither begins nor ends with ECMAScript whitespace, cuts only whitespace on either side, and keeps a trimmed string whole |
| Text.IndexOf | common/functions.js:194-195 | `indexOf` gives the first index at which the pattern occurs, and none when it occurs nowhere |
| Text.ReplaceFirst | common/functions.js:247 | A string pattern in `replace` substitutes its first occurrence only and keeps both sides; without an occurrence the string is unchanged |
| Text.ReplaceLineBreaks | common/functions.js:229 | `/[\n\r]/g` turns every CR and LF into a space and changes nothing else |
| Cli.GetArguments | common/functions.js:25-34 | The positional arguments are returned iff there are exactly `count` of them; otherwise an ArgumentError "Expected N argument(s)" is thrown |
| Cli.ExtnameIsSuffix | common/functions.js:45 | A non-empty extension starts with a dot and is a proper suffix of the path without its trailing slashes |
| Cli.ValidateFiletype | common/functions.js:43-51 | Returns iff the lower-cased extension equals `.` plus some allowed entry; otherwise throws ArgumentError listing the allowed types joined by commas |
| Cli.UpperCaseEntryNeverMatches | common/functions.js:45-46 | An allowed entry with an upper-case letter never matches any path |
| Cli.ImportedPath | import-users.js:21 | A path that ends in `.csv` (any case) keeps everything before the extension, which is replaced by `_imported.csv`; any other path is left unchanged |
| Cli.ValidatedPathIsRenamed | import-users.js:20-21 | A path that passed the `.csv` check and has no trailing slash is always renamed, so the output never overwrites the input |
| Cli.TrailingSlashKeepsPath | import-users.js:20-21 | `x.csv/` passes the check but keeps its name, so the output path equals the input path |
| Session.LogInOutcome | common/functions.js:87-99 | A fault of the login form steps is thrown as it is; otherwise login succeeds iff the winning element's text is exactly "Web Portal", any other text is thrown as a WorkDLogInError carrying it, and no element means the timeout of the first wait, the one for the "Web Portal" marker |
| Session.OnlyTheTextDecides | common/functions.js:96-98 | Which element won does not matter, only its text: a longer landing text fails |
| Scraper.SeparatorKeepsCharacters | common/functions.js:289-297 | A date cell gains exactly one space when it is longer than ten characters, and loses nothing |
| Scraper.SeparatorRoundTrip | common/functions.js:289-297 | Removing the inserted space gives back the original cell text |
| Scraper.MapRow | common/functions.js:285-305 | A row maps iff it has the seven cells read; a shorter row throws the TypeError of reading a missing cell |
| Scraper.MapRowKeepsCells | common/functions.js:298-305 | Name, full name and email are cells 1-3 unchanged; the date fields are cells 4-6 with the separator inserted, and deleting it restores each cell; cell 0 is ignored |
| Scraper.MapRowsMeaning | common/functions.js:281-308 | A page maps iff every row maps; the users are then the rows' mappings, in document order |
| Scraper.RemovalKeepsOthers | common/functions.js:315-320 | Removing the user rows leaves no user row, keeps every other element, and adds nothing |
| Scraper.ShowPage | common/functions.js:143-148 | After the rows are cleared, a page click shows exactly the new page's rows beside the untouched rest of the document |
| Scraper.ScrapePagesMeaning | common/functions.js:134-154 | Reading the first n pages succeeds iff each is non-empty with complete rows; the users are then all their rows mapped, in page order |
| Scraper.ScrapeResult | common/functions.js:134-154 | `getAllUser` succeeds iff the listing has pages and all are readable; it then returns one user per row of every page, in order |
| Scraper.ErrorPersists | common/functions.js:138-152 | Once a page fails, later pages do not change the thrown error |
| Scraper.UserListPage.constructor | common/functions.js:108-114 | The user-management screen shows page 1's rows |
| Scraper.UserListPage.ClickPage | common/functions.js:146-148 | Clicking the control for page k puts page k's rows in place of the table's rows |
| Scraper.UserListPage.ReadUserRows | common/functions.js:281-308 | The page-side loop returns the mapping of the document's user rows, or the first row's error |
| Scraper.UserListPage.ClearUserRows | common/functions.js:315-320 | The loop removes every user row in place, and the rest of the document is kept in order |
| Scraper.UserListPage.ReadAndClearPage | common/functions.js:140-143 | Waiting for a row, reading the page, then clearing it: the result is the page's reading; on success the document is left without rows, and on an error it is unchanged |
| Scraper.UserListPage.OpenPage | common/functions.js:145-151 | The next page is opened iff its control exists, and the document then shows its rows |
| Scraper.UserListPage.VisitPage | common/functions.js:139-151 | One loop turn keeps the scrape's progress invariant; an error is the error of the whole scrape |
| Scraper.UserListPage.GetAllUser | common/functions.js:134-154 | Returns exactly the reference scrape of the listing and visits pages 1, 2, … in order; on success it leaves the document without user rows |
| Provisioner.CutAtFirstAtShape | common/functions.js:194-196 | Cutting at the first `@` gives a prefix without `@`, and keeps a string without `@` whole |
| Provisioner.CutAtFirstAtIdempotent | common/functions.js:194-196 | Cutting at `@` twice is the same as cutting once |
| Provisioner.NormalizedUsername | common/functions.js:193-196 | The username is a prefix of the trimmed cell, without `@`, and the whole trimmed cell when it has no `@` |
| Provisioner.NormalizationNotIdempotent | common/functions.js:193-196 | Trim-then-cut is not idempotent: `" ab @c"` becomes `"ab "`, which normalises to `"ab"` |
| Provisioner.RejectionMessageShape | common/functions.js:228-230 | The rejection message is the username, ` -> `, then the dialog message with its line breaks turned into spaces |
| Provisioner.IssuedPasswordShape | common/functions.js:246-247 | The password is the paragraph with its first `รหัสผ่าน: ` removed; a paragraph that starts with the label yields the rest |
| Provisioner.RowFollowsColumns | common/functions.js:172-187 | The output row has the eleven header columns, and each cell holds the field its column names |
| Provisioner.RowRoundTrip | common/functions.js:250-263 | Looking a cell up by its header column name gives the field that column names, and the account can be read back from its output row |
| Provisioner.CreationDecision | common/functions.js:225-262 | A non-success title throws WorkDCreateUserError with the rejection message; a browser fault, a missing password label or a missing note column throws an unknown error; the record is created iff the title is the success title, the label is present and the note column exists, and then the account is the form's fields with the issued password and the trimmed note |
| Provisioner.RecordErrorHandling | common/functions.js:266-268 | A record is imported, skipped with its report line (a known error), or ends the batch (an unknown error, rethrown by `handleError`) |
| Provisioner.Completed | common/functions.js:190-271 | The records processed are those before the first one whose error escapes the loop |
| Provisioner.ImportRunMeaning | common/functions.js:189-272 | The loop returns iff no record's error escapes; it returns the imported accounts in record order, or else throws the first escaping error |
| Provisioner.ErrorPersists | common/functions.js:190-271 | Once a record's error escapes, later records do not change the outcome |
| Provisioner.ImportWorkDUsers | common/functions.js:164-273 | The loop's result is the reference run over the records, and the rows written are those of the accounts imported before the first escaping error |
| Scripts.ExitOf | import-users.js:38-40 | A run finishes iff its `try` block passed; a known error is logged with its report; an unknown error escapes unchanged |
| Scripts.CountReported | common/functions.js:29-30 | A wrong argument count is reported as `error: invalid argument(s) (Expected 1 argument(s))` |
| Scripts.FiletypeReported | common/functions.js:50 | A wrong file type is reported as `error: invalid argument(s) (Invalid file type. Allowed file type(s): csv)` |
| Scripts.Finally | import-users.js:37-44 | The exit is `handleError`'s handling of what the `try` block threw; the browser is closed iff it was launched, once and last, and no write is added |
| Scripts.FinallyBrackets | import-users.js:40-44 | The `finally` block closes the browser exactly when it was launched, once, as the last step |
| Scripts.CheckImportArgs | import-users.js:18-20 | The input path is accepted iff there is exactly one argument and it has a `.csv` extension |
| Scripts.OpenSession | import-users.js:26-32 | The block throws the error of the first failing step among prompt, launch, new page, login and user-management screen; the browser counts as launched iff the prompt and `puppeteer.launch` returned |
| Scripts.BrowserSession | import-users.js:29-32 | In a launched browser, the block throws the error of the first failing step among new page, login and user-management screen, and passes iff none fails |
| Scripts.ImportTry | import-users.js:17-37 | Nothing happens before the arguments pass; the first step is reading the input; the block throws the error of the first failing step in script order; the browser is launched iff the arguments pass and the read, prompt and launch succeed; a pass has the full trace |
| Scripts.ImportFrom | import-users.js:21-36 | After the checks: read, session, import and write, in that order, to the derived output path; the error thrown is that of the first failing step; the browser is launched iff read, prompt and launch succeed |
| Scripts.ImportAndWrite | import-users.js:33-36 | The import loop's error is thrown before the write is tried and leaves the trace unchanged; the result is written iff the loop returned and the write succeeds, and a failed write leaves only the import step |
| Scripts.RecordBatch | import-users.js:33-36 | A thrown import skips the write, adds no step and is what the block throws; otherwise the accounts returned are what is written, and a write fault is thrown with only the import step recorded |
| Scripts.WriteStep | import-users.js:36 | The write takes effect iff the filesystem accepts it; otherwise its fault is thrown and no step is added |
| Scripts.ImportUsers | import-users.js:15-45 | Bad arguments produce no step and their report; the exit is the handling of the first failing step's error; the browser is closed iff the arguments pass and the read, prompt and launch succeed, once and last; a finished run writes the imported accounts to the renamed path, and a run that does not finish writes nothing; only unknown errors escape |
| Scripts.CheckListingArgs | get-users.js:17-22 | Without arguments the path is `workdUsers.csv` and nothing is checked; otherwise it is the first argument, which must have a `.csv` extension |
| Scripts.ListingTry | get-users.js:16-35 | Nothing happens before the path check passes; the first step is the prompt; the block throws the error of the first failing step in script order; the browser is launched iff the path passes and prompt and launch succeed; a pass has the full trace |
| Scripts.ScrapeAndWrite | get-users.js:31-34 | The scrape's error is thrown before the write is tried and leaves the trace unchanged; the whole listing is written iff the scrape returned and the write succeeds, and a failed write leaves only the scrape step |
| Scripts.GetUsers | get-users.js:14-42 | A rejected path produces no step and its report; the exit is the handling of the first failing step's error; the browser is closed iff the path passes and prompt and launch succeed, once and last; a finished run writes the whole listing to the selected path, and a run that does not finish writes nothing; only unknown errors escape |

## Left out

- The browser itself is not modelled. This covers navigation, selectors, typing, clicks and the `Promise.race` timing. Its answers are oracle inputs. A `waitForSelector` that would never match is modelled as a timeout error.
- The navigation steps of account creation are collapsed into the portal's single answer per record. These are `openUserAddPage`, the form typing, the role selection, the search and the password reset (common/functions.js:206-224, 228, 231-233, 236-245, 248-249). A fault in any of them is a `Screen.Fault`. On the rejection path, a dialog with a non-success title always yields WorkDCreateUserError. A timeout in the `.dialog-message` wait at line 228 is not separated from it, and neither is one in the follow-up clicks at lines 231-233.
- `promptCredential` is not modelled: the credential itself is not modelled, only whether the prompt throws. The `Credential` class is left out with it.
- CSV parsing and CSV output are not modelled: the BOM and the header line. Records are maps from column name to cell text. An output row is the sequence of its eleven cells.
- Reading and writing files are modelled only as steps that succeed or throw.
- In `importWorkDUsers`, `stringifier.end()` sits in the per-record `finally` (common/functions.js:268-270). The output stream is therefore ended after the first record. What later `write` calls do to the file is stream I/O and is not modelled. `Provisioner.ImportWorkDUsers` states the rows the loop hands to the stream, not the bytes that reach the file.
- The call at import-users.js:33 passes the input file's contents where `importWorkDUsers` expects a path, and omits the output path. This is file wiring. The model's `Scripts.ImportFrom` gives the loop the parsed records, and writes the returned accounts to the derived path as line 36 does.
- Console `info:` logging is left out. The `error:` lines of `handleError` are modelled as the `Logged` exit.
- A failure of `browser.close()` itself is not modelled.
- `Scraper.UserListPage.OpenPage`: a fault of the `$x` query or of the page-button click in `getAllUser` (common/functions.js:146-148) is not modelled; the document always answers the query and the click takes effect.
- `path.extname` is modelled for POSIX paths only. Windows separators and drive letters are not handled.
- `toLowerCase` and the `/i` flag are modelled for ASCII letters only. This is exact for the `.csv` comparisons the scripts make.
- Strings are sequences of Unicode scalar values, while JavaScript counts UTF-16 code units. The two differ only outside the Basic Multilingual Plane.
- WorkDInsufficientQuotaError is never thrown by the modelled code. It appears only in `Errors.HandleError`.
