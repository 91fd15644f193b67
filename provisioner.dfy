/**
 * The account importer of common/functions.js: `importWorkDUsers`, its
 * string rules (username normalisation, rejection message, issued
 * password) and the shape of the record it writes for each account.
 *
 * The browser workflow that fills in and submits the new-user form is an
 * oracle: for the i-th record and the form values derived from it, the
 * portal either fails in the browser layer (a puppeteer timeout or any
 * other runtime error) or shows the creation dialog.
 */
module Provisioner {
  import opened Wrappers
  import opened Errors
  import opened Text

  // ---------------------------------------------------------------------
  // Username normalisation
  // ---------------------------------------------------------------------

  predicate HasNoAt(s: string) {
    forall k :: 0 <= k < |s| ==> s[k] != '@'
  }

  /** Everything before the first `@`, or the whole string when it holds none. */
  function CutAtFirstAt(s: string): string {
    match IndexOf(s, "@")
    case None => s
    case Some(i) => s[..i]
  }

  lemma {:induction false} OccursAtSingle(s: string, k: nat)
    requires k < |s|
    ensures OccursAt(s, "@", k) <==> s[k] == '@'
  {
    assert s[k..k + 1] == [s[k]];
  }

  /**
   * The cut holds no `@`, is a prefix of its input ending just before the
   * input's first `@`, and is the whole input when that holds no `@`.
   */
  lemma {:induction false} CutAtFirstAtShape(s: string)
    ensures HasNoAt(CutAtFirstAt(s))
    ensures |CutAtFirstAt(s)| <= |s| && CutAtFirstAt(s) == s[..|CutAtFirstAt(s)|]
    ensures |CutAtFirstAt(s)| < |s| ==> s[|CutAtFirstAt(s)|] == '@'
    ensures HasNoAt(s) ==> CutAtFirstAt(s) == s
  {
    match IndexOf(s, "@")
    case None =>
      forall k | 0 <= k < |s| ensures s[k] != '@' {
        OccursAtSingle(s, k);
      }
    case Some(i) =>
      forall k | 0 <= k < i ensures s[k] != '@' {
        OccursAtSingle(s, k);
      }
      OccursAtSingle(s, i);
  }

  /** Cutting at the first `@` a second time changes nothing. */
  lemma {:induction false} CutAtFirstAtIdempotent(s: string)
    ensures CutAtFirstAt(CutAtFirstAt(s)) == CutAtFirstAt(s)
  {
    CutAtFirstAtShape(s);
    CutAtFirstAtShape(CutAtFirstAt(s));
  }

  /** Lines 193-196: trim the username cell, then keep what precedes its first `@`. */
  function NormalizeUsername(raw: string): string {
    CutAtFirstAt(Trim(raw))
  }

  /**
   * The normalised username holds no `@`, is the prefix of the trimmed cell
   * that ends just before its first `@`, and is the trimmed cell itself when
   * that holds no `@`.
   */
  lemma {:induction false} NormalizedUsername(raw: string)
    ensures var u, t := NormalizeUsername(raw), Trim(raw);
            && HasNoAt(u) && |u| <= |t| && u == t[..|u|]
            && (|u| < |t| ==> t[|u|] == '@')
            && (HasNoAt(t) ==> u == t)
  {
    CutAtFirstAtShape(Trim(raw));
  }

  /**
   * Trimming happens before the cut, so the space left in front of the `@`
   * survives, and normalising the result again removes it.
   */
  lemma {:induction false} NormalizationNotIdempotent()
    ensures NormalizeUsername(" ab @c") == "ab "
    ensures NormalizeUsername("ab ") == "ab"
  {
    var s := " ab @c";
    assert TrimStart(s) == s[1..] by {
      assert TrimStart(s[1..]) == s[1..];
    }
    assert Trim(s) == "ab @c" by {
      assert TrimEnd("ab @c") == "ab @c";
    }
    assert IndexOf("ab @c", "@") == Some(3) by {
      assert OccursAt("ab @c", "@", 3);
      forall j | 0 <= j < 3 ensures !OccursAt("ab @c", "@", j) {
        OccursAtSingle("ab @c", j);
      }
    }
    assert "ab @c"[..3] == "ab ";
    var t := "ab ";
    assert TrimEnd(t) == "ab" by {
      assert t[..|t| - 1] == "ab";
      assert TrimEnd("ab") == "ab";
    }
    assert TrimStart(t) == t;
    assert Trim(t) == "ab";
    assert IndexOf("ab", "@") == None by {
      forall j ensures !OccursAt("ab", "@", j) {
        if 0 <= j < 2 {
          OccursAtSingle("ab", j);
        }
      }
    }
  }

  // ---------------------------------------------------------------------
  // Dialog texts
  // ---------------------------------------------------------------------

  /** The dialog title the portal shows when an account was created. */
  const SuccessTitle: string := "สำเร็จ"

  /** The label in front of the issued password. */
  const PasswordLabel: string := "รหัสผ่าน: "

  /**
   * Lines 229-230: the username, an arrow, and the dialog message with
   * every line feed and carriage return turned into a space.
   */
  function RejectionMessage(username: string, dialogMessage: string): string {
    username + " -> " + ReplaceLineBreaks(dialogMessage)
  }

  /**
   * The rejection message starts with the username and the arrow, keeps the
   * length of the dialog message, holds no line break after the arrow, and
   * quotes a message without line breaks verbatim.
   */
  lemma {:induction false} RejectionMessageShape(username: string, dialogMessage: string)
    ensures var m, n := RejectionMessage(username, dialogMessage), |username| + 4;
            && |m| == n + |dialogMessage|
            && m[..|username|] == username && m[|username|..n] == " -> "
            && (forall k :: n <= k < |m| ==> m[k] != '\n' && m[k] != '\r')
            && ((forall k :: 0 <= k < |dialogMessage| ==> dialogMessage[k] != '\n' && dialogMessage[k] != '\r')
                ==> m == username + " -> " + dialogMessage)
  {
    var m, n, body := RejectionMessage(username, dialogMessage), |username| + 4, ReplaceLineBreaks(dialogMessage);
    assert m == (username + " -> ") + body;
    forall k | n <= k < |m| ensures m[k] != '\n' && m[k] != '\r' {
      assert m[k] == body[k - n];
    }
    if forall k :: 0 <= k < |dialogMessage| ==> dialogMessage[k] != '\n' && dialogMessage[k] != '\r' {
      assert body == dialogMessage;
    }
  }

  /** Line 247: the paragraph's text without the first occurrence of the label. */
  function IssuedPassword(paragraph: string): string {
    ReplaceFirst(paragraph, PasswordLabel, "")
  }

  /**
   * The password is the paragraph with exactly the label's characters
   * removed at the label's first occurrence; when the paragraph starts
   * with the label, it is the remainder.
   */
  lemma {:induction false} IssuedPasswordShape(paragraph: string, rest: string)
    ensures IndexOf(paragraph, PasswordLabel).Some? ==>
              var i := IndexOf(paragraph, PasswordLabel).value;
              IssuedPassword(paragraph) == paragraph[..i] + paragraph[i + |PasswordLabel|..]
    ensures IssuedPassword(PasswordLabel + rest) == rest
  {
    var p := PasswordLabel + rest;
    assert OccursAt(p, PasswordLabel, 0) by {
      assert p[..|PasswordLabel|] == PasswordLabel;
    }
    assert IndexOf(p, PasswordLabel) == Some(0);
    assert p[|PasswordLabel|..] == rest;
    var r := IssuedPassword(paragraph);
    if IndexOf(paragraph, PasswordLabel).Some? {
      var i := IndexOf(paragraph, PasswordLabel).value;
      assert r == r[..i] + r[i..];
    }
  }

  // ---------------------------------------------------------------------
  // Records
  // ---------------------------------------------------------------------

  /** One parsed CSV row: its cells keyed by the header's column names. */
  type Record = map<string, string>

  /** Calling `.trim()` on the `undefined` of a column the file lacks. */
  const MissingColumnError: Error :=
    Foreign("TypeError", "Cannot read properties of undefined (reading 'trim')")

  /** The columns read before the form is filled in, in the order they are read. */
  const FormColumns: seq<string> :=
    ["username", "fname_th", "lname_th", "fname_en", "lname_en", "cid", "secondary_email", "tel", "mobile"]

  /** The values typed into the new-user form. */
  datatype NewUserForm = NewUserForm(
    username: string,
    displayName: string,
    fnameTH: string,
    lnameTH: string,
    fnameEN: string,
    lnameEN: string,
    cid: string,
    secondaryEmail: string,
    tel: string,
    mobile: string)

  /** Lines 193-205: the form values, once every form column is present. */
  function FormOf(record: Record): NewUserForm
    requires HasFormColumns(record)
  {
    var fnameTH, lnameTH := Trim(record["fname_th"]), Trim(record["lname_th"]);
    NewUserForm(
      NormalizeUsername(record["username"]),
      fnameTH + " " + lnameTH,
      fnameTH, lnameTH,
      Trim(record["fname_en"]), Trim(record["lname_en"]),
      Trim(record["cid"]), Trim(record["secondary_email"]),
      Trim(record["tel"]), Trim(record["mobile"]))
  }

  /** What the browser workflow for one record ends with. */
  datatype Screen =
    | Fault(name: string, message: string)                  // a browser step threw (a timeout, a detached element, ...)
    | Dialog(title: string, message: string, paragraph: string)
      // the creation dialog; `paragraph` is the text of the password paragraph
      // the password-reset dialog shows, consulted only after a success

  /** The account record written to the output, one field per output column. */
  datatype ImportedUser = ImportedUser(
    username: string,
    password: string,
    fnameTH: string,
    lnameTH: string,
    fnameEN: string,
    lnameEN: string,
    tel: string,
    mobile: string,
    cid: string,
    secondaryEmail: string,
    note: string)

  /** The header of the output file, in the order the stringifier writes the columns. */
  const OutputColumns: seq<string> :=
    ["username", "password", "fname_th", "lname_th", "fname_en", "lname_en",
     "tel", "mobile", "cid", "secondary_email", "note"]

  /** The field of `u` that the output column `column` holds. */
  function Field(u: ImportedUser, column: string): string {
    match column
    case "username" => u.username
    case "password" => u.password
    case "fname_th" => u.fnameTH
    case "lname_th" => u.lnameTH
    case "fname_en" => u.fnameEN
    case "lname_en" => u.lnameEN
    case "tel" => u.tel
    case "mobile" => u.mobile
    case "cid" => u.cid
    case "secondary_email" => u.secondaryEmail
    case "note" => u.note
    case _ => ""
  }

  /** The output row of one account. */
  function Row(u: ImportedUser): seq<string> {
    [u.username, u.password, u.fnameTH, u.lnameTH, u.fnameEN, u.lnameEN,
     u.tel, u.mobile, u.cid, u.secondaryEmail, u.note]
  }

  /** The row follows the header: its k-th cell holds the field the k-th output column names. */
  lemma {:induction false} RowFollowsColumns(u: ImportedUser)
    ensures |Row(u)| == |OutputColumns|
    ensures forall k :: 0 <= k < |OutputColumns| ==> Row(u)[k] == Field(u, OutputColumns[k])
  {
    var row := Row(u);
    forall k | 0 <= k < |OutputColumns| ensures row[k] == Field(u, OutputColumns[k]) {
      if k < 6 {
        assert OutputColumns[k] == ["username", "password", "fname_th", "lname_th", "fname_en", "lname_en"][k];
      } else {
        assert OutputColumns[k] == ["tel", "mobile", "cid", "secondary_email", "note"][k - 6];
      }
    }
  }

  /** Where `column` first appears among `columns`. */
  function Position(columns: seq<string>, column: string): (k: nat)
    requires column in columns
    ensures k < |columns| && columns[k] == column
    ensures forall j :: 0 <= j < k ==> columns[j] != column
  {
    if columns[0] == column then 0 else 1 + Position(columns[1..], column)
  }

  /** The cell of an output row under the header column `column`. */
  function Cell(row: seq<string>, column: string): string
    requires |row| == |OutputColumns| && column in OutputColumns
  {
    row[Position(OutputColumns, column)]
  }

  /** Reading an output row back, field by field in header order. */
  function FromRow(row: seq<string>): ImportedUser
    requires |row| == |OutputColumns|
  {
    ImportedUser(row[0], row[1], row[2], row[3], row[4], row[5], row[6], row[7], row[8], row[9], row[10])
  }

  /**
   * The output row loses nothing: the cell found under each header column,
   * looked up by the column's name, is the field that column names, and
   * reading the row back gives the account again.
   */
  lemma {:induction false} RowRoundTrip(u: ImportedUser)
    ensures forall c :: c in OutputColumns ==> Cell(Row(u), c) == Field(u, c)
    ensures FromRow(Row(u)) == u
  {
    RowFollowsColumns(u);
    var row := Row(u);
    forall c | c in OutputColumns ensures Cell(row, c) == Field(u, c) {
      var k := Position(OutputColumns, c);
      assert row[k] == Field(u, OutputColumns[k]);
    }
  }

  const PasswordParagraph: string := "xpath///p[contains(.,\"รหัสผ่าน: \")]"

  /** Every column read before the form is filled in is present. */
  predicate HasFormColumns(record: Record) {
    forall c :: c in FormColumns ==> c in record
  }

  /** The `note` cell, read only once the account exists. */
  function NoteCell(record: Record): Option<string> {
    if "note" in record then Some(record["note"]) else None
  }

  /**
   * The body of the `try` for one record (lines 193-265): read the form
   * columns, run the browser workflow, and finish with what it shows.
   */
  function Attempt(i: nat, record: Record, portal: (nat, NewUserForm) -> Screen): Result<ImportedUser, Error> {
    if !HasFormColumns(record) then Err(MissingColumnError)
    else Finish(FormOf(record), portal(i, FormOf(record)), NoteCell(record))
  }

  /**
   * Lines 225-265: a browser fault is rethrown as it is; any dialog title
   * but the success title rejects the record; the password is taken from
   * its paragraph, whose absence makes the wait for it time out; and the
   * note is read last, after the account was created.
   */
  function Finish(form: NewUserForm, screen: Screen, note: Option<string>): Result<ImportedUser, Error> {
    match screen
    case Fault(name, message) => Err(Foreign(name, message))
    case Dialog(title, message, paragraph) =>
      if title != SuccessTitle then
        Err(Error(WorkDCreateUserError, RejectionMessage(form.username, message)))
      else if IndexOf(paragraph, PasswordLabel).None? then
        Err(Timeout(PasswordParagraph))
      else if note.None? then
        Err(MissingColumnError)
      else
        Ok(ImportedUser(form.username, IssuedPassword(paragraph), form.fnameTH, form.lnameTH,
                        form.fnameEN, form.lnameEN, form.tel, form.mobile, form.cid,
                        form.secondaryEmail, Trim(note.value)))
  }

  /**
   * The workflow's only known error kind is the rejection: every other
   * error it throws is foreign. A rejection happens iff the portal's
   * dialog title is not exactly the success title, and carries the
   * username and the dialog message; a success takes the password from the
   * paragraph and keeps the form's values.
   */
  lemma {:induction false} CreationDecision(form: NewUserForm, screen: Screen, note: Option<string>)
    ensures var r := Finish(form, screen, note);
            && (r.Err? ==> r.error.kind == WorkDCreateUserError || r.error.kind.Unrecognised?)
            && (screen.Fault? ==> r == Err(Foreign(screen.name, screen.message)))
            && (screen.Dialog? ==>
                  && ((r.Err? && r.error.kind == WorkDCreateUserError) <==> screen.title != SuccessTitle)
                  && (screen.title != SuccessTitle ==>
                        r.error.message == RejectionMessage(form.username, screen.message)))
            && (r.Ok? <==> && screen.Dialog? && screen.title == SuccessTitle
                           && IndexOf(screen.paragraph, PasswordLabel).Some? && note.Some?)
            && (screen.Dialog? && screen.title == SuccessTitle ==>
                  && (IndexOf(screen.paragraph, PasswordLabel).None? ==> r == Err(Timeout(PasswordParagraph)))
                  && (IndexOf(screen.paragraph, PasswordLabel).Some? && note.None? ==> r == Err(MissingColumnError)))
            && (r.Ok? ==>
                  r.value == ImportedUser(form.username, IssuedPassword(screen.paragraph),
                                          form.fnameTH, form.lnameTH, form.fnameEN, form.lnameEN,
                                          form.tel, form.mobile, form.cid, form.secondaryEmail,
                                          Trim(note.value)))
  {
    match screen
    case Fault(_, _) =>
    case Dialog(title, _, paragraph) =>
      if title == SuccessTitle && IndexOf(paragraph, PasswordLabel).None? {
        assert Timeout(PasswordParagraph).kind.Unrecognised?;
      }
  }

  /** How one record ends: imported, skipped after its error was reported, or ending the batch. */
  datatype RecordOutcome =
    | Imported(user: ImportedUser)
    | Skipped(error: Error, line: string)
    | Abort(error: Error)

  /** The `try`/`catch` around one record: the catch hands the error to `handleError`. */
  function ProcessRecord(i: nat, record: Record, portal: (nat, NewUserForm) -> Screen): RecordOutcome {
    match Attempt(i, record, portal)
    case Ok(u) => Imported(u)
    case Err(e) =>
      match HandleError(e)
      case Reported(line) => Skipped(e, line)
      case Rethrown(e') => Abort(e')
  }

  /**
   * Only a known error kind is skipped, and it is reported with its
   * `handleError` line; every other error ends the batch unchanged. In this
   * workflow the only known kind ever thrown is WorkDCreateUserError.
   */
  lemma {:induction false} RecordErrorHandling(i: nat, record: Record, portal: (nat, NewUserForm) -> Screen)
    ensures var a, o := Attempt(i, record, portal), ProcessRecord(i, record, portal);
            && (a.Ok? <==> o.Imported?) && (a.Ok? ==> o.user == a.value)
            && (o.Skipped? <==> a.Err? && a.error.kind == WorkDCreateUserError)
            && (o.Skipped? ==> o.error == a.error && HandleError(a.error) == Reported(o.line))
            && (o.Abort? <==> a.Err? && a.error.kind.Unrecognised?)
            && (o.Abort? ==> o.error == a.error)
  {
    if HasFormColumns(record) {
      CreationDecision(FormOf(record), portal(i, FormOf(record)), NoteCell(record));
    }
  }

  // ---------------------------------------------------------------------
  // The import loop
  // ---------------------------------------------------------------------

  /** Each record's outcome, the i-th record seeing the portal as the i-th. */
  function Outcomes(records: seq<Record>, portal: (nat, NewUserForm) -> Screen): (outs: seq<RecordOutcome>)
    ensures |outs| == |records|
    ensures forall i :: 0 <= i < |records| ==> outs[i] == ProcessRecord(i, records[i], portal)
  {
    seq(|records|, i requires 0 <= i < |records| => ProcessRecord(i, records[i], portal))
  }

  /** The loop of lines 189-270 over the outcomes: the first abort ends it with its error. */
  function ImportRun(outs: seq<RecordOutcome>): Result<seq<ImportedUser>, Error> {
    if outs == [] then Ok([])
    else
      match ImportRun(outs[..|outs| - 1])
      case Err(e) => Err(e)
      case Ok(users) =>
        match outs[|outs| - 1]
        case Imported(u) => Ok(users + [u])
        case Skipped(_, _) => Ok(users)
        case Abort(e) => Err(e)
  }

  /** The accounts imported, in record order. */
  function Imports(outs: seq<RecordOutcome>): seq<ImportedUser> {
    if outs == [] then []
    else (if outs[0].Imported? then [outs[0].user] else []) + Imports(outs[1..])
  }

  predicate NoAbort(outs: seq<RecordOutcome>) {
    forall i :: 0 <= i < |outs| ==> !outs[i].Abort?
  }

  /** The outcomes before the first abort. */
  function Completed(outs: seq<RecordOutcome>): (done: seq<RecordOutcome>)
    ensures |done| <= |outs| && done == outs[..|done|] && NoAbort(done)
    ensures |done| < |outs| ==> outs[|done|].Abort?
  {
    if outs == [] then []
    else if outs[0].Abort? then []
    else
      var rest := Completed(outs[1..]);
      assert outs == [outs[0]] + outs[1..];
      [outs[0]] + rest
  }

  lemma {:induction false} ImportsSnoc(outs: seq<RecordOutcome>, o: RecordOutcome)
    ensures Imports(outs + [o]) == Imports(outs) + (if o.Imported? then [o.user] else [])
  {
    if outs == [] {
      assert outs + [o] == [o];
    } else {
      var head := if outs[0].Imported? then [outs[0].user] else [];
      assert (outs + [o])[0] == outs[0];
      assert (outs + [o])[1..] == outs[1..] + [o];
      assert Imports(outs + [o]) == head + Imports(outs[1..] + [o]);
      ImportsSnoc(outs[1..], o);
      assert Imports(outs) == head + Imports(outs[1..]);
    }
  }

  lemma {:induction false} CompletedWhole(outs: seq<RecordOutcome>)
    requires NoAbort(outs)
    ensures Completed(outs) == outs
  {
    if outs != [] {
      CompletedWhole(outs[1..]);
    }
  }

  /**
   * The loop's reference meaning: it returns iff no record aborts, and then
   * exactly the imported accounts in record order; otherwise it throws the
   * error of the first record that aborts.
   */
  lemma {:induction false} ImportRunMeaning(outs: seq<RecordOutcome>)
    ensures ImportRun(outs).Ok? <==> NoAbort(outs)
    ensures ImportRun(outs).Ok? ==> ImportRun(outs).value == Imports(outs)
    ensures ImportRun(outs).Err? ==> ImportRun(outs).error == outs[|Completed(outs)|].error
  {
    if outs != [] {
      var init, last := outs[..|outs| - 1], outs[|outs| - 1];
      assert outs == init + [last];
      ImportRunMeaning(init);
      ImportsSnoc(init, last);
      if NoAbort(init) {
        CompletedWhole(init);
        if last.Abort? {
          CompletedPrefix(init, last);
        }
      } else {
        var j :| 0 <= j < |init| && init[j].Abort?;
        assert outs[j] == init[j];
        CompletedExtend(init, last);
      }
    }
  }

  lemma {:induction false} CompletedPrefix(init: seq<RecordOutcome>, last: RecordOutcome)
    requires NoAbort(init) && last.Abort?
    ensures Completed(init + [last]) == init
  {
    if init == [] {
      assert init + [last] == [last];
    } else {
      assert (init + [last])[1..] == init[1..] + [last];
      CompletedPrefix(init[1..], last);
    }
  }

  lemma {:induction false} CompletedExtend(init: seq<RecordOutcome>, last: RecordOutcome)
    requires !NoAbort(init)
    ensures Completed(init + [last]) == Completed(init)
  {
    assert init != [];
    assert (init + [last])[1..] == init[1..] + [last];
    if !init[0].Abort? {
      assert !NoAbort(init[1..]) by {
        var j :| 0 <= j < |init| && init[j].Abort?;
        assert init[1..][j - 1] == init[j];
      }
      CompletedExtend(init[1..], last);
    }
  }

  /** The output rows of the given accounts, in order. */
  function Rows(users: seq<ImportedUser>): seq<seq<string>> {
    if users == [] then [] else Rows(users[..|users| - 1]) + [Row(users[|users| - 1])]
  }

  /**
   * `importWorkDUsers` on already parsed records: each record runs through
   * the workflow in order; an imported account is written to the output and
   * kept; a skipped record is reported and passed over; an abort ends the
   * batch. The rows written are those of the accounts imported before the
   * first abort, whether or not an abort happens.
   */
  method ImportWorkDUsers(records: seq<Record>, portal: (nat, NewUserForm) -> Screen)
    returns (r: Result<seq<ImportedUser>, Error>, written: seq<seq<string>>)
    ensures r == ImportRun(Outcomes(records, portal))
    ensures written == Rows(Imports(Completed(Outcomes(records, portal))))
  {
    ghost var outs := Outcomes(records, portal);
    var importedUsers := [];
    written := [];
    var i := 0;
    while i < |records|
      invariant 0 <= i <= |records|
      invariant ImportRun(outs[..i]) == Ok(importedUsers)
      invariant written == Rows(importedUsers)
    {
      ImportRunStep(outs, i);
      var outcome := ProcessRecord(i, records[i], portal);
      match outcome {
        case Imported(u) =>
          assert (importedUsers + [u])[..|importedUsers|] == importedUsers;
          importedUsers := importedUsers + [u];
          written := written + [Row(u)];
        case Skipped(_, _) =>
        case Abort(e) =>
          ImportRunMeaning(outs[..i]);
          ErrorPersists(outs, i + 1);
          CompletedStops(outs, i);
          return Err(e), written;
      }
      i := i + 1;
    }
    assert outs[..i] == outs;
    ImportRunMeaning(outs);
    CompletedWhole(outs);
    return Ok(importedUsers), written;
  }

  /** One more outcome on top of the first i. */
  lemma {:induction false} ImportRunStep(outs: seq<RecordOutcome>, i: nat)
    requires i < |outs|
    ensures ImportRun(outs[..i + 1]) ==
              match ImportRun(outs[..i])
              case Err(e) => Err(e)
              case Ok(users) =>
                match outs[i]
                case Imported(u) => Ok(users + [u])
                case Skipped(_, _) => Ok(users)
                case Abort(e) => Err(e)
  {
    assert outs[..i + 1][..i] == outs[..i];
  }

  /** After the first abort, further outcomes do not change the loop's error. */
  lemma {:induction false} ErrorPersists(outs: seq<RecordOutcome>, n: nat)
    requires n <= |outs| && ImportRun(outs[..n]).Err?
    ensures ImportRun(outs) == ImportRun(outs[..n])
  {
    if n < |outs| {
      var init := outs[..|outs| - 1];
      assert init[..n] == outs[..n];
      ErrorPersists(init, n);
      assert outs[..|outs| - 1] == init;
    } else {
      assert outs[..n] == outs;
    }
  }

  /** The outcomes before an abort at index i are the first i. */
  lemma {:induction false} CompletedStops(outs: seq<RecordOutcome>, i: nat)
    requires i < |outs| && NoAbort(outs[..i]) && outs[i].Abort?
    ensures Completed(outs) == outs[..i]
  {
    if i == 0 {
    } else {
      assert outs[1..][..i - 1] == outs[..i][1..];
      assert outs[1..][i - 1] == outs[i];
      CompletedStops(outs[1..], i - 1);
      assert outs[..i] == [outs[0]] + outs[1..][..i - 1];
    }
  }
}
