/**
 * Command-line glue of common/functions.js (`getArguments`,
 * `validateFiletype`) and the file paths the two entry scripts derive:
 * the output path of import-users.js and the listing path of get-users.js.
 */
module Cli {
  import opened Wrappers
  import opened Errors
  import opened Text

  /** `process.argv.slice(2)`: the arguments after "node" and the script name. */
  function UserArguments(argv: seq<string>): seq<string> {
    if |argv| >= 2 then argv[2..] else []
  }

  /**
   * `getArguments(count)`: the user's arguments, unchanged, when there are
   * exactly `count` of them; otherwise an ArgumentError.
   */
  function GetArguments(argv: seq<string>, count: nat): (r: Result<seq<string>, Error>)
    ensures r.Ok? <==> |UserArguments(argv)| == count
    ensures r.Ok? ==> r.value == UserArguments(argv) && |r.value| == count
    ensures r.Err? ==> r.error == Error(ArgumentError, "Expected " + Decimal(count) + " argument(s)")
  {
    var args := UserArguments(argv);
    if |args| != count then Err(Error(ArgumentError, "Expected " + Decimal(count) + " argument(s)"))
    else Ok(args)
  }

  // ---------------------------------------------------------------------
  // path.extname (POSIX)
  // ---------------------------------------------------------------------

  function DropTrailingSlashes(p: string): (r: string)
    ensures |r| <= |p| && r == p[..|r|]
    ensures r == [] || r[|r| - 1] != '/'
    ensures p == [] || p[|p| - 1] != '/' ==> r == p
  {
    if p != [] && p[|p| - 1] == '/' then DropTrailingSlashes(p[..|p| - 1]) else p
  }

  /** The last index at which `c` occurs in `s`, if any. */
  function LastIndexOf(s: string, c: char): (r: Option<nat>)
    ensures r.Some? ==> r.value < |s| && s[r.value] == c
                        && forall k :: r.value < k < |s| ==> s[k] != c
    ensures r.None? ==> forall k :: 0 <= k < |s| ==> s[k] != c
  {
    if s == [] then None
    else if s[|s| - 1] == c then Some(|s| - 1)
    else LastIndexOf(s[..|s| - 1], c)
  }

  /** The last portion of a path, trailing slashes ignored. */
  function Basename(p: string): (b: string)
    ensures |b| <= |DropTrailingSlashes(p)|
    ensures b == DropTrailingSlashes(p)[|DropTrailingSlashes(p)| - |b|..]
    ensures forall k :: 0 <= k < |b| ==> b[k] != '/'
  {
    var q := DropTrailingSlashes(p);
    match LastIndexOf(q, '/')
    case None => q
    case Some(i) => q[i + 1..]
  }

  /**
   * `path.extname`: the basename from its last `.` to its end; empty when
   * the basename holds no `.`, when its only `.`s lead it, or when it is "..".
   */
  function Extname(p: string): string {
    BaseExtension(Basename(p))
  }

  /** The extension of a basename: from its last `.`, unless that `.` leads it or the name is "..". */
  function BaseExtension(b: string): string {
    if b == ".." then ""
    else match LastIndexOf(b, '.')
      case None => ""
      case Some(i) => if i == 0 then "" else b[i..]
  }

  lemma {:induction false} BaseExtensionIsSuffix(b: string)
    requires forall k :: 0 <= k < |b| ==> b[k] != '/'
    ensures var r := BaseExtension(b);
            r != [] ==> && r[0] == '.' && (forall k :: 1 <= k < |r| ==> r[k] != '.' && r[k] != '/')
                        && |r| < |b| && r == b[|b| - |r|..]
  {
    if b != ".." {
      match LastIndexOf(b, '.')
      case None =>
      case Some(i) =>
        if i > 0 {
          assert BaseExtension(b) == b[i..];
          assert |b| - |b[i..]| == i;
        }
    }
  }

  /**
   * A non-empty extension is a proper suffix of the path, trailing slashes
   * ignored, and starts with a `.`.
   */
  lemma {:induction false} ExtnameIsSuffix(p: string)
    ensures var r, q := Extname(p), DropTrailingSlashes(p);
            r != [] ==> r[0] == '.' && |r| < |q| && r == q[|q| - |r|..]
  {
    var q, b, r := DropTrailingSlashes(p), Basename(p), Extname(p);
    BaseExtensionIsSuffix(b);
    if r != [] {
      SuffixOfSuffix(q, b, r);
    }
  }

  lemma {:induction false} SuffixOfSuffix(q: string, b: string, r: string)
    requires |b| <= |q| && b == q[|q| - |b|..]
    requires |r| <= |b| && r == b[|b| - |r|..]
    ensures r == q[|q| - |r|..]
  {
  }

  /** The lower-cased extension of `filePath` is `.` followed by `entry`. */
  predicate HasFiletype(filePath: string, entry: string) {
    Lower(Extname(filePath)) == "." + entry
  }

  /**
   * `validateFiletype`: passes iff the lower-cased extension is `.` followed
   * by one of the allowed entries, which are not lower-cased themselves;
   * otherwise an ArgumentError naming the allowed entries.
   */
  method ValidateFiletype(filePath: string, allowedFiletypes: seq<string>) returns (r: Outcome<Error>)
    ensures r.Pass? <==> exists k :: 0 <= k < |allowedFiletypes| && HasFiletype(filePath, allowedFiletypes[k])
    ensures r.Fail? ==> r.error == Error(ArgumentError,
              "Invalid file type. Allowed file type(s): " + JoinComma(allowedFiletypes))
  {
    var i := 0;
    while i < |allowedFiletypes|
      invariant 0 <= i <= |allowedFiletypes|
      invariant forall k :: 0 <= k < i ==> !HasFiletype(filePath, allowedFiletypes[k])
    {
      var fileType := Lower(Extname(filePath));
      if fileType == "." + allowedFiletypes[i] {
        return Pass;
      }
      i := i + 1;
    }
    return Fail(Error(ArgumentError, "Invalid file type. Allowed file type(s): " + JoinComma(allowedFiletypes)));
  }

  /** An allowed entry holding an upper-case letter can never match: only the extension is lower-cased. */
  lemma {:induction false} UpperCaseEntryNeverMatches(filePath: string, entry: string, k: nat)
    requires k < |entry| && 'A' <= entry[k] <= 'Z'
    ensures !HasFiletype(filePath, entry)
  {
    LoweredHasNoUpperCase(Extname(filePath), "." + entry, k + 1);
  }

  lemma {:induction false} LoweredHasNoUpperCase(s: string, t: string, k: nat)
    requires k < |t| && 'A' <= t[k] <= 'Z'
    ensures Lower(s) != t
  {
    if |s| == |t| {
      assert Lower(s)[k] == LowerChar(s[k]);
    }
  }

  // ---------------------------------------------------------------------
  // Paths chosen by the entry scripts
  // ---------------------------------------------------------------------

  const ImportedSuffix: string := "_imported.csv"

  /** The regular expression /\.csv$/i matches `p`: it ends in ".csv", letters in any case. */
  predicate EndsWithCsv(p: string) {
    |p| >= 4 && Lower(p[|p| - 4..]) == ".csv"
  }

  /**
   * import-users.js: `inputFilePath.replace(/\.csv$/gi, '_imported.csv')`.
   * Only a ".csv" at the very end is replaced; everything before it is kept.
   */
  function ImportedPath(p: string): (r: string)
    ensures EndsWithCsv(p) ==> |r| == |p| + 9 && r[..|p| - 4] == p[..|p| - 4]
                               && r[|p| - 4..] == ImportedSuffix
    ensures !EndsWithCsv(p) ==> r == p
  {
    if EndsWithCsv(p) then p[..|p| - 4] + ImportedSuffix else p
  }

  /**
   * A path that passes `validateFiletype(p, ['csv'])` and does not end in a
   * slash gets its ".csv" replaced, so the output never overwrites the input.
   */
  lemma {:induction false} ValidatedPathIsRenamed(p: string)
    requires HasFiletype(p, "csv")
    requires p == [] || p[|p| - 1] != '/'
    ensures EndsWithCsv(p)
    ensures ImportedPath(p) == p[..|p| - 4] + ImportedSuffix && ImportedPath(p) != p
  {
    ValidatedPathEndsWithCsv(p);
    assert |ImportedPath(p)| == |p| + 9;
  }

  lemma {:induction false} ValidatedPathEndsWithCsv(p: string)
    requires HasFiletype(p, "csv")
    requires p == [] || p[|p| - 1] != '/'
    ensures EndsWithCsv(p)
  {
    var e := Extname(p);
    assert Lower(e) == ".csv";
    assert |e| == 4 by {
      assert |Lower(e)| == |e|;
    }
    ExtnameIsSuffix(p);
    assert DropTrailingSlashes(p) == p;
    assert p[|p| - 4..] == e;
    assert Lower(p[|p| - 4..]) == ".csv";
  }

  /** With a trailing slash the extension check passes but the replacement does not apply. */
  lemma {:induction false} TrailingSlashKeepsPath()
    ensures HasFiletype("x.csv/", "csv")
    ensures ImportedPath("x.csv/") == "x.csv/"
  {
    var p, b := "x.csv/", "x.csv";
    assert p[..|p| - 1] == b;
    assert DropTrailingSlashes(p) == b;
    assert forall k :: 0 <= k < |b| ==> b[k] != '/';
    assert Basename(p) == b;
    assert b[1] == '.' && forall k :: 1 < k < |b| ==> b[k] != '.';
    assert LastIndexOf(b, '.') == Some(1);
    assert b[1..] == ".csv";
    assert Lower(".csv") == ".csv";
    assert p[|p| - 4..] == "csv/";
    assert Lower("csv/")[3] == '/';
  }

  const DefaultListingPath: string := "workdUsers.csv"

  /** get-users.js: the first user argument, or the default file name when there is none. */
  function ListingPath(args: seq<string>): string {
    if |args| > 0 then args[0] else DefaultListingPath
  }
}
