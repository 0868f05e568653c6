/** The command behind the status-bar button: the dispatch on the active
    editor in `activate` (extension.js:20-32) and the link assembly of
    `openInBrowser` (extension.js:38-63). Editor state comes in as values;
    `path.relative` is an opaque function; what happens to the user is the
    `Outcome`: an error message, a URL handed to `openExternal`, or an
    exception escaping the command. */
module Browser {
  import opened Wrappers
  import opened Text
  import opened Resolver

  /** A position in a document, 0-based as in the editor API. */
  datatype Position = Position(line: nat, character: nat)

  /** The editor selection; it is empty when both ends are the same
      position. */
  datatype Selection = Selection(start: Position, end: Position) {
    predicate IsEmpty() {
      start == end
    }
  }

  datatype Document = Document(isUntitled: bool, fileName: string)

  datatype Editor = Editor(document: Document, selection: Selection)

  /** `path.relative(from, to)`, from the platform's path library. */
  type Relative = (string, string) -> string

  datatype Outcome =
    | ShowError(message: string)  // `vscode.window.showErrorMessage`
    | OpenExternal(url: string)   // `vscode.env.openExternal`
    | Threw                       // an exception escapes the command

  const NoRemoteMessage := "No remote URL found for the current workspace."

  /** `!repoUrl`: `undefined` and the empty string are falsy. */
  predicate Falsy(repoUrl: Option<string>) {
    repoUrl.None? || repoUrl.value == ""
  }

  /** `r` reads as the fragment `?plain=1#L<x>-L<y>` with digit runs `x`
      and `y`. */
  predicate AnchorParts(r: string, x: string, y: string) {
    (forall k :: 0 <= k < |x| ==> IsDigit(x[k])) &&
    (forall k :: 0 <= k < |y| ==> IsDigit(y[k])) &&
    r == "?plain=1#L" + x + "-L" + y
  }

  /** The line fragment `?plain=1#L<start>-L<end>` with 1-based line
      numbers (extension.js:48-50): it reads as a fragment, and however it
      is read, its numbers are the selection's lines plus 1. */
  function LineAnchor(selection: Selection): (r: string)
    ensures AnchorParts(r, DecimalString(selection.start.line + 1), DecimalString(selection.end.line + 1))
    ensures forall x, y :: AnchorParts(r, x, y) ==>
      DecimalValue(x) == selection.start.line + 1 && DecimalValue(y) == selection.end.line + 1
  {
    var startLine := selection.start.line + 1;
    var endLine := selection.end.line + 1;
    AnchorReadsBack(startLine, endLine);
    "?plain=1#L" + DecimalString(startLine) + "-L" + DecimalString(endLine)
  }

  /** Every reading of the fragment for lines `a` and `b` gives back `a`
      and `b`. */
  lemma AnchorReadsBack(a: nat, b: nat)
    ensures forall x, y :: AnchorParts("?plain=1#L" + DecimalString(a) + "-L" + DecimalString(b), x, y) ==>
      DecimalValue(x) == a && DecimalValue(y) == b
  {
    forall x, y | AnchorParts("?plain=1#L" + DecimalString(a) + "-L" + DecimalString(b), x, y)
      ensures DecimalValue(x) == a && DecimalValue(y) == b
    {
      AnchorNumbers(DecimalString(a), DecimalString(b), x, y);
      DecimalRoundTrip(a);
      DecimalRoundTrip(b);
    }
  }

  /** Lines 10 to 15 counted from 0 are lines 11 to 16 of the hosted
      view. */
  lemma LineAnchorOneBased()
    ensures LineAnchor(Selection(Position(10, 0), Position(15, 4))) == "?plain=1#L11-L16"
  {
  }

  /** The fragment names its lines unambiguously: two selections with the
      same fragment start on the same line and end on the same line. */
  lemma {:induction false} LineAnchorDeterminesLines(a: Selection, b: Selection)
    requires LineAnchor(a) == LineAnchor(b)
    ensures a.start.line == b.start.line && a.end.line == b.end.line
  {
    DecimalRoundTrip(b.start.line + 1);
    DecimalRoundTrip(b.end.line + 1);
  }

  /** The two numbers of a line fragment are read back unambiguously. */
  lemma AnchorNumbers(x: string, y: string, x': string, y': string)
    requires forall k :: 0 <= k < |x| ==> IsDigit(x[k])
    requires forall k :: 0 <= k < |x'| ==> IsDigit(x'[k])
    requires "?plain=1#L" + x + "-L" + y == "?plain=1#L" + x' + "-L" + y'
    ensures x == x' && y == y'
  {
    var p := "?plain=1#L";
    assert p + x + "-L" + y == p + (x + ("-L" + y));
    assert p + x' + "-L" + y' == p + (x' + ("-L" + y'));
    assert x + ("-L" + y) == (p + (x + ("-L" + y)))[|p|..];
    assert x' + ("-L" + y') == (p + (x' + ("-L" + y')))[|p|..];
    DigitsThenSeparator(x, "-L" + y, x', "-L" + y');
    assert y == ("-L" + y)[2..];
    assert y' == ("-L" + y')[2..];
  }

  /** A run of digits followed by text that starts with a non-digit splits
      in only one way. */
  lemma DigitsThenSeparator(x: string, rest: string, x': string, rest': string)
    requires forall k :: 0 <= k < |x| ==> IsDigit(x[k])
    requires forall k :: 0 <= k < |x'| ==> IsDigit(x'[k])
    requires |rest| > 0 && !IsDigit(rest[0]) && |rest'| > 0 && !IsDigit(rest'[0])
    requires x + rest == x' + rest'
    ensures x == x' && rest == rest'
  {
    LeadingDigitsOfRun(x, rest);
    LeadingDigitsOfRun(x', rest');
    assert x == (x + rest)[..|x|];
    assert x' == (x' + rest')[..|x'|];
  }

  /** The number of digits `s` starts with. */
  function LeadingDigits(s: string): nat {
    if |s| > 0 && IsDigit(s[0]) then 1 + LeadingDigits(s[1..]) else 0
  }

  lemma {:induction false} LeadingDigitsOfRun(x: string, rest: string)
    requires forall k :: 0 <= k < |x| ==> IsDigit(x[k])
    requires |rest| > 0 && !IsDigit(rest[0])
    ensures LeadingDigits(x + rest) == |x|
    decreases |x|
  {
    if |x| > 0 {
      assert (x + rest)[1..] == x[1..] + rest;
      LeadingDigitsOfRun(x[1..], rest);
    } else {
      assert x + rest == rest;
    }
  }

  /** `openInBrowser(repoUrl, document, editor)`: a falsy URL gives the
      error message. Otherwise the URL is `repoUrl`, then `/` and the
      document's path relative to the first workspace folder when a
      document is given, then the line fragment when an editor with a
      non-empty selection is given. A document without any workspace
      folder makes `workspaceFolder.uri` throw. */
  method OpenInBrowser(repoUrl: Option<string>, document: Option<Document>, editor: Option<Editor>,
                       folders: seq<string>, relative: Relative) returns (outcome: Outcome)
    ensures outcome.ShowError? <==> Falsy(repoUrl)
    ensures outcome.ShowError? ==> outcome.message == NoRemoteMessage
    ensures outcome.Threw? <==> !Falsy(repoUrl) && document.Some? && folders == []
    ensures outcome.OpenExternal? ==>
      outcome.url ==
        repoUrl.value
        + (if document.Some? && |folders| > 0 then "/" + relative(folders[0], document.value.fileName) else "")
        + (if editor.Some? && !editor.value.selection.IsEmpty() then LineAnchor(editor.value.selection) else "")
  {
    if Falsy(repoUrl) {
      return ShowError(NoRemoteMessage);
    }

    var lineRange := "";
    if editor.Some? && !editor.value.selection.IsEmpty() {
      lineRange := LineAnchor(editor.value.selection);
    }

    var url := repoUrl.value;
    if document.Some? {
      var workspaceFolder := WorkspaceRoot(folders);
      if workspaceFolder.None? {
        return Threw;
      }
      var relativePath := relative(workspaceFolder.value, document.value.fileName);
      url := url + "/" + relativePath;
    }

    url := url + lineRange;
    return OpenExternal(url);
  }

  /** The registered command: resolve the repository URL, then open it,
      passing the document and editor only when the active editor holds a
      saved file. It never throws; it shows the error exactly when no
      probe finds a URL; an untitled buffer or no editor links to the
      repository URL alone; a saved file adds its relative path and, for a
      non-empty selection, the line fragment. */
  method RunCommand(folders: seq<string>, exec: Exec, relative: Relative, activeEditor: Option<Editor>)
    returns (outcome: Outcome, issued: seq<string>)
    ensures issued == Resolve(folders, exec).issued
    ensures !outcome.Threw?
    ensures outcome.ShowError? <==> Resolve(folders, exec).found.None?
    ensures outcome.ShowError? ==> outcome.message == NoRemoteMessage
    ensures outcome.OpenExternal? <==> Resolve(folders, exec).found.Some?
    ensures outcome.OpenExternal? && (activeEditor.None? || activeEditor.value.document.isUntitled) ==>
      outcome.url == Resolve(folders, exec).found.value.Link()
    ensures outcome.OpenExternal? && activeEditor.Some? && !activeEditor.value.document.isUntitled ==>
      outcome.url ==
        Resolve(folders, exec).found.value.Link()
        + ("/" + relative(folders[0], activeEditor.value.document.fileName))
        + (if activeEditor.value.selection.IsEmpty() then "" else LineAnchor(activeEditor.value.selection))
  {
    var repoUrl;
    repoUrl, issued := GetRepoUrl(folders, exec);
    ResolvedLinkIsTruthy(folders, exec);
    // the arguments each branch of the source passes after `getRepoUrl()`
    var document: Option<Document> := None;
    var editor: Option<Editor> := None;
    if activeEditor.Some? && !activeEditor.value.document.isUntitled {
      document, editor := Some(activeEditor.value.document), activeEditor;
    }
    outcome := OpenInBrowser(repoUrl, document, editor, folders, relative);
  }

  /** A URL found by the resolver is never falsy, and finding one needs a
      workspace folder. */
  lemma ResolvedLinkIsTruthy(folders: seq<string>, exec: Exec)
    ensures Resolve(folders, exec).found.Some? ==>
      |folders| > 0 && Resolve(folders, exec).found.value.Link() != ""
  {
  }
}
