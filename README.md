# Open repository in browser — a Dafny model of its decision logic

The VS Code extension `open-repository-in-browser` has one command. It finds
the web address of the hosted repository behind the current workspace, then
opens that address in the browser. If a saved file is open, the address
points at that file. If lines are selected, it also points at those lines.
All of the extension's decisions are in `extension.js`. This project models
the three parts that decide anything:

- `cleanUrl` (module `UrlCleaning`). It rewrites a git remote URL into the
  https address of the repository. It removes one trailing `.git`. It
  rewrites SSH shorthand `git@HOST[+ALIAS]:PATH` as `https://HOST/PATH`.
- `getRepoUrl` (module `Resolver`). It tries four probes of the working
  copy's git configuration, in a fixed order, and the first that succeeds
  gives the result:
  1. the upstream of the current branch;
  2. the remote configured for the branch;
  3. the default branch of `origin`;
  4. `origin`'s URL from `ls-remote`, with the current branch.

  Each probe runs git commands through `child_process.execSync`. Here that
  call is an arbitrary oracle from working directory and command line to
  the command's output, or to `None` when the call throws. The pure
  functions `Probe1` to `Probe4` and `Resolve` define what the probes
  find and which commands they issue. The methods `TryUpstream`,
  `TryBranchRemote`, `TryOriginHead`, `TryLsRemote` and `GetRepoUrl`
  follow the source step by step. Their contracts tie them to those
  functions, and they return the log of issued commands next to the URL.
- the command handler in `activate` and `openInBrowser` (module
  `Browser`). They build the final link from the repository URL, the
  document's relative path and the editor selection. The result is an
  `Outcome`: the error message, the URL handed to `openExternal`, or an
  exception that escapes the command.

Module `Text` spells out the JavaScript string operations the code relies
on: `trim`, `replace` with a plain-string pattern (first occurrence only),
`split` on one character, and how a number prints inside a template
literal. Module `Wrappers` holds `Option`.

## Where the code departs from its evident intent

The model follows the code in each of these cases.

- Probe 2's `for-each-ref` fallback never contributes. `remoteName` is
  declared `const` (extension.js:112), so the assignment at
  extension.js:121 throws a TypeError, and the catch at extension.js:149
  swallows it. JavaScript evaluates the right-hand side first, so the
  `for-each-ref` command does run. The model logs it, and the probe is then
  abandoned (`Probe2EmptyRemoteAborts`).
- Probe 1's pattern `^(.+)\/(.+)$` is greedy. It splits at the last `/`
  that has text on both sides: `origin/feature/x` gives remote
  `origin/feature` and branch `x` (`MatchUpstreamLastSlash`). Its `.`
  does not match line terminators, so output with a line break does not
  match at all.
- Not every probe rejects empty output. Probes 1 and 3 accept an empty
  remote URL; probes 2 and 4 reject it. Probes 2 to 4 do not check the
  branch name; probe 1's pattern only requires it to be non-empty and on
  one line.
- Cleaning a URL is not idempotent, and it can leave a `.git` suffix. The
  code removes one `.git` per call, so `x.git.git` becomes `x.git`
  (`CleanUrlTwoSuffixes`). Cleaning twice equals cleaning once only when
  the first result does not end in `.git` (`CleanUrlIdempotent`).
- SSH shorthand without a colon is not passed through. The code splices
  the missing path in as the text `undefined` (`CleanUrlWithoutColon`).
  With more than one colon, everything after the second colon is dropped
  (`CleanUrlDropsAfterSecondColon`).
- `openInBrowser` would throw at `workspaceFolder.uri` if it received a
  document and there were no workspace folder (extension.js:55-56). The
  command can never reach that case, because a found URL needs a workspace
  folder (`RunCommand`, `ResolvedLinkIsTruthy`).

## Model

| member | source | states |
|---|---|---|
| `Text.Trim` | extension.js:84-85 | the trimmed output has no white space or line terminator at either end, and it is a slice of the raw output with only such characters cut around it |
| `Text.TrimUnchanged` | extension.js:84-85 | output that has no white space at either end is used as printed |
| `Text.FindFrom` | extension.js:162 | finds the first occurrence of the pattern at or after a position, or reports that none exists |
| `Text.ReplaceFirst` | extension.js:162 | `replace` with a plain-string pattern returns the text unchanged when the pattern does not occur, and replaces the leading occurrence when the text starts with it |
| `Text.ReplaceFirstOccurrence` | extension.js:212 | whatever precedes it, only the first occurrence of the pattern is replaced |
| `Text.ReplaceFirstAtStart` | extension.js:212 | when the text starts with the pattern, `replace` removes exactly that leading occurrence |
| `Text.ReplaceFirstAbsent` | extension.js:162 | when the pattern does not occur, `replace` returns the text unchanged |
| `Text.Split` | extension.js:212-213 | `split` gives at least one part, no part holds the separator, and joining the parts with the separator restores the text |
| `Text.SplitWithoutSeparator` | extension.js:213 | text without the separator splits into itself alone |
| `Text.SplitAtFirst` | extension.js:212 | the first part ends at the first separator, and the remaining parts are the split of what follows |
| `Text.DecimalString` | extension.js:48-50 | a line number prints as decimal digits with no leading zero |
| `Text.DecimalRoundTrip` | extension.js:48-50 | reading the printed digits back gives the number |
| `UrlCleaning.StripGitSuffix` | extension.js:210 | a URL ending in `.git` loses exactly that suffix; any other URL is unchanged |
| `UrlCleaning.CleanUrl` | extension.js:209-217 | the cleaned URL never starts with the SSH prefix `git@` |
| `UrlCleaning.CleanUrlSsh` | extension.js:210-214 | `git@HOST:PATH.git` becomes `https://HOST/PATH` when HOST has no `+` or `:` and PATH has no `:` |
| `UrlCleaning.CleanUrlSshAlias` | extension.js:212-214 | `git@HOST+ALIAS:PATH.git` becomes `https://HOST/PATH`, so the alias is dropped |
| `UrlCleaning.CleanUrlOtherForms` | extension.js:210-216 | a URL that does not start with `git@` loses at most one trailing `.git` and nothing else |
| `UrlCleaning.CleanUrlIdempotent` | extension.js:210-216 | cleaning twice equals cleaning once when the first result does not end in `.git` |
| `UrlCleaning.CleanUrlTwoSuffixes` | extension.js:210 | `x.git.git` cleans to `x.git` and then to `x`, so the side condition of idempotence is needed |
| `UrlCleaning.CleanUrlWithoutColon` | extension.js:212-214 | SSH shorthand without a colon becomes `https://HOST/undefined` |
| `UrlCleaning.CleanUrlDropsAfterSecondColon` | extension.js:212 | only the text between the first and second colon is kept as the path |
| `Resolver.WorkspaceRoot` | extension.js:65-71 | there is a workspace root exactly when the folder list is non-empty, and it is the first folder |
| `Resolver.MatchUpstream` | extension.js:86 | a match is a split of single-line text into two non-empty groups around a `/`, with the longest first group; no match means no such split exists |
| `Resolver.MatchUpstreamLastSlash` | extension.js:86-89 | `origin/feature/x` gives remote `origin/feature` and branch `x` |
| `Resolver.Probe1` | extension.js:79-101 | probe 1 issues the upstream command and at most one more; when it finds something, both commands succeeded, the URL is the trimmed output of the second, and the branch is non-empty and on one line |
| `Resolver.Probe2` | extension.js:104-151 | probe 2 issues the current-branch command and at most two more; when it finds something, it issued exactly `symbolic-ref --short HEAD`, `config branch.<b>.remote` for the trimmed branch b, and `remote get-url <r>` for the trimmed remote r; the URL is the trimmed, non-empty output of the last, and the branch is b |
| `Resolver.Probe3` | extension.js:154-174 | probe 3 issues the `origin/HEAD` command and at most the `origin` config command; it finds something exactly when both succeed, with the trimmed configured URL and, as branch, the trimmed `origin/HEAD` output with its first `refs/remotes/origin/` removed |
| `Resolver.Probe4` | extension.js:177-203 | probe 4 issues the current-branch command and at most the `ls-remote` command; it finds something exactly when both succeed and the trimmed URL is non-empty, and then links that URL to the trimmed current branch |
| `Resolver.Resolve` | extension.js:73-207 | without a workspace folder nothing is found and nothing issued; otherwise the upstream command comes first, and anything found was found by one of the four probes |
| `Resolver.Probe1LongestSplit` | extension.js:86-97 | probe 1 looks up the URL of the longest-remote split and, when the lookup succeeds, returns it with the rest as branch; it issues exactly those two commands |
| `Resolver.Probe1NoSplit` | extension.js:86-87 | without a valid split probe 1 falls through after its first command |
| `Resolver.Probe2Succeeds` | extension.js:105-148 | probe 2 succeeds exactly when the current branch, a non-empty branch remote and a non-empty remote URL are all found, and it links to the current branch |
| `Resolver.Probe2EmptyRemoteAborts` | extension.js:112-128 | an empty branch remote always abandons probe 2 after issuing the `for-each-ref` command, whatever that command prints |
| `Resolver.Probe3DefaultBranch` | extension.js:155-171 | when the trimmed `origin/HEAD` output is `refs/remotes/origin/B`, probe 3 links `origin`'s configured URL, even an empty one, to branch B; only the first prefix occurrence is removed |
| `Resolver.Probe3GitOutput` | extension.js:155-171 | the output `refs/remotes/origin/main` followed by a line break names the branch `main` |
| `Resolver.Probe3NoPrefix` | extension.js:161-171 | when `origin/HEAD` names a ref outside `refs/remotes/origin/`, the whole trimmed output is linked as the branch |
| `Resolver.Probe4OriginUrl` | extension.js:178-200 | probe 4 fails on an empty `ls-remote` URL and otherwise links it to the current branch |
| `Resolver.TryUpstream` | extension.js:79-101 | the first try block returns probe 1's link and issues probe 1's commands |
| `Resolver.TryBranchRemote` | extension.js:104-151 | the second try block returns probe 2's link and issues probe 2's commands |
| `Resolver.TryOriginHead` | extension.js:154-174 | the third try block returns probe 3's link and issues probe 3's commands |
| `Resolver.TryLsRemote` | extension.js:177-203 | the fourth try block returns probe 4's link and issues probe 4's commands |
| `Resolver.GetRepoUrl` | extension.js:73-207 | the URL and the command log are those of the probe chain; every URL is `cleanUrl(u) + "/blob/" + b` for what the winning probe found |
| `Resolver.ResolveWithoutWorkspace` | extension.js:74-75 | without a workspace folder nothing is found and no command is issued |
| `Resolver.ResolveFirstSuccessWins` | extension.js:73-207 | the first probe in the order 1, 2, 3, 4 that succeeds gives the result, and only the commands of the probes up to it are issued |
| `Resolver.ResolveAllFail` | extension.js:99-206 | when all four probes fail the result is undefined after all their commands |
| `Resolver.ResolveUndefinedIff` | extension.js:73-207 | the result is undefined exactly when there is no workspace folder or all four probes fail |
| `Browser.LineAnchor` | extension.js:46-51 | the fragment reads as `?plain=1#L<digits>-L<digits>`, and however it is read, its two numbers are the start and end line plus 1 |
| `Browser.AnchorReadsBack` | extension.js:48-50 | every reading of the fragment for lines a and b gives back a and b |
| `Browser.LineAnchorOneBased` | extension.js:47-50 | 0-based lines 10 to 15 give the fragment `?plain=1#L11-L16` |
| `Browser.LineAnchorDeterminesLines` | extension.js:48-50 | equal fragments name the same start line and the same end line |
| `Browser.OpenInBrowser` | extension.js:38-63 | a falsy URL gives the error message; a document with no workspace folder throws; otherwise the URL is the repository URL, then `/` and the relative path if a document is given, then the line fragment if an editor with a non-empty selection is given |
| `Browser.ResolvedLinkIsTruthy` | extension.js:39 | a found link is never empty, and finding one needs a workspace folder |
| `Browser.RunCommand` | extension.js:20-31 | the command never throws; it shows the error exactly when nothing is found; an untitled buffer or no editor opens exactly the repository URL; a saved file adds its relative path and, for a non-empty selection, the line fragment |

## Left out

- The status-bar button (`showButton`), the command registration and the
  subscription in `activate`: these are editor UI with no decisions.
- `showErrorMessage`, `vscode.Uri.parse` and `openExternal`: the model
  stops at the `Outcome` (the message or the URL string), and does not
  model URI parsing or the browser.
- `child_process.execSync` and git itself: these are replaced by an
  arbitrary oracle, and what git would print is not modelled. The oracle
  returns text, so the UTF-8 decoding of the output buffer is not
  modelled either. A command that hangs is not modelled, because the
  oracle always answers.
- `path.relative`: this is a platform path library and is an opaque
  function parameter. The code does no separator conversion, so neither
  does the model.
- `Exec` is a function, so the same command in the same folder always
  gives the same answer. Probes 2 and 4 both run
  `git symbolic-ref --short HEAD`; the model assumes both runs print the
  same branch.
- The workspace folders come in as a list of paths. Both calls to
  `getWorkspaceFolder` during one command are assumed to see the same
  list.
- Exceptions are modelled as `None` results and as the `Threw` outcome.
  Which exception was thrown is not modelled.
