/** `getRepoUrl` (extension.js:73-207): four probes of the working copy's
    git configuration, tried in a fixed order, each abandoned silently when
    a command fails. `child_process.execSync` is an oracle from working
    directory and command line to the command's output, `None` when the
    call throws; git itself is not modelled. */
module Resolver {
  import opened Wrappers
  import opened Text
  import opened UrlCleaning

  /** `execSync(command, { cwd })`: the output, or `None` if it threw. */
  type Exec = (string, string) -> Option<string>

  // The command lines the probes issue (extension.js:81, 91, 106, 113,
  // 123, 136, 156, 164, 179, 188).
  const UpstreamCmd := "git rev-parse --abbrev-ref --symbolic-full-name @{u}"
  const CurrentBranchCmd := "git symbolic-ref --short HEAD"
  const OriginHeadCmd := "git symbolic-ref refs/remotes/origin/HEAD"
  const OriginConfigCmd := "git config --get remote.origin.url"
  const OriginLsRemoteCmd := "git ls-remote --get-url origin"
  const OriginRefPrefix := "refs/remotes/origin/"

  function RemoteConfigCmd(remote: string): string {
    "git config --get remote." + remote + ".url"
  }

  function BranchRemoteCmd(branch: string): string {
    "git config branch." + branch + ".remote"
  }

  function UpstreamShortCmd(branch: string): string {
    "git for-each-ref --format='%(upstream:short)' refs/heads/" + branch
  }

  function RemoteGetUrlCmd(remote: string): string {
    "git remote get-url " + remote
  }

  /** `getWorkspaceFolder()` (extension.js:65-71): the first workspace
      folder's path, if there is one. */
  function WorkspaceRoot(folders: seq<string>): (root: Option<string>)
    ensures root.Some? <==> |folders| > 0
    ensures root.Some? ==> root.value == folders[0]
  {
    if |folders| > 0 then Some(folders[0]) else None
  }

  // ---------------------------------------------------------------------
  // The pattern /^(.+)\/(.+)$/ of extension.js:86
  // ---------------------------------------------------------------------

  /** The characters JavaScript's `.` does not match. */
  predicate IsLineTerminator(c: char) {
    c == '\n' || c == '\r' || c == '\U{2028}' || c == '\U{2029}'
  }

  predicate SingleLine(s: string) {
    forall i :: 0 <= i < |s| ==> !IsLineTerminator(s[i])
  }

  /** The regular expression can match `s` with these two groups. */
  predicate RegexMatch(s: string, remote: string, branch: string) {
    SingleLine(s) && |remote| > 0 && |branch| > 0 && s == remote + "/" + branch
  }

  /** A `/` at `k` with at least one character on each side. */
  predicate SlashAt(s: string, k: int) {
    0 < k < |s| - 1 && s[k] == '/'
  }

  /** The greatest `j <= k` with a `/` at `j` that leaves text on both
      sides. */
  function LastSlash(s: string, k: int): (r: Option<nat>)
    requires k < |s|
    ensures r.Some? ==> r.value <= k && SlashAt(s, r.value)
    ensures r.Some? ==> forall j :: r.value < j <= k ==> !SlashAt(s, j)
    ensures r.None? ==> forall j :: j <= k ==> !SlashAt(s, j)
    decreases k
  {
    if k < 1 then None
    else if SlashAt(s, k) then Some(k)
    else LastSlash(s, k - 1)
  }

  /** A match of the pattern is a `/` with text on both sides. */
  lemma RegexMatchIsSlash(s: string, remote: string, branch: string)
    requires RegexMatch(s, remote, branch)
    ensures SlashAt(s, |remote|) && s[..|remote|] == remote && s[|remote| + 1..] == branch
  {
  }

  /** Backtracking from a greedy first group finds the split at the last
      `/` with text on both sides: the match with the longest first group. */
  function MatchUpstream(s: string): (m: Option<(string, string)>)
    ensures m.Some? ==> RegexMatch(s, m.value.0, m.value.1)
    ensures m.Some? ==> forall remote, branch :: RegexMatch(s, remote, branch) ==> |remote| <= |m.value.0|
    ensures m.None? ==> forall remote, branch :: !RegexMatch(s, remote, branch)
  {
    if |s| < 2 || !SingleLine(s) then None
    else
      match LastSlash(s, |s| - 2)
      case None =>
        assert forall remote, branch :: RegexMatch(s, remote, branch) ==> SlashAt(s, |remote|) by {
          forall remote, branch | RegexMatch(s, remote, branch) ensures SlashAt(s, |remote|) {
            RegexMatchIsSlash(s, remote, branch);
          }
        }
        None
      case Some(k) =>
        assert s == s[..k] + "/" + s[k + 1..];
        assert forall remote, branch :: RegexMatch(s, remote, branch) ==> SlashAt(s, |remote|) by {
          forall remote, branch | RegexMatch(s, remote, branch) ensures SlashAt(s, |remote|) {
            RegexMatchIsSlash(s, remote, branch);
          }
        }
        Some((s[..k], s[k + 1..]))
  }

  // ---------------------------------------------------------------------
  // The four probes
  // ---------------------------------------------------------------------

  /** What a successful probe found: the remote's URL as git printed it
      (trimmed) and the branch to link to. */
  datatype Resolved = Resolved(remoteUrl: string, branch: string) {
    /** The string `getRepoUrl` returns: `cleanUrl(url) + "/blob/" + branch`. */
    function Link(): string {
      CleanUrl(remoteUrl) + "/blob/" + branch
    }
  }

  /** The outcome of a probe, or of a chain of probes, together with the
      command lines it issued, in order. */
  datatype Attempt = Attempt(found: Option<Resolved>, issued: seq<string>)

  /** Probe 1 (extension.js:79-101): the upstream of the current branch,
      split into remote and branch, then that remote's configured URL. */
  function Probe1(exec: Exec, root: string): (a: Attempt)
    ensures 1 <= |a.issued| <= 2 && a.issued[0] == UpstreamCmd
    ensures a.found.Some? ==>
      |a.issued| == 2 && exec(root, UpstreamCmd).Some? && exec(root, a.issued[1]).Some? &&
      a.found.value.remoteUrl == Trim(exec(root, a.issued[1]).value) &&
      a.found.value.branch != "" && SingleLine(a.found.value.branch)
  {
    match exec(root, UpstreamCmd)
    case None => Attempt(None, [UpstreamCmd])
    case Some(out) =>
      match MatchUpstream(Trim(out))
      case None => Attempt(None, [UpstreamCmd])
      case Some((remote, branch)) =>
        var urlCmd := RemoteConfigCmd(remote);
        match exec(root, urlCmd)
        case None => Attempt(None, [UpstreamCmd, urlCmd])
        case Some(url) => Attempt(Some(Resolved(Trim(url), branch)), [UpstreamCmd, urlCmd])
  }

  /** Probe 2 (extension.js:104-151): the current branch, its configured
      remote, then that remote's URL. An empty remote name reaches the
      assignment to the `const` binding at extension.js:121: the
      `for-each-ref` command runs, the assignment throws a TypeError, and
      the probe is abandoned. */
  function Probe2(exec: Exec, root: string): (a: Attempt)
    ensures 1 <= |a.issued| <= 3 && a.issued[0] == CurrentBranchCmd
    ensures a.found.Some? ==>
      |a.issued| == 3 && exec(root, CurrentBranchCmd).Some? && exec(root, a.issued[2]).Some? &&
      a.found.value == Resolved(Trim(exec(root, a.issued[2]).value), Trim(exec(root, CurrentBranchCmd).value)) &&
      a.found.value.remoteUrl != ""
    ensures a.found.Some? ==>
      exec(root, CurrentBranchCmd).Some? &&
      var b := Trim(exec(root, CurrentBranchCmd).value);
      exec(root, BranchRemoteCmd(b)).Some? &&
      var r := Trim(exec(root, BranchRemoteCmd(b)).value);
      a.issued == [CurrentBranchCmd, BranchRemoteCmd(b), RemoteGetUrlCmd(r)] &&
      a.found.value.remoteUrl == Trim(exec(root, RemoteGetUrlCmd(r)).value)
  {
    match exec(root, CurrentBranchCmd)
    case None => Attempt(None, [CurrentBranchCmd])
    case Some(out) =>
      var branch := Trim(out);
      var remoteCmd := BranchRemoteCmd(branch);
      match exec(root, remoteCmd)
      case None => Attempt(None, [CurrentBranchCmd, remoteCmd])
      case Some(out') =>
        var remote := Trim(out');
        if remote == "" then
          Attempt(None, [CurrentBranchCmd, remoteCmd, UpstreamShortCmd(branch)])
        else
          var urlCmd := RemoteGetUrlCmd(remote);
          var issued := [CurrentBranchCmd, remoteCmd, urlCmd];
          match exec(root, urlCmd)
          case None => Attempt(None, issued)
          case Some(url) =>
            if Trim(url) == "" then Attempt(None, issued)
            else Attempt(Some(Resolved(Trim(url), branch)), issued)
  }

  /** Probe 3 (extension.js:154-174): the default branch of `origin`,
      read from `refs/remotes/origin/HEAD` with the first occurrence of
      `refs/remotes/origin/` removed, then `origin`'s configured URL, empty
      or not. */
  function Probe3(exec: Exec, root: string): (a: Attempt)
    ensures a.issued == [OriginHeadCmd] || a.issued == [OriginHeadCmd, OriginConfigCmd]
    ensures a.found.Some? <==> exec(root, OriginHeadCmd).Some? && exec(root, OriginConfigCmd).Some?
    ensures a.found.Some? ==> a.found.value.remoteUrl == Trim(exec(root, OriginConfigCmd).value)
    ensures a.found.Some? ==> a.found.value.branch == ReplaceFirst(Trim(exec(root, OriginHeadCmd).value), OriginRefPrefix, "")
  {
    match exec(root, OriginHeadCmd)
    case None => Attempt(None, [OriginHeadCmd])
    case Some(out) =>
      var branch := ReplaceFirst(Trim(out), OriginRefPrefix, "");
      match exec(root, OriginConfigCmd)
      case None => Attempt(None, [OriginHeadCmd, OriginConfigCmd])
      case Some(url) => Attempt(Some(Resolved(Trim(url), branch)), [OriginHeadCmd, OriginConfigCmd])
  }

  /** Probe 4 (extension.js:177-203): the current branch, then `origin`'s
      URL from `ls-remote`, which must not be empty. */
  function Probe4(exec: Exec, root: string): (a: Attempt)
    ensures a.issued == [CurrentBranchCmd] || a.issued == [CurrentBranchCmd, OriginLsRemoteCmd]
    ensures a.found.Some? <==>
      exec(root, CurrentBranchCmd).Some? && exec(root, OriginLsRemoteCmd).Some? &&
      Trim(exec(root, OriginLsRemoteCmd).value) != ""
    ensures a.found.Some? ==>
      a.found.value == Resolved(Trim(exec(root, OriginLsRemoteCmd).value), Trim(exec(root, CurrentBranchCmd).value))
  {
    match exec(root, CurrentBranchCmd)
    case None => Attempt(None, [CurrentBranchCmd])
    case Some(out) =>
      var branch := Trim(out);
      match exec(root, OriginLsRemoteCmd)
      case None => Attempt(None, [CurrentBranchCmd, OriginLsRemoteCmd])
      case Some(url) =>
        if Trim(url) == "" then Attempt(None, [CurrentBranchCmd, OriginLsRemoteCmd])
        else Attempt(Some(Resolved(Trim(url), branch)), [CurrentBranchCmd, OriginLsRemoteCmd])
  }

  /** The probes in the order `getRepoUrl` tries them. */
  function Probes(exec: Exec, root: string): (ps: seq<Attempt>)
    ensures |ps| == 4
  {
    [Probe1(exec, root), Probe2(exec, root), Probe3(exec, root), Probe4(exec, root)]
  }

  /** Falls back to `next` only when `first` found nothing; the commands of
      both are then issued, `first`'s before `next`'s. */
  function OrElse(first: Attempt, next: Attempt): Attempt {
    if first.found.Some? then first else Attempt(next.found, first.issued + next.issued)
  }

  /** The commands issued by a sequence of attempts, one after the other. */
  function Issued(attempts: seq<Attempt>): seq<string> {
    if attempts == [] then [] else attempts[0].issued + Issued(attempts[1..])
  }

  /** What `getRepoUrl()` finds, and the commands it issues: nothing
      without a workspace folder, otherwise the probes in order until one
      succeeds. */
  function Resolve(folders: seq<string>, exec: Exec): (a: Attempt)
    ensures WorkspaceRoot(folders).None? ==> a == Attempt(None, [])
    ensures WorkspaceRoot(folders).Some? ==> |a.issued| >= 1 && a.issued[0] == UpstreamCmd
    ensures a.found.Some? ==>
      WorkspaceRoot(folders).Some? &&
      var root := WorkspaceRoot(folders).value;
      a.found in {Probe1(exec, root).found, Probe2(exec, root).found, Probe3(exec, root).found, Probe4(exec, root).found}
  {
    match WorkspaceRoot(folders)
    case None => Attempt(None, [])
    case Some(root) =>
      OrElse(Probe1(exec, root), OrElse(Probe2(exec, root), OrElse(Probe3(exec, root), Probe4(exec, root))))
  }

  // ---------------------------------------------------------------------
  // getRepoUrl, step by step
  // ---------------------------------------------------------------------

  /** The first try block of `getRepoUrl` (extension.js:79-101). */
  method TryUpstream(exec: Exec, root: string) returns (url: Option<string>, issued: seq<string>)
    ensures issued == Probe1(exec, root).issued
    ensures url.Some? <==> Probe1(exec, root).found.Some?
    ensures url.Some? ==> url.value == Probe1(exec, root).found.value.Link()
  {
    var upstream := exec(root, UpstreamCmd);
    issued := [UpstreamCmd];
    if upstream.Some? {
      var m := MatchUpstream(Trim(upstream.value));
      if m.Some? {
        var (remote, branch) := m.value;
        var remoteUrl := exec(root, RemoteConfigCmd(remote));
        issued := issued + [RemoteConfigCmd(remote)];
        if remoteUrl.Some? {
          return Some(Resolved(Trim(remoteUrl.value), branch).Link()), issued;
        }
      }
    }
    return None, issued;
  }

  /** The second try block (extension.js:104-151). */
  method TryBranchRemote(exec: Exec, root: string) returns (url: Option<string>, issued: seq<string>)
    ensures issued == Probe2(exec, root).issued
    ensures url.Some? <==> Probe2(exec, root).found.Some?
    ensures url.Some? ==> url.value == Probe2(exec, root).found.value.Link()
  {
    var current := exec(root, CurrentBranchCmd);
    issued := [CurrentBranchCmd];
    if current.Some? {
      var currentBranch := Trim(current.value);
      var remoteName := exec(root, BranchRemoteCmd(currentBranch));
      issued := issued + [BranchRemoteCmd(currentBranch)];
      if remoteName.Some? {
        if Trim(remoteName.value) == "" {
          // the for-each-ref command runs, then the assignment throws
          issued := issued + [UpstreamShortCmd(currentBranch)];
        } else {
          var remoteUrl := exec(root, RemoteGetUrlCmd(Trim(remoteName.value)));
          issued := issued + [RemoteGetUrlCmd(Trim(remoteName.value))];
          if remoteUrl.Some? && Trim(remoteUrl.value) != "" {
            return Some(Resolved(Trim(remoteUrl.value), currentBranch).Link()), issued;
          }
        }
      }
    }
    return None, issued;
  }

  /** The third try block (extension.js:154-174). */
  method TryOriginHead(exec: Exec, root: string) returns (url: Option<string>, issued: seq<string>)
    ensures issued == Probe3(exec, root).issued
    ensures url.Some? <==> Probe3(exec, root).found.Some?
    ensures url.Some? ==> url.value == Probe3(exec, root).found.value.Link()
  {
    var defaultRef := exec(root, OriginHeadCmd);
    issued := [OriginHeadCmd];
    if defaultRef.Some? {
      var defaultBranch := ReplaceFirst(Trim(defaultRef.value), OriginRefPrefix, "");
      var remoteUrl := exec(root, OriginConfigCmd);
      issued := issued + [OriginConfigCmd];
      if remoteUrl.Some? {
        return Some(Resolved(Trim(remoteUrl.value), defaultBranch).Link()), issued;
      }
    }
    return None, issued;
  }

  /** The fourth try block (extension.js:177-203). */
  method TryLsRemote(exec: Exec, root: string) returns (url: Option<string>, issued: seq<string>)
    ensures issued == Probe4(exec, root).issued
    ensures url.Some? <==> Probe4(exec, root).found.Some?
    ensures url.Some? ==> url.value == Probe4(exec, root).found.value.Link()
  {
    var current := exec(root, CurrentBranchCmd);
    issued := [CurrentBranchCmd];
    if current.Some? {
      var currentBranch := Trim(current.value);
      var remoteUrl := exec(root, OriginLsRemoteCmd);
      issued := issued + [OriginLsRemoteCmd];
      if remoteUrl.Some? && Trim(remoteUrl.value) != "" {
        return Some(Resolved(Trim(remoteUrl.value), currentBranch).Link()), issued;
      }
    }
    return None, issued;
  }

  /** `getRepoUrl()`: the four try blocks in order, returning from the
      first that yields a URL, with every command line handed to
      `execSync` logged. The URL and the log are those of `Resolve`; a URL
      is always the `Link` of what the winning probe found. */
  method GetRepoUrl(folders: seq<string>, exec: Exec) returns (url: Option<string>, issued: seq<string>)
    ensures issued == Resolve(folders, exec).issued
    ensures url.Some? <==> Resolve(folders, exec).found.Some?
    ensures url.Some? ==> url.value == Resolve(folders, exec).found.value.Link()
  {
    var folder := WorkspaceRoot(folders);
    if folder.None? {
      return None, [];
    }
    var root := folder.value;
    var log;
    url, issued := TryUpstream(exec, root);
    if url.Some? {
      return;
    }
    url, log := TryBranchRemote(exec, root);
    issued := issued + log;
    if url.Some? {
      return;
    }
    url, log := TryOriginHead(exec, root);
    issued := issued + log;
    if url.Some? {
      return;
    }
    url, log := TryLsRemote(exec, root);
    issued := issued + log;
  }

  // ---------------------------------------------------------------------
  // Properties of the chain
  // ---------------------------------------------------------------------

  /** Without a workspace folder nothing is found and no command runs. */
  lemma ResolveWithoutWorkspace(exec: Exec)
    ensures Resolve([], exec) == Attempt(None, [])
  {
  }

  /** The probes run in the order 1, 2, 3, 4 and the first that finds a
      URL wins: the result is that probe's, and the commands issued are
      those of the probes up to and including it, none after. */
  lemma {:induction false} ResolveFirstSuccessWins(folders: seq<string>, exec: Exec, k: nat)
    requires |folders| > 0 && k < 4
    requires Probes(exec, folders[0])[k].found.Some?
    requires forall j :: 0 <= j < k ==> Probes(exec, folders[0])[j].found.None?
    ensures Resolve(folders, exec).found == Probes(exec, folders[0])[k].found
    ensures Resolve(folders, exec).issued == Issued(Probes(exec, folders[0])[..k + 1])
  {
    var ps := Probes(exec, folders[0]);
    IssuedPrefixes(ps);
    if k == 0 {
      assert ps[0].found.Some?;
    } else if k == 1 {
      assert ps[0].found.None?;
    } else if k == 2 {
      assert ps[0].found.None? && ps[1].found.None?;
    } else {
      assert ps[0].found.None? && ps[1].found.None? && ps[2].found.None?;
    }
  }

  /** When every probe fails, nothing is found and all their commands
      were issued. */
  lemma ResolveAllFail(folders: seq<string>, exec: Exec)
    requires |folders| > 0
    requires forall j :: 0 <= j < 4 ==> Probes(exec, folders[0])[j].found.None?
    ensures Resolve(folders, exec) == Attempt(None, Issued(Probes(exec, folders[0])))
  {
    var ps := Probes(exec, folders[0]);
    IssuedPrefixes(ps);
    assert ps[..4] == ps;
    assert ps[0].found.None? && ps[1].found.None? && ps[2].found.None? && ps[3].found.None?;
  }

  /** `getRepoUrl()` returns `undefined` exactly when there is no
      workspace folder or all four probes fail. */
  lemma ResolveUndefinedIff(folders: seq<string>, exec: Exec)
    ensures Resolve(folders, exec).found.None? <==>
      (folders == [] || forall j :: 0 <= j < 4 ==> Probes(exec, folders[0])[j].found.None?)
  {
    if folders != [] {
      var ps := Probes(exec, folders[0]);
      if forall j :: 0 <= j < 4 ==> ps[j].found.None? {
        assert ps[0].found.None? && ps[1].found.None? && ps[2].found.None? && ps[3].found.None?;
      } else {
        var j :| 0 <= j < 4 && ps[j].found.Some?;
        assert j == 0 || j == 1 || j == 2 || j == 3;
      }
    }
  }

  /** The commands of the first one to four probes, spelt out. */
  lemma IssuedPrefixes(ps: seq<Attempt>)
    requires |ps| == 4
    ensures Issued(ps[..1]) == ps[0].issued
    ensures Issued(ps[..2]) == ps[0].issued + ps[1].issued
    ensures Issued(ps[..3]) == ps[0].issued + (ps[1].issued + ps[2].issued)
    ensures Issued(ps[..4]) == ps[0].issued + (ps[1].issued + (ps[2].issued + ps[3].issued))
  {
    assert Issued(ps[..1]) == ps[0].issued + Issued([]) by { assert ps[..1][1..] == []; }
    assert Issued(ps[1..2]) == ps[1].issued by { assert ps[1..2][1..] == []; }
    assert Issued(ps[2..3]) == ps[2].issued by { assert ps[2..3][1..] == []; }
    assert Issued(ps[3..4]) == ps[3].issued by { assert ps[3..4][1..] == []; }
    assert Issued(ps[2..4]) == ps[2].issued + Issued(ps[3..4]) by { assert ps[2..4][1..] == ps[3..4]; }
    assert Issued(ps[1..3]) == ps[1].issued + Issued(ps[2..3]) by { assert ps[1..3][1..] == ps[2..3]; }
    assert Issued(ps[1..4]) == ps[1].issued + Issued(ps[2..4]) by { assert ps[1..4][1..] == ps[2..4]; }
    assert Issued(ps[..2]) == ps[0].issued + Issued(ps[1..2]) by { assert ps[..2][1..] == ps[1..2]; }
    assert Issued(ps[..3]) == ps[0].issued + Issued(ps[1..3]) by { assert ps[..3][1..] == ps[1..3]; }
    assert Issued(ps[..4]) == ps[0].issued + Issued(ps[1..4]) by { assert ps[..4][1..] == ps[1..4]; }
  }

  // ---------------------------------------------------------------------
  // Properties of the individual probes
  // ---------------------------------------------------------------------

  /** The regular expression splits at the last `/` that has text on both
      sides: `origin/feature/x` gives remote `origin/feature` and branch
      `x`. */
  lemma MatchUpstreamLastSlash()
    ensures MatchUpstream("origin/feature/x") == Some(("origin/feature", "x"))
  {
    var s := "origin/feature/x";
    assert RegexMatch(s, "origin/feature", "x");
    var m := MatchUpstream(s);
    assert m.Some?;
    assert |m.value.0| == |"origin/feature"|;
    RegexMatchIsSlash(s, m.value.0, m.value.1);
    assert s[..14] == "origin/feature" && s[15..] == "x";
  }

  /** Probe 1 uses the longest-remote split of the upstream name: it asks
      for that remote's URL and, when the lookup succeeds, returns it with
      the rest of the name as branch; it issues no other command. */
  lemma Probe1LongestSplit(exec: Exec, root: string, out: string, remote: string, branch: string)
    requires exec(root, UpstreamCmd) == Some(out)
    requires RegexMatch(Trim(out), remote, branch)
    requires forall r, b :: RegexMatch(Trim(out), r, b) ==> |r| <= |remote|
    ensures Probe1(exec, root).issued == [UpstreamCmd, RemoteConfigCmd(remote)]
    ensures Probe1(exec, root).found ==
      match exec(root, RemoteConfigCmd(remote))
      case Some(url) => Some(Resolved(Trim(url), branch))
      case None => None
  {
    var s := Trim(out);
    var m := MatchUpstream(s);
    assert m.Some?;
    assert |m.value.0| == |remote|;
    RegexMatchIsSlash(s, remote, branch);
    RegexMatchIsSlash(s, m.value.0, m.value.1);
    assert m.value == (remote, branch);
  }

  /** Without a `/` that has text on both sides (or with a line break),
      probe 1 falls through after its first command. */
  lemma Probe1NoSplit(exec: Exec, root: string, out: string)
    requires exec(root, UpstreamCmd) == Some(out)
    requires forall r, b :: !RegexMatch(Trim(out), r, b)
    ensures Probe1(exec, root) == Attempt(None, [UpstreamCmd])
  {
  }

  /** Probe 2 succeeds exactly when the current branch is known, the
      branch has a non-empty configured remote, and that remote has a
      non-empty URL; it links to the current branch. */
  lemma Probe2Succeeds(exec: Exec, root: string)
    ensures Probe2(exec, root).found.Some? <==>
      exec(root, CurrentBranchCmd).Some? &&
      exec(root, BranchRemoteCmd(Trim(exec(root, CurrentBranchCmd).value))).Some? &&
      var remote := Trim(exec(root, BranchRemoteCmd(Trim(exec(root, CurrentBranchCmd).value))).value);
      remote != "" &&
      exec(root, RemoteGetUrlCmd(remote)).Some? &&
      Trim(exec(root, RemoteGetUrlCmd(remote)).value) != ""
    ensures Probe2(exec, root).found.Some? ==>
      Probe2(exec, root).found.value.branch == Trim(exec(root, CurrentBranchCmd).value)
  {
  }

  /** An empty configured remote always abandons probe 2, whatever the
      `for-each-ref` fallback prints: that command is issued, but the
      assignment of its output to a `const` binding throws. */
  lemma Probe2EmptyRemoteAborts(exec: Exec, root: string, out: string, remoteOut: string)
    requires exec(root, CurrentBranchCmd) == Some(out)
    requires exec(root, BranchRemoteCmd(Trim(out))) == Some(remoteOut)
    requires Trim(remoteOut) == ""
    ensures Probe2(exec, root) == Attempt(None,
      [CurrentBranchCmd, BranchRemoteCmd(Trim(out)), UpstreamShortCmd(Trim(out))])
  {
  }

  /** Probe 3 links to the default branch: when `symbolic-ref` prints
      `refs/remotes/origin/` + `branch` (white space and the line break
      around it are trimmed first), the branch is `branch` exactly,
      even when it holds that prefix again, since only the first
      occurrence is removed. Any configured URL is accepted, even an empty
      one. */
  lemma Probe3DefaultBranch(exec: Exec, root: string, out: string, branch: string, url: string)
    requires exec(root, OriginHeadCmd) == Some(out)
    requires Trim(out) == OriginRefPrefix + branch
    requires exec(root, OriginConfigCmd) == Some(url)
    ensures Probe3(exec, root) == Attempt(Some(Resolved(Trim(url), branch)), [OriginHeadCmd, OriginConfigCmd])
  {
    var t := Trim(out);
    ReplaceFirstAtStart(t, OriginRefPrefix, "");
    assert t[|OriginRefPrefix|..] == branch;
    assert ReplaceFirst(t, OriginRefPrefix, "") == branch;
  }

  /** When `origin/HEAD` names a ref outside `refs/remotes/origin/`, the
      whole trimmed output is taken as the branch. */
  lemma Probe3NoPrefix(exec: Exec, root: string, out: string, url: string)
    requires exec(root, OriginHeadCmd) == Some(out)
    requires forall j: nat :: !OccursAt(Trim(out), OriginRefPrefix, j)
    requires exec(root, OriginConfigCmd) == Some(url)
    ensures Probe3(exec, root) == Attempt(Some(Resolved(Trim(url), Trim(out))), [OriginHeadCmd, OriginConfigCmd])
  {
    ReplaceFirstAbsent(Trim(out), OriginRefPrefix, "");
  }

  /** What git prints for `origin/HEAD`, line break included, names the
      branch `main`. */
  lemma Probe3GitOutput(exec: Exec, root: string, url: string)
    requires exec(root, OriginHeadCmd) == Some("refs/remotes/origin/main\n")
    requires exec(root, OriginConfigCmd) == Some(url)
    ensures Probe3(exec, root).found == Some(Resolved(Trim(url), "main"))
  {
    var out := "refs/remotes/origin/main\n";
    assert SkipForward(out, 0) == 0;
    assert SkipBackward(out, 0, |out|) == |out| - 1;
    assert Trim(out) == OriginRefPrefix + "main";
    Probe3DefaultBranch(exec, root, out, "main", url);
  }

  /** Probe 4 is abandoned when `ls-remote` prints an empty URL, and
      otherwise links `origin`'s URL to the current branch. */
  lemma Probe4OriginUrl(exec: Exec, root: string, out: string, url: string)
    requires exec(root, CurrentBranchCmd) == Some(out)
    requires exec(root, OriginLsRemoteCmd) == Some(url)
    ensures Trim(url) == "" ==> Probe4(exec, root).found.None?
    ensures Trim(url) != "" ==> Probe4(exec, root).found == Some(Resolved(Trim(url), Trim(out)))
    ensures Probe4(exec, root).issued == [CurrentBranchCmd, OriginLsRemoteCmd]
  {
  }
}
