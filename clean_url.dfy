/** `cleanUrl` (extension.js:209-217): turns the URL of a git remote into
    the https address of the hosted repository. */
module UrlCleaning {
  import opened Wrappers
  import opened Text

  /** `url.replace(/\.git$/, "")`: one trailing `.git` is removed. */
  function StripGitSuffix(url: string): (r: string)
    ensures EndsWith(url, ".git") ==> r + ".git" == url
    ensures !EndsWith(url, ".git") ==> r == url
  {
    if EndsWith(url, ".git") then url[..|url| - 4] else url
  }

  /** A value spliced into a template literal: `undefined` prints as the
      text "undefined". */
  function Interpolate(v: Option<string>): string {
    match v
    case Some(s) => s
    case None => "undefined"
  }

  /** `cleanUrl(url)`. After the `.git` strip, SSH shorthand
      `git@HOST[+ALIAS]:PATH` is rebuilt as `https://HOST/PATH`: the text
      after the first `git@` is split on every `:`, only the first two
      parts are kept, and the host is what precedes the first `+`. Any
      other URL is returned as stripped. Whatever the input, the result
      is never SSH shorthand. */
  function CleanUrl(url: string): (r: string)
    ensures !StartsWith(r, "git@")
  {
    var u := StripGitSuffix(url);
    if StartsWith(u, "git@") then
      var parts := Split(ReplaceFirst(u, "git@", ""), ':');
      var hostAndUser := parts[0];
      var repo := if |parts| > 1 then Some(parts[1]) else None;
      var host := Split(hostAndUser, '+')[0];
      var r := "https://" + host + "/" + Interpolate(repo);
      assert r[0] != "git@"[0];
      r
    else
      u
  }

  /** On SSH shorthand `git@` + `hostAndUser` + `:` + `path`, where neither
      part holds a colon, the split yields exactly those two parts. */
  lemma SshParts(hostAndUser: string, path: string)
    requires ':' !in hostAndUser && ':' !in path
    ensures StartsWith("git@" + hostAndUser + ":" + path, "git@")
    ensures Split(ReplaceFirst("git@" + hostAndUser + ":" + path, "git@", ""), ':')
         == [hostAndUser, path]
  {
    var u := "git@" + hostAndUser + ":" + path;
    assert StartsWith(u, "git@");
    ReplaceFirstAtStart(u, "git@", "");
    assert ReplaceFirst(u, "git@", "") == hostAndUser + [':'] + path;
    SplitAtFirst(hostAndUser, path, ':');
    SplitWithoutSeparator(path, ':');
    assert [hostAndUser] + [path] == [hostAndUser, path];
  }

  /** Appending `.git` and stripping it again gives the text back. */
  lemma StripAppended(u: string)
    ensures StripGitSuffix(u + ".git") == u
  {
  }

  /** `git@HOST:PATH.git` becomes `https://HOST/PATH`. */
  lemma {:induction false} CleanUrlSsh(host: string, path: string)
    requires '+' !in host && ':' !in host && ':' !in path
    ensures CleanUrl("git@" + host + ":" + path + ".git") == "https://" + host + "/" + path
  {
    StripAppended("git@" + host + ":" + path);
    SshParts(host, path);
    SplitWithoutSeparator(host, '+');
  }

  /** `git@HOST+ALIAS:PATH.git` becomes `https://HOST/PATH`: the alias of
      an SSH config entry is dropped. */
  lemma {:induction false} CleanUrlSshAlias(host: string, alias: string, path: string)
    requires '+' !in host && ':' !in host && ':' !in alias && ':' !in path
    ensures CleanUrl("git@" + host + "+" + alias + ":" + path + ".git")
         == "https://" + host + "/" + path
  {
    var hostAndUser := host + "+" + alias;
    assert "git@" + host + "+" + alias + ":" + path + ".git"
        == "git@" + hostAndUser + ":" + path + ".git";
    StripAppended("git@" + hostAndUser + ":" + path);
    SshParts(hostAndUser, path);
    SplitAtFirst(host, alias, '+');
  }

  /** A URL that is not SSH shorthand keeps everything but one trailing
      `.git`. */
  lemma CleanUrlOtherForms(url: string)
    requires !StartsWith(url, "git@")
    ensures CleanUrl(url) + ".git" == url || (CleanUrl(url) == url && !EndsWith(url, ".git"))
  {
  }

  /** Cleaning a cleaned URL changes nothing, provided the first pass did
      not leave a `.git` ending behind. */
  lemma CleanUrlIdempotent(url: string)
    requires !EndsWith(CleanUrl(url), ".git")
    ensures CleanUrl(CleanUrl(url)) == CleanUrl(url)
  {
  }

  /** Without its side condition idempotence fails: each pass removes only
      one `.git`. */
  lemma CleanUrlTwoSuffixes()
    ensures CleanUrl("x.git.git") == "x.git"
    ensures CleanUrl(CleanUrl("x.git.git")) == "x"
  {
  }

  /** SSH shorthand without a colon: the missing path is spliced in as the
      text "undefined". */
  lemma CleanUrlWithoutColon(host: string)
    requires '+' !in host && ':' !in host && !EndsWith("git@" + host, ".git")
    ensures CleanUrl("git@" + host) == "https://" + host + "/undefined"
  {
    var u := "git@" + host;
    assert StripGitSuffix(u) == u;
    assert StartsWith(u, "git@");
    assert ReplaceFirst(u, "git@", "") == host by {
      assert u[|"git@"|..] == host;
    }
    SplitWithoutSeparator(host, ':');
    SplitWithoutSeparator(host, '+');
    var parts := Split(ReplaceFirst(u, "git@", ""), ':');
    assert parts == [host];
    assert Split(parts[0], '+')[0] == host;
  }

  /** Only the text between the first and the second colon is kept as the
      path: `git@HOST:PATH:REST` becomes `https://HOST/PATH`. */
  lemma CleanUrlDropsAfterSecondColon(host: string, path: string, rest: string)
    requires '+' !in host && ':' !in host && ':' !in path
    requires !EndsWith(rest, ".git")
    ensures CleanUrl("git@" + host + ":" + path + ":" + rest) == "https://" + host + "/" + path
  {
    var u := "git@" + host + ":" + path + ":" + rest;
    ColonBeforeEnding("git@" + host + ":" + path, rest);
    assert StartsWith(u, "git@");
    ReplaceFirstAtStart(u, "git@", "");
    assert ReplaceFirst(u, "git@", "") == host + [':'] + (path + [':'] + rest);
    SplitAtFirst(host, path + [':'] + rest, ':');
    SplitAtFirst(path, rest, ':');
    SplitWithoutSeparator(host, '+');
  }

  /** A `:` just before a tail that does not end in `.git` keeps the whole
      text from ending in `.git`. */
  lemma ColonBeforeEnding(front: string, rest: string)
    requires !EndsWith(rest, ".git")
    ensures !EndsWith(front + ":" + rest, ".git")
  {
    var u := front + ":" + rest;
    if |rest| >= 4 {
      assert u[|u| - 4..] == rest[|rest| - 4..];
    } else {
      assert u[|u| - |rest| - 1] == ':';
    }
  }
}
