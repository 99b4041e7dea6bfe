/**
 * core/git.py: where the repository lives, who commits, the remote URL and
 * the GitHub Pages address derived from it.  The environment is a map and
 * the output of a `git` command a parameter: `None` when git is missing or
 * the command fails.  Each cached property is a function of those inputs.
 */
module Git {

  import opened Values
  import opened Text
  import opened Util

  datatype Host = Host(
    env: map<string, string>,
    /** Raw standard output of `git <args>`, `None` when it raises. */
    git: seq<string> -> Option<string>,
    cwd: string)

  /** `__run(*args)`: the stripped output, `None` on failure. */
  function Run(h: Host, args: seq<string>): (r: Option<string>)
    ensures h.git(args).None? ==> r.None?
    ensures h.git(args).Some? ==> r == Some(Strip(h.git(args).value))
    ensures r.Some? ==> Strip(r.value) == r.value && Visible(r.value) == Visible(h.git(args).value)
  {
    match h.git(args)
    case Some(out) => Some(Strip(out))
    case None => None
  }

  const RemoteArgs: seq<string> := ["remote", "get-url", "origin"]

  /** `root`: git's top level, or the working directory when git gives
      nothing. */
  function Root(h: Host): (r: string)
    ensures var t := Run(h, ["rev-parse", "--show-toplevel"]);
      if t.Some? && t.value != "" then r == t.value else r == h.cwd
  {
    match Run(h, ["rev-parse", "--show-toplevel"])
    case Some(t) => if t != "" then t else h.cwd
    case None => h.cwd
  }

  /** `mail`: `GITHUB_MAIL`, else git's `user.email`, else the actor (or
      repository owner, or `unknown`) at `github.com`. */
  function Mail(h: Host): (r: string)
    ensures EnvLookup(h.env, ["GITHUB_MAIL"], None).Some? ==> r == EnvLookup(h.env, ["GITHUB_MAIL"], None).value
    ensures (EnvLookup(h.env, ["GITHUB_MAIL"], None).None? && Run(h, ["config", "user.email"]).Some?
             && Run(h, ["config", "user.email"]).value != "") ==> r == Run(h, ["config", "user.email"]).value
    ensures (EnvLookup(h.env, ["GITHUB_MAIL"], None).None?
             && (Run(h, ["config", "user.email"]).None? || Run(h, ["config", "user.email"]).value == "")) ==>
      var who := EnvLookup(h.env, ["GITHUB_ACTOR", "GITHUB_REPOSITORY_OWNER"], Some("unknown"));
      who.Some? && r == who.value + "@github.com"
    ensures r != []
  {
    var fromEnv := EnvLookup(h.env, ["GITHUB_MAIL"], None);
    var fromGit := Run(h, ["config", "user.email"]);
    EnvValueVisible(h.env, ["GITHUB_MAIL"]);
    if fromEnv.Some? then fromEnv.value
    else if fromGit.Some? && fromGit.value != "" then fromGit.value
    else
      var who := EnvLookup(h.env, ["GITHUB_ACTOR", "GITHUB_REPOSITORY_OWNER"], Some("unknown"));
      EnvLookupSome(h.env, ["GITHUB_ACTOR", "GITHUB_REPOSITORY_OWNER"], "unknown");
      who.value + "@github.com"
  }

  /** A value `get_env` finds is never blank. */
  lemma {:induction false} EnvValueVisible(env: map<string, string>, names: seq<string>)
    ensures EnvLookup(env, names, None).Some? ==> EnvLookup(env, names, None).value != []
    decreases |names|
  {
    if names != [] && !EnvSet(env, names[0]) {
      EnvValueVisible(env, names[1..]);
    }
  }

  lemma {:induction false} EnvLookupSome(env: map<string, string>, names: seq<string>, d: string)
    ensures EnvLookup(env, names, Some(d)).Some?
    decreases |names|
  {
    if names != [] && !EnvSet(env, names[0]) {
      EnvLookupSome(env, names[1..], d);
    }
  }

  predicate StartsWith(s: string, prefix: string) {
    |prefix| <= |s| && s[..|prefix|] == prefix
  }

  /** The git-output branch of `remote`: one trailing `.git` dropped, an
      SSH `git@host:path` turned into `https://host/path`, trailing slashes
      removed. */
  function NormalizeRemote(s: string): (r: string)
    ensures r == [] || r[|r| - 1] != '/'
    ensures !EndsWith(s, ".git") && !StartsWith(s, "git@") ==> r == RStripChar(s, '/')
  {
    var s1 := if EndsWith(s, ".git") then s[..|s| - 4] else s;
    var s2 := if StartsWith(s1, "git@") then "https://" + ReplaceAll(ReplaceAll(s1, "git@", ""), ":", "/") else s1;
    RStripChar(s2, '/')
  }

  /** `get_env('GITHUB_SERVER_URL', default='https://github.com')` */
  function ServerUrl(env: map<string, string>): (r: string)
    ensures !EnvSet(env, "GITHUB_SERVER_URL") ==> r == "https://github.com"
    ensures EnvSet(env, "GITHUB_SERVER_URL") ==> r == Strip(env["GITHUB_SERVER_URL"])
  {
    EnvLookupSome(env, ["GITHUB_SERVER_URL"], "https://github.com");
    EnvLookup(env, ["GITHUB_SERVER_URL"], Some("https://github.com")).value
  }

  /** `remote`: `<GITHUB_SERVER_URL>/<GITHUB_REPOSITORY>` when the
      repository is in the environment, else git's `origin` normalised; a
      failed git call leaves `None`, whose `endswith` raises
      `AttributeError`. */
  function Remote(h: Host): (r: Result<string>)
    ensures EnvLookup(h.env, ["GITHUB_REPOSITORY"], None).Some? ==>
      r == Ok(ServerUrl(h.env) + "/" + EnvLookup(h.env, ["GITHUB_REPOSITORY"], None).value)
    ensures EnvLookup(h.env, ["GITHUB_REPOSITORY"], None).None? ==>
      if Run(h, RemoteArgs).None? then r == Err(AttributeError)
      else r == Ok(NormalizeRemote(Run(h, RemoteArgs).value))
  {
    var val := EnvLookup(h.env, ["GITHUB_REPOSITORY"], None);
    var host := ServerUrl(h.env);
    EnvValueVisible(h.env, ["GITHUB_REPOSITORY"]);
    if val.Some? then Ok(host + "/" + val.value)
    else match Run(h, RemoteArgs)
      case None => Err(AttributeError)
      case Some(s) => Ok(NormalizeRemote(s))
  }

  /** Position of the first `c` in `s` from `i` on, or `|s|`. */
  function FindFrom(s: string, c: char, i: nat): (r: nat)
    requires i <= |s|
    ensures i <= r <= |s|
    ensures forall j :: i <= j < r ==> s[j] != c
    ensures r < |s| ==> s[r] == c
    decreases |s| - i
  {
    if i == |s| || s[i] == c then i else FindFrom(s, c, i + 1)
  }

  /** The length of `https://github.com/`. */
  const PrefixLen: nat := 19

  /** `re.match(r"^https://github.com/(.*?)/(.*?)$", remote)`: the two groups.
      The unescaped dot matches any character but a newline, the lazy first
      group runs to the first slash, neither group crosses a newline, and
      `$` also matches before a final newline. */
  function PageGroups(s: string): (g: Option<(string, string)>)
    ensures g.Some? ==> '/' !in g.value.0 && '\n' !in g.value.0 && '\n' !in g.value.1
  {
    if |s| < PrefixLen || s[..14] != "https://github" || s[14] == '\n' || s[15..PrefixLen] != "com/" then None
    else
      var t := s[PrefixLen..];
      var i := FindFrom(t, '/', 0);
      if i == |t| || '\n' in t[..i] then None
      else
        var rest := t[i + 1..];
        var project := if rest != [] && rest[|rest| - 1] == '\n' then rest[..|rest| - 1] else rest;
        if '\n' in project then None
        else
          assert forall j :: 0 <= j < i ==> t[..i][j] == t[j];
          Some((t[..i], project))
  }

  /** `page`: `https://<user>.github.io/<project>` for a GitHub remote,
      `None` for any other. */
  function Page(remote: string): (r: Option<string>)
    ensures r.Some? <==> PageGroups(remote).Some?
    ensures r.Some? ==> r.value == "https://" + PageGroups(remote).value.0 + ".github.io/" + PageGroups(remote).value.1
  {
    match PageGroups(remote)
    case None => None
    case Some((user, project)) => Some("https://" + user + ".github.io/" + project)
  }

  /** `page` as a property: the error of `remote`, if any, escapes. */
  function PageOf(h: Host): (r: Result<Option<string>>)
    ensures Remote(h).Err? ==> r == Err(Remote(h).error)
    ensures Remote(h).Ok? ==> r == Ok(Page(Remote(h).value))
  {
    match Remote(h)
    case Err(e) => Err(e)
    case Ok(remote) => Ok(Page(remote))
  }

  /** A GitHub project URL becomes its Pages address. */
  lemma GithubPage(user: string, project: string)
    requires '/' !in user && '\n' !in user && '\n' !in project
    ensures Page("https://github.com/" + user + "/" + project) == Some("https://" + user + ".github.io/" + project)
  {
    var s := "https://github.com/" + user + "/" + project;
    var t := s[PrefixLen..];
    assert t == user + "/" + project;
    var i := FindFrom(t, '/', 0);
    assert t[|user|] == '/';
    assert forall j :: 0 <= j < |user| ==> t[j] == user[j];
    assert i == |user|;
    assert t[..i] == user;
    assert t[i + 1..] == project;
    assert s[..14] == "https://github" && s[14] == '.' && s[15..PrefixLen] == "com/";
  }

  /** With the repository in the environment and the default server, the
      page is the repository's Pages address. */
  lemma PageFromEnvironment(h: Host, user: string, project: string)
    requires "GITHUB_REPOSITORY" in h.env && Strip(h.env["GITHUB_REPOSITORY"]) == user + "/" + project
    requires !EnvSet(h.env, "GITHUB_SERVER_URL")
    requires '/' !in user && '\n' !in user && '\n' !in project
    ensures PageOf(h) == Ok(Some("https://" + user + ".github.io/" + project))
  {
    assert EnvSet(h.env, "GITHUB_REPOSITORY") by { assert (user + "/" + project)[|user|] == '/'; }
    assert EnvLookup(h.env, ["GITHUB_REPOSITORY"], None) == Some(user + "/" + project);
    assert ServerUrl(h.env) == "https://github.com";
    assert "https://github.com" + "/" + (user + "/" + project) == "https://github.com/" + user + "/" + project;
    assert Remote(h) == Ok("https://github.com/" + user + "/" + project);
    GithubPage(user, project);
  }

  /** Replacing a one-character pattern distributes over concatenation. */
  lemma {:induction false} ReplaceCharAppend(a: string, b: string, c: char, rep: string)
    ensures ReplaceAll(a + b, [c], rep) == ReplaceAll(a, [c], rep) + ReplaceAll(b, [c], rep)
    decreases |a|
  {
    if a == [] {
      assert a + b == b;
    } else {
      assert (a + b)[1..] == a[1..] + b;
      assert (a + b)[..1] == a[..1];
      ReplaceCharAppend(a[1..], b, c, rep);
    }
  }

  /** A pattern with a character the text lacks occurs nowhere in it. */
  lemma CharAbsent(s: string, pat: string, k: nat)
    requires k < |pat| && pat[k] !in s
    ensures forall i: nat :: !OccursAt(s, pat, i)
  {
    forall i: nat ensures !OccursAt(s, pat, i) {
      if i + |pat| <= |s| {
        assert s[i..i + |pat|][k] == s[i + k];
      }
    }
  }

  /** Dropping every `git@` from `git@<rest>` leaves `rest` when it has no
      `@`. */
  lemma GitAtRemoved(rest: string)
    requires '@' !in rest
    ensures ReplaceAll("git@" + rest, "git@", "") == rest
  {
    var s1 := "git@" + rest;
    assert s1[..4] == "git@" && s1[4..] == rest;
    CharAbsent(rest, "git@", 3);
    ReplaceAbsent(rest, "git@", "");
  }

  lemma LeadingColonReplaced(tail: string)
    requires ':' !in tail
    ensures ReplaceAll(":" + tail, ":", "/") == "/" + tail
  {
    var t := ":" + tail;
    assert t[..1] == ":" && t[1..] == tail;
    CharAbsent(tail, ":", 0);
    ReplaceAbsent(tail, ":", "/");
  }

  /** The one colon of `<host>:<tail>` becomes a slash. */
  lemma ColonJoined(host: string, tail: string)
    requires ':' !in host && ':' !in tail
    ensures ReplaceAll(host + (":" + tail), ":", "/") == host + ("/" + tail)
  {
    ReplaceCharAppend(host, ":" + tail, ':', "/");
    CharAbsent(host, ":", 0);
    ReplaceAbsent(host, ":", "/");
    LeadingColonReplaced(tail);
  }

  /** The one colon of `github.com:<tail>` becomes a slash. */
  lemma ColonReplaced(tail: string)
    requires ':' !in tail
    ensures ReplaceAll("github.com:" + tail, ":", "/") == "github.com/" + tail
  {
    var g := "github.com";
    assert g + (":" + tail) == "github.com:" + tail;
    assert g + ("/" + tail) == "github.com/" + tail;
    assert ':' !in g;
    ColonJoined(g, tail);
  }

  /** An SSH remote `git@<host>:<tail>.git` normalises to
      `https://<host>/<tail>`. */
  lemma SshNormal(host: string, tail: string)
    requires ':' !in host && '@' !in host && ':' !in tail && '@' !in tail
    requires tail != [] && tail[|tail| - 1] != '/'
    ensures NormalizeRemote("git@" + (host + (":" + tail)) + ".git") == "https://" + (host + ("/" + tail))
  {
    var rest := host + (":" + tail);
    var s1 := "git@" + rest;
    var s := s1 + ".git";
    assert EndsWith(s, ".git") && s[..|s| - 4] == s1;
    assert StartsWith(s1, "git@");
    GitAtRemoved(rest);
    ColonJoined(host, tail);
    var s2 := "https://" + (host + ("/" + tail));
    assert s2[|s2| - 1] == tail[|tail| - 1];
  }

  /** An SSH remote `git@github.com:<user>/<project>.git` normalises to the
      HTTPS URL of the project. */
  lemma SshRemote(user: string, project: string)
    requires ':' !in user && '@' !in user && ':' !in project && '@' !in project
    requires project != [] && project[|project| - 1] != '/'
    ensures NormalizeRemote("git@github.com:" + user + "/" + project + ".git") == "https://github.com/" + user + "/" + project
  {
    var tail := user + "/" + project;
    assert "git@github.com:" + user + "/" + project + ".git" == "git@" + ("github.com" + (":" + tail)) + ".git";
    assert "https://github.com/" + user + "/" + project == "https://" + ("github.com" + ("/" + tail));
    assert tail[|tail| - 1] == project[|project| - 1];
    SshNormal("github.com", tail);
  }

  /** With the repository only in git's `origin`, an SSH remote of a
      GitHub project gives the project's Pages address. */
  lemma PageFromSshOrigin(h: Host, user: string, project: string)
    requires !EnvSet(h.env, "GITHUB_REPOSITORY")
    requires Run(h, RemoteArgs) == Some("git@github.com:" + user + "/" + project + ".git")
    requires ':' !in user && '@' !in user && '/' !in user && '\n' !in user
    requires ':' !in project && '@' !in project && '\n' !in project
    requires project != [] && project[|project| - 1] != '/'
    ensures PageOf(h) == Ok(Some("https://" + user + ".github.io/" + project))
  {
    assert EnvLookup(h.env, ["GITHUB_REPOSITORY"], None).None?;
    SshRemote(user, project);
    GithubPage(user, project);
  }
}
