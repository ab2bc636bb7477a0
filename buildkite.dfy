/**
 * The Buildkite CI provider: detection by the presence of one environment
 * variable, and the mapping of Buildkite's variables to the canonical Env,
 * with the repository remote normalised to an `owner/path` identifier and a
 * browsable URL.
 */
module Buildkite {
  import opened CiEnv
  import opened RemoteSyntax

  /** The variable whose presence marks a Buildkite build. */
  const EnvKey := "BUILDKITE"
  /** The integration name a Buildkite Env reports. */
  const Integration := "buildkite"
  const RepoKey := "BUILDKITE_REPO"
  const CommitKey := "BUILDKITE_COMMIT"
  const BranchKey := "BUILDKITE_BRANCH"

  /** Code-hosting domains known to serve browsable repository pages over https. */
  const BrowsableHosts: set<string> := {"github.com", "gitlab.com"}

  /** Whether the environment is a Buildkite build: only the presence of EnvKey matters, not its value. */
  predicate Identify(vars: map<string, string>)
  {
    EnvKey in vars
  }

  /** The repository identifier: the path of a scheme URL or of a `user@host:path` remote without its ".git"; anything else verbatim. */
  function MapRepository(repository: string): string
  {
    match Parse(repository)
    case SchemeUrl(_, _, path) => TrimGitSuffix(path)
    case ScpLike(_, _, path) => TrimGitSuffix(path)
    case Unsupported(raw) => raw
  }

  /**
   * The browsable repository URL: a scheme URL loses only its ".git"; a
   * `user@host:path` remote on a browsable host becomes `https://host/path`
   * without ".git"; any other remote is returned unchanged.
   */
  function MapRepositoryUrl(repository: string): string
  {
    match Parse(repository)
    case SchemeUrl(scheme, host, path) => Format(SchemeUrl(scheme, host, TrimGitSuffix(path)))
    case ScpLike(_, host, path) =>
      if host in BrowsableHosts then Format(SchemeUrl("https", host, TrimGitSuffix(path))) else repository
    case Unsupported(_) => repository
  }

  /** Buildkite's variables as an Env. The commit author comes from the local git checkout and is a parameter here. */
  function Map(vars: map<string, string>, author: string): Env
  {
    var repo := Getenv(vars, RepoKey);
    Env(
      repository := MapRepository(repo),
      commit := Getenv(vars, CommitKey),
      branch := Getenv(vars, BranchKey),
      author := author,
      repositoryUrl := MapRepositoryUrl(repo),
      integration := Integration,
      filepath := "")
  }

  /** Map reads only the repository, commit and branch variables: environments that agree on them map alike. */
  lemma MapReadsOnlyItsVariables(vars: map<string, string>, other: map<string, string>, author: string)
    requires Getenv(vars, RepoKey) == Getenv(other, RepoKey)
    requires Getenv(vars, CommitKey) == Getenv(other, CommitKey)
    requires Getenv(vars, BranchKey) == Getenv(other, BranchKey)
    ensures Map(vars, author) == Map(other, author)
  {
  }

  /** With none of its variables set, Map reports only the author and the integration. */
  lemma MapWithoutVariables(vars: map<string, string>, author: string)
    requires RepoKey !in vars && CommitKey !in vars && BranchKey !in vars
    ensures Map(vars, author) == Env("", "", "", author, "", Integration, "")
  {
    assert Parse("") == Unsupported("");
  }

  /** Identify is false without EnvKey and true with EnvKey set to any value, whatever else is set. */
  lemma IdentifyIsPresence(vars: map<string, string>, value: string)
    ensures !Identify(vars - {EnvKey})
    ensures Identify(vars[EnvKey := value])
  {
  }

  /** On `scheme://host/path`, the identifier is the path without ".git" and the URL keeps scheme, host and path, without ".git". */
  lemma MapSchemeUrl(scheme: string, host: string, path: string)
    requires ':' !in scheme && '/' !in host
    ensures MapRepository(scheme + "://" + host + "/" + path) == TrimGitSuffix(path)
    ensures MapRepositoryUrl(scheme + "://" + host + "/" + path) == scheme + "://" + host + "/" + TrimGitSuffix(path)
  {
    ParseSchemeUrl(scheme, host, path);
  }

  /**
   * On `user@host:path`, the identifier is the path without ".git"; the URL is
   * `https://host/path` without ".git" when the host is browsable, and the input
   * itself when it is not.
   */
  lemma MapScpLike(user: string, host: string, path: string)
    requires WellFormed(ScpLike(user, host, path))
    ensures MapRepository(user + "@" + host + ":" + path) == TrimGitSuffix(path)
    ensures host in BrowsableHosts ==>
              MapRepositoryUrl(user + "@" + host + ":" + path) == "https://" + host + "/" + TrimGitSuffix(path)
    ensures host !in BrowsableHosts ==>
              MapRepositoryUrl(user + "@" + host + ":" + path) == user + "@" + host + ":" + path
  {
    ParseScpLikeFormat(user, host, path);
    if host in BrowsableHosts {
      var s := user + "@" + host + ":" + path;
      assert MapRepositoryUrl(s) == Format(SchemeUrl("https", host, TrimGitSuffix(path)));
      assert "https" + "://" == "https://";
    }
  }

  /** A `user@host:path` remote on a host that is not browsable comes back from MapRepositoryUrl byte for byte. */
  lemma UnbrowsableHostPassesThrough(repository: string)
    requires Parse(repository).ScpLike? && Parse(repository).host !in BrowsableHosts
    ensures MapRepositoryUrl(repository) == repository
  {
  }

  /** An unsupported remote comes back unchanged from both mappings. */
  lemma UnsupportedPassesThrough(repository: string)
    requires Parse(repository).Unsupported?
    ensures MapRepository(repository) == repository
    ensures MapRepositoryUrl(repository) == repository
  {
  }

  /**
   * Every identifier is the input with a prefix (the scheme and host, or the
   * user and host, absent only for an unsupported remote) and at most a
   * trailing ".git" removed.
   */
  lemma {:induction false} MapRepositoryTrimsAffixes(repository: string) returns (prefix: string, suffix: string)
    ensures repository == prefix + MapRepository(repository) + suffix
    ensures prefix == "" <==> Parse(repository).Unsupported?
    ensures suffix == ".git" || suffix == ""
    ensures suffix == ".git" <==> !Parse(repository).Unsupported? && HasGitSuffix(repository)
  {
    FormatParse(repository);
    match Parse(repository)
    case SchemeUrl(scheme, host, path) =>
      prefix := scheme + "://" + host + "/";
      assert repository == prefix + path;
      suffix := TrimmedAffix(prefix, path, '/');
    case ScpLike(user, host, path) =>
      prefix := user + "@" + host + ":";
      assert repository == prefix + path;
      suffix := TrimmedAffix(prefix, path, ':');
    case Unsupported(raw) =>
      prefix, suffix := "", "";
  }

  /** The suffix TrimGitSuffix removes from `path`, when `prefix + path` is split at a separator ".git" does not contain. */
  lemma TrimmedAffix(prefix: string, path: string, separator: char) returns (suffix: string)
    requires |prefix| > 0 && prefix[|prefix| - 1] == separator && separator !in ".git"
    ensures prefix + path == prefix + TrimGitSuffix(path) + suffix
    ensures suffix == ".git" || suffix == ""
    ensures suffix == ".git" <==> HasGitSuffix(prefix + path)
  {
    SuffixOfTail(prefix, path, separator);
    suffix := if HasGitSuffix(path) then ".git" else "";
    assert TrimGitSuffix(path) + suffix == path;
    assert prefix + TrimGitSuffix(path) + suffix == prefix + (TrimGitSuffix(path) + suffix);
  }

  /** When the prefix ends in a character that ".git" does not contain, the whole string ends in ".git" exactly when its tail does. */
  lemma SuffixOfTail(prefix: string, tail: string, separator: char)
    requires |prefix| > 0 && prefix[|prefix| - 1] == separator && separator !in ".git"
    ensures HasGitSuffix(prefix + tail) <==> HasGitSuffix(tail)
  {
    var s := prefix + tail;
    if |tail| >= 4 {
      assert s[|s| - 4..] == tail[|tail| - 4..];
    } else if |s| >= 4 {
      var k := |s| - 1 - |tail|;
      assert s[k] == separator;
      assert s[|s| - 4..][3 - |tail|] == s[k];
    }
  }

  /** Parse reads `Format(r)` back as `r` (ParseFormat, phrased for a remote written out literally). */
  lemma ParsesAs(s: string, r: Remote)
    requires WellFormed(r) && Format(r) == s
    ensures Parse(s) == r
  {
    ParseFormat(r);
  }
}
