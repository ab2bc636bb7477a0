/**
 * The behaviour the Buildkite provider's tests assert, each asserted case as a
 * lemma about the model. The facts about individual literal strings (how a
 * remote is written out, that its parts are well formed) are kept in lemmas
 * of their own, so that each proof only evaluates what it needs.
 */
module BuildkiteTest {
  import opened RemoteSyntax
  import opened Buildkite

  // The tests' remotes: written out from their parts, and split back by Parse.
  lemma HttpsGithubFormats()
    ensures Format(SchemeUrl("https", "github.com", "debricked/cli.git")) == "https://github.com/debricked/cli.git"
  {
    assert "https" + "://" == "https://";
    assert "https://" + "github.com" == "https://github.com";
    assert "https://github.com" + "/" == "https://github.com/";
    assert "https://github.com/" + "debricked/cli.git" == "https://github.com/debricked/cli.git";
  }

  lemma HttpsGithubWellFormed()
    ensures WellFormed(SchemeUrl("https", "github.com", "debricked/cli.git"))
  {
  }

  lemma HttpsGithubSplits()
    ensures Parse("https://github.com/debricked/cli.git") == SchemeUrl("https", "github.com", "debricked/cli.git")
  {
    HttpsGithubFormats();
    HttpsGithubWellFormed();
    ParsesAs("https://github.com/debricked/cli.git", SchemeUrl("https", "github.com", "debricked/cli.git"));
  }

  lemma HttpGitlabFormats()
    ensures Format(SchemeUrl("http", "gitlab.com", "debricked/cli.git")) == "http://gitlab.com/debricked/cli.git"
  {
    assert "http" + "://" == "http://";
    assert "http://" + "gitlab.com" == "http://gitlab.com";
    assert "http://gitlab.com" + "/" == "http://gitlab.com/";
    assert "http://gitlab.com/" + "debricked/cli.git" == "http://gitlab.com/debricked/cli.git";
  }

  lemma HttpGitlabWellFormed()
    ensures WellFormed(SchemeUrl("http", "gitlab.com", "debricked/cli.git"))
  {
  }

  lemma HttpGitlabSplits()
    ensures Parse("http://gitlab.com/debricked/cli.git") == SchemeUrl("http", "gitlab.com", "debricked/cli.git")
  {
    HttpGitlabFormats();
    HttpGitlabWellFormed();
    ParsesAs("http://gitlab.com/debricked/cli.git", SchemeUrl("http", "gitlab.com", "debricked/cli.git"));
  }

  lemma HttpScmFormats()
    ensures Format(SchemeUrl("http", "scm.com", "debricked/cli.git")) == "http://scm.com/debricked/cli.git"
  {
    assert "http" + "://" == "http://";
    assert "http://" + "scm.com" == "http://scm.com";
    assert "http://scm.com" + "/" == "http://scm.com/";
    assert "http://scm.com/" + "debricked/cli.git" == "http://scm.com/debricked/cli.git";
  }

  lemma HttpScmWellFormed()
    ensures WellFormed(SchemeUrl("http", "scm.com", "debricked/cli.git"))
  {
  }

  lemma HttpScmSplits()
    ensures Parse("http://scm.com/debricked/cli.git") == SchemeUrl("http", "scm.com", "debricked/cli.git")
  {
    HttpScmFormats();
    HttpScmWellFormed();
    ParsesAs("http://scm.com/debricked/cli.git", SchemeUrl("http", "scm.com", "debricked/cli.git"));
  }

  lemma HttpGitlabNestedFormats()
    ensures Format(SchemeUrl("http", "gitlab.com", "debricked/sub/cli.git")) == "http://gitlab.com/debricked/sub/cli.git"
  {
    assert "http" + "://" == "http://";
    assert "http://" + "gitlab.com" == "http://gitlab.com";
    assert "http://gitlab.com" + "/" == "http://gitlab.com/";
    assert "http://gitlab.com/" + "debricked/sub/cli.git" == "http://gitlab.com/debricked/sub/cli.git";
  }

  lemma HttpGitlabNestedWellFormed()
    ensures WellFormed(SchemeUrl("http", "gitlab.com", "debricked/sub/cli.git"))
  {
  }

  lemma HttpGitlabNestedSplits()
    ensures Parse("http://gitlab.com/debricked/sub/cli.git") == SchemeUrl("http", "gitlab.com", "debricked/sub/cli.git")
  {
    HttpGitlabNestedFormats();
    HttpGitlabNestedWellFormed();
    ParsesAs("http://gitlab.com/debricked/sub/cli.git", SchemeUrl("http", "gitlab.com", "debricked/sub/cli.git"));
  }

  lemma GitGithubFormats()
    ensures Format(ScpLike("git", "github.com", "debricked/cli.git")) == "git@github.com:debricked/cli.git"
  {
    assert "git" + "@" == "git@";
    assert "git@" + "github.com" == "git@github.com";
    assert "git@github.com" + ":" == "git@github.com:";
    assert "git@github.com:" + "debricked/cli.git" == "git@github.com:debricked/cli.git";
  }

  lemma GitGithubWellFormed()
    ensures WellFormed(ScpLike("git", "github.com", "debricked/cli.git"))
  {
    Absent("debricked/cli.git", "://");
  }

  lemma GitGithubSplits()
    ensures Parse("git@github.com:debricked/cli.git") == ScpLike("git", "github.com", "debricked/cli.git")
  {
    GitGithubFormats();
    GitGithubWellFormed();
    ParsesAs("git@github.com:debricked/cli.git", ScpLike("git", "github.com", "debricked/cli.git"));
  }

  lemma GitGitlabFormats()
    ensures Format(ScpLike("git", "gitlab.com", "debricked/cli.git")) == "git@gitlab.com:debricked/cli.git"
  {
    assert "git" + "@" == "git@";
    assert "git@" + "gitlab.com" == "git@gitlab.com";
    assert "git@gitlab.com" + ":" == "git@gitlab.com:";
    assert "git@gitlab.com:" + "debricked/cli.git" == "git@gitlab.com:debricked/cli.git";
  }

  lemma GitGitlabWellFormed()
    ensures WellFormed(ScpLike("git", "gitlab.com", "debricked/cli.git"))
  {
    Absent("debricked/cli.git", "://");
  }

  lemma GitGitlabSplits()
    ensures Parse("git@gitlab.com:debricked/cli.git") == ScpLike("git", "gitlab.com", "debricked/cli.git")
  {
    GitGitlabFormats();
    GitGitlabWellFormed();
    ParsesAs("git@gitlab.com:debricked/cli.git", ScpLike("git", "gitlab.com", "debricked/cli.git"));
  }

  lemma TcpScmFormats()
    ensures Format(ScpLike("tcp", "scm.com", "debricked/cli.git")) == "tcp@scm.com:debricked/cli.git"
  {
    assert "tcp" + "@" == "tcp@";
    assert "tcp@" + "scm.com" == "tcp@scm.com";
    assert "tcp@scm.com" + ":" == "tcp@scm.com:";
    assert "tcp@scm.com:" + "debricked/cli.git" == "tcp@scm.com:debricked/cli.git";
  }

  lemma TcpScmWellFormed()
    ensures WellFormed(ScpLike("tcp", "scm.com", "debricked/cli.git"))
  {
    Absent("debricked/cli.git", "://");
  }

  lemma TcpScmSplits()
    ensures Parse("tcp@scm.com:debricked/cli.git") == ScpLike("tcp", "scm.com", "debricked/cli.git")
  {
    TcpScmFormats();
    TcpScmWellFormed();
    ParsesAs("tcp@scm.com:debricked/cli.git", ScpLike("tcp", "scm.com", "debricked/cli.git"));
  }

  lemma TcpScmNestedFormats()
    ensures Format(ScpLike("tcp", "scm.com", "debricked/sub/cli.git")) == "tcp@scm.com:debricked/sub/cli.git"
  {
    assert "tcp" + "@" == "tcp@";
    assert "tcp@" + "scm.com" == "tcp@scm.com";
    assert "tcp@scm.com" + ":" == "tcp@scm.com:";
    assert "tcp@scm.com:" + "debricked/sub/cli.git" == "tcp@scm.com:debricked/sub/cli.git";
  }

  lemma TcpScmNestedWellFormed()
    ensures WellFormed(ScpLike("tcp", "scm.com", "debricked/sub/cli.git"))
  {
    Absent("debricked/sub/cli.git", "://");
  }

  lemma TcpScmNestedSplits()
    ensures Parse("tcp@scm.com:debricked/sub/cli.git") == ScpLike("tcp", "scm.com", "debricked/sub/cli.git")
  {
    TcpScmNestedFormats();
    TcpScmNestedWellFormed();
    ParsesAs("tcp@scm.com:debricked/sub/cli.git", ScpLike("tcp", "scm.com", "debricked/sub/cli.git"));
  }

  lemma TrimsGitSuffix()
    ensures TrimGitSuffix("debricked/cli.git") == "debricked/cli"
    ensures TrimGitSuffix("debricked/sub/cli.git") == "debricked/sub/cli"
  {
  }

  // The browsable URLs the tests expect, written out from their parts.

  lemma HttpsGithubUrlFormats()
    ensures Format(SchemeUrl("https", "github.com", "debricked/cli")) == "https://github.com/debricked/cli"
  {
    assert "https" + "://" == "https://";
    assert "https://" + "github.com" == "https://github.com";
    assert "https://github.com" + "/" == "https://github.com/";
    assert "https://github.com/" + "debricked/cli" == "https://github.com/debricked/cli";
  }

  lemma HttpGitlabUrlFormats()
    ensures Format(SchemeUrl("http", "gitlab.com", "debricked/cli")) == "http://gitlab.com/debricked/cli"
  {
    assert "http" + "://" == "http://";
    assert "http://" + "gitlab.com" == "http://gitlab.com";
    assert "http://gitlab.com" + "/" == "http://gitlab.com/";
    assert "http://gitlab.com/" + "debricked/cli" == "http://gitlab.com/debricked/cli";
  }

  lemma HttpGitlabNestedUrlFormats()
    ensures Format(SchemeUrl("http", "gitlab.com", "debricked/sub/cli")) == "http://gitlab.com/debricked/sub/cli"
  {
    assert "http" + "://" == "http://";
    assert "http://" + "gitlab.com" == "http://gitlab.com";
    assert "http://gitlab.com" + "/" == "http://gitlab.com/";
    assert "http://gitlab.com/" + "debricked/sub/cli" == "http://gitlab.com/debricked/sub/cli";
  }

  lemma HttpsGitlabUrlFormats()
    ensures Format(SchemeUrl("https", "gitlab.com", "debricked/cli")) == "https://gitlab.com/debricked/cli"
  {
    assert "https" + "://" == "https://";
    assert "https://" + "gitlab.com" == "https://gitlab.com";
    assert "https://gitlab.com" + "/" == "https://gitlab.com/";
    assert "https://gitlab.com/" + "debricked/cli" == "https://gitlab.com/debricked/cli";
  }

  // The cases TestMapRepositoryHttp asserts.

  lemma RepositoryOfHttpsGithub()
    ensures MapRepository("https://github.com/debricked/cli.git") == "debricked/cli"
  {
    HttpsGithubSplits(); TrimsGitSuffix();
  }

  lemma RepositoryOfHttpGitlab()
    ensures MapRepository("http://gitlab.com/debricked/cli.git") == "debricked/cli"
  {
    HttpGitlabSplits(); TrimsGitSuffix();
  }

  lemma RepositoryOfHttpScm()
    ensures MapRepository("http://scm.com/debricked/cli.git") == "debricked/cli"
  {
    HttpScmSplits(); TrimsGitSuffix();
  }

  // The cases TestMapRepositoryMisc asserts.

  lemma RepositoryOfGitGithub()
    ensures MapRepository("git@github.com:debricked/cli.git") == "debricked/cli"
  {
    GitGithubSplits(); TrimsGitSuffix();
  }

  lemma RepositoryOfGitGitlab()
    ensures MapRepository("git@gitlab.com:debricked/cli.git") == "debricked/cli"
  {
    GitGitlabSplits(); TrimsGitSuffix();
  }

  lemma RepositoryOfTcpScm()
    ensures MapRepository("tcp@scm.com:debricked/cli.git") == "debricked/cli"
  {
    TcpScmSplits(); TrimsGitSuffix();
  }

  lemma RepositoryOfTcpScmNested()
    ensures MapRepository("tcp@scm.com:debricked/sub/cli.git") == "debricked/sub/cli"
  {
    TcpScmNestedSplits(); TrimsGitSuffix();
  }

  // The cases TestMapRepositoryUrlHttp asserts.

  lemma UrlOfHttpsGithub()
    ensures MapRepositoryUrl("https://github.com/debricked/cli.git") == "https://github.com/debricked/cli"
  {
    HttpsGithubSplits(); TrimsGitSuffix(); HttpsGithubUrlFormats();
  }

  lemma UrlOfHttpGitlab()
    ensures MapRepositoryUrl("http://gitlab.com/debricked/cli.git") == "http://gitlab.com/debricked/cli"
  {
    HttpGitlabSplits(); TrimsGitSuffix(); HttpGitlabUrlFormats();
  }

  lemma UrlOfHttpGitlabNested()
    ensures MapRepositoryUrl("http://gitlab.com/debricked/sub/cli.git") == "http://gitlab.com/debricked/sub/cli"
  {
    HttpGitlabNestedSplits(); TrimsGitSuffix(); HttpGitlabNestedUrlFormats();
  }

  // The cases TestMapRepositoryUrlGit asserts.

  lemma UrlOfGitGithub()
    ensures MapRepositoryUrl("git@github.com:debricked/cli.git") == "https://github.com/debricked/cli"
  {
    GitGithubSplits(); TrimsGitSuffix(); HttpsGithubUrlFormats();
  }

  lemma UrlOfGitGitlab()
    ensures MapRepositoryUrl("git@gitlab.com:debricked/cli.git") == "https://gitlab.com/debricked/cli"
  {
    GitGitlabSplits(); TrimsGitSuffix(); HttpsGitlabUrlFormats();
  }

  lemma UrlOfTcpScmUnchanged()
    ensures MapRepositoryUrl("tcp@scm.com:debricked/sub/cli.git") == "tcp@scm.com:debricked/sub/cli.git"
  {
    TcpScmNestedSplits(); ScmIsNotBrowsable();
  }

  lemma ScmIsNotBrowsable()
    ensures "scm.com" !in BrowsableHosts
  {
  }

  /** The Buildkite environment of TestParse. */
  const TestEnv: map<string, string> := map[
    "BUILDKITE" := "buildkite",
    "BUILDKITE_COMMIT" := "commit",
    "BUILDKITE_BRANCH" := "main",
    "BUILDKITE_REPO" := "https://github.com/debricked/cli.git"]

  // What assertEnv checks of Map on TestParse's environment (the author aside).
  lemma MapTestEnv(author: string)
    ensures Identify(TestEnv)
    ensures Map(TestEnv, author).filepath == ""
    ensures Map(TestEnv, author).integration == Integration
    ensures Map(TestEnv, author).branch == "main"
    ensures Map(TestEnv, author).repositoryUrl == "https://github.com/debricked/cli"
    ensures Map(TestEnv, author).commit == "commit"
    ensures Map(TestEnv, author).repository == "debricked/cli"
  {
    RepositoryOfHttpsGithub();
    UrlOfHttpsGithub();
  }
}
