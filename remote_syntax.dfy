/**
 * The two version-control remote syntaxes a CI provider reports, split into
 * their parts: `scheme://host/path` and the colon-separated `user@host:path`.
 * Anything else is an unsupported remote and is carried verbatim.
 */
module RemoteSyntax {
  import opened Wrappers

  /** The pattern `pat` occurs in `s` starting at index `k`. */
  predicate OccursAt(s: string, pat: string, k: nat)
  {
    k + |pat| <= |s| && s[k..k + |pat|] == pat
  }

  /** The first index at or after `from` where `pat` occurs in `s` (Go's `strings.Index`, shifted by `from`). */
  function IndexOf(s: string, pat: string, from: nat): (r: Option<nat>)
    ensures r.Some? ==> from <= r.value && OccursAt(s, pat, r.value)
    ensures r.Some? ==> forall k :: from <= k < r.value ==> !OccursAt(s, pat, k)
    ensures r.None? ==> forall k :: from <= k ==> !OccursAt(s, pat, k)
    decreases |s| - from
  {
    if |s| < from + |pat| then None
    else if OccursAt(s, pat, from) then Some(from)
    else IndexOf(s, pat, from + 1)
  }

  /** A remote string, split into the parts of the syntax it is written in. */
  datatype Remote =
    | SchemeUrl(scheme: string, host: string, path: string)  // scheme://host/path
    | ScpLike(user: string, host: string, path: string)      // user@host:path
    | Unsupported(raw: string)

  /** The remote string a Remote stands for. */
  function Format(r: Remote): string
  {
    match r
    case SchemeUrl(scheme, host, path) => scheme + "://" + host + "/" + path
    case ScpLike(user, host, path) => user + "@" + host + ":" + path
    case Unsupported(raw) => raw
  }

  /**
   * Splits a remote string: at its first "://" and the first "/" after it when
   * both exist, otherwise at its first "@" and the first ":" after it when both
   * exist; otherwise it is unsupported.
   */
  function Parse(s: string): Remote
  {
    match IndexOf(s, "://", 0)
    case Some(i) =>
      var rest := s[i + 3..];
      (match IndexOf(rest, "/", 0)
       case Some(j) => SchemeUrl(s[..i], rest[..j], rest[j + 1..])
       case None => ParseScpLike(s))
    case None => ParseScpLike(s)
  }

  /** The `user@host:path` half of Parse. */
  function ParseScpLike(s: string): Remote
  {
    match IndexOf(s, "@", 0)
    case Some(a) =>
      var rest := s[a + 1..];
      (match IndexOf(rest, ":", 0)
       case Some(c) => ScpLike(s[..a], rest[..c], rest[c + 1..])
       case None => Unsupported(s))
    case None => Unsupported(s)
  }

  /** An occurrence of `pat` splits `s` into what comes before it, `pat` and what comes after. */
  lemma SplitAt(s: string, pat: string, i: nat)
    requires OccursAt(s, pat, i)
    ensures s == s[..i] + pat + s[i + |pat|..]
  {
    assert s == s[..i] + s[i..i + |pat|] + s[i + |pat|..];
  }

  /** Splitting at two separators and joining again gives back the string. */
  lemma JoinSplits(s: string, sep1: string, i: nat, sep2: string, j: nat)
    requires OccursAt(s, sep1, i) && OccursAt(s[i + |sep1|..], sep2, j)
    ensures s == s[..i] + sep1 + s[i + |sep1|..][..j] + sep2 + s[i + |sep1|..][j + |sep2|..]
  {
    var rest := s[i + |sep1|..];
    SplitAt(s, sep1, i);
    SplitAt(rest, sep2, j);
    assert s == s[..i] + sep1 + (rest[..j] + sep2 + rest[j + |sep2|..]);
  }

  /** Parse loses nothing: formatting its result gives back the input. */
  lemma {:induction false} FormatParse(s: string)
    ensures Format(Parse(s)) == s
  {
    match IndexOf(s, "://", 0) {
      case Some(i) =>
        match IndexOf(s[i + 3..], "/", 0) {
          case Some(j) =>
            var rest := s[i + 3..];
            assert Parse(s) == SchemeUrl(s[..i], rest[..j], rest[j + 1..]);
            JoinSplits(s, "://", i, "/", j);
          case None =>
            assert Parse(s) == ParseScpLike(s);
            FormatParseScpLike(s);
        }
      case None =>
        assert Parse(s) == ParseScpLike(s);
        FormatParseScpLike(s);
    }
  }

  /** ParseScpLike loses nothing either. */
  lemma {:induction false} FormatParseScpLike(s: string)
    ensures Format(ParseScpLike(s)) == s
  {
    match IndexOf(s, "@", 0) {
      case Some(a) =>
        match IndexOf(s[a + 1..], ":", 0) {
          case Some(c) => JoinSplits(s, "@", a, ":", c);
          case None =>
        }
      case None =>
    }
  }

  /**
   * Remotes that Parse is sure to give back unchanged from their own Format (a
   * sufficient condition, not a characterisation): a scheme without ':' and a
   * host without '/'; a user without ':' or '@', a host without ':', and a path
   * that neither starts with "//" nor contains "://"; an unsupported string
   * with neither ':' nor '@'.
   */
  predicate WellFormed(r: Remote)
  {
    match r
    case SchemeUrl(scheme, host, _) => ':' !in scheme && '/' !in host
    case ScpLike(user, host, path) =>
      ':' !in user && '@' !in user && ':' !in host && !StartsWithDoubleSlash(path) && IndexOf(path, "://", 0).None?
    case Unsupported(raw) => ':' !in raw && '@' !in raw
  }

  /** The string starts with "//". */
  predicate StartsWithDoubleSlash(s: string)
  {
    |s| >= 2 && s[0] == '/' && s[1] == '/'
  }

  /** Parse inverts Format on well-formed remotes. */
  lemma {:induction false} ParseFormat(r: Remote)
    requires WellFormed(r)
    ensures Parse(Format(r)) == r
  {
    match r
    case SchemeUrl(scheme, host, path) => ParseSchemeUrl(scheme, host, path);
    case ScpLike(user, host, path) => ParseScpLikeFormat(user, host, path);
    case Unsupported(raw) =>
      Absent(raw, "://");
      Absent(raw, "@");
  }

  /** Parse reads `scheme://host/path` back as its three parts. */
  lemma ParseSchemeUrl(scheme: string, host: string, path: string)
    requires ':' !in scheme && '/' !in host
    ensures Parse(scheme + "://" + host + "/" + path) == SchemeUrl(scheme, host, path)
  {
    var s := scheme + "://" + host + "/" + path;
    FindSeparators(scheme, "://", host, "/", path);
    var rest := s[|scheme| + 3..];
    assert Parse(s) == SchemeUrl(s[..|scheme|], rest[..|host|], rest[|host| + 1..]);
  }

  /** Parse reads a well-formed `user@host:path` back as its three parts. */
  lemma ParseScpLikeFormat(user: string, host: string, path: string)
    requires WellFormed(ScpLike(user, host, path))
    ensures Parse(user + "@" + host + ":" + path) == ScpLike(user, host, path)
  {
    var s := user + "@" + host + ":" + path;
    NoSchemeSeparator(user, host, path);
    assert Parse(s) == ParseScpLike(s);
    FindSeparators(user, "@", host, ":", path);
    var rest := s[|user| + 1..];
    assert ParseScpLike(s) == ScpLike(s[..|user|], rest[..|host|], rest[|host| + 1..]);
  }

  /**
   * In `x + sep1 + y + sep2 + z`, where `x` lacks the first character of `sep1`
   * and `y` that of `sep2`, the first `sep1` follows `x`, the first `sep2`
   * after it follows `y`, and the pieces between them are `x`, `y` and `z`.
   */
  lemma FindSeparators(x: string, sep1: string, y: string, sep2: string, z: string)
    requires |sep1| > 0 && sep1[0] !in x && |sep2| > 0 && sep2[0] !in y
    ensures var s := x + sep1 + y + sep2 + z;
      && IndexOf(s, sep1, 0) == Some(|x|)
      && IndexOf(s[|x| + |sep1|..], sep2, 0) == Some(|y|)
      && s[..|x|] == x
      && s[|x| + |sep1|..][..|y|] == y
      && s[|x| + |sep1|..][|y| + |sep2|..] == z
  {
    var s := x + sep1 + y + sep2 + z;
    var rest := y + sep2 + z;
    assert s == x + sep1 + rest;
    FirstOccurrence(x, sep1, rest);
    assert s[|x| + |sep1|..] == rest;
    FirstOccurrence(y, sep2, z);
    assert s[..|x|] == x;
    assert rest[..|y|] == y;
    assert rest[|y| + |sep2|..] == z;
  }

  /** When the first character of `pat` is not in `x`, the first occurrence of `pat` in `x + pat + y` is right after `x`. */
  lemma FirstOccurrence(x: string, pat: string, y: string)
    requires |pat| > 0 && pat[0] !in x
    ensures IndexOf(x + pat + y, pat, 0) == Some(|x|)
  {
    var s := x + pat + y;
    assert s[|x|..|x| + |pat|] == pat;
    assert OccursAt(s, pat, |x|);
    forall k | 0 <= k < |x|
      ensures !OccursAt(s, pat, k)
    {
      assert s[k] == x[k] != pat[0];
      if k + |pat| <= |s| {
        assert s[k..k + |pat|][0] == s[k];
      }
    }
  }

  /** A pattern whose first character is not in `s` does not occur in `s`. */
  lemma Absent(s: string, pat: string)
    requires |pat| > 0 && pat[0] !in s
    ensures IndexOf(s, pat, 0) == None
  {
    forall k: nat | k + |pat| <= |s|
      ensures !OccursAt(s, pat, k)
    {
      assert s[k..k + |pat|][0] == s[k] != pat[0];
    }
  }

  /** A well-formed `user@host:path` string holds no "://", so Parse does not read it as a scheme URL. */
  lemma NoSchemeSeparator(user: string, host: string, path: string)
    requires ':' !in user && ':' !in host && !StartsWithDoubleSlash(path) && IndexOf(path, "://", 0).None?
    ensures IndexOf(user + "@" + host + ":" + path, "://", 0) == None
  {
    ColonNotBeforeSlash(user + "@" + host, path);
  }

  /**
   * `x + ":" + y` holds no "://" when `x` holds no ':', `y` does not start with
   * "//" and `y` holds no "://" itself.
   */
  lemma ColonNotBeforeSlash(x: string, y: string)
    requires ':' !in x && !StartsWithDoubleSlash(y) && IndexOf(y, "://", 0).None?
    ensures IndexOf(x + ":" + y, "://", 0) == None
  {
    var s := x + ":" + y;
    forall k: nat | k + 3 <= |s|
      ensures !OccursAt(s, "://", k)
    {
      assert s[k..k + 3][0] == s[k] && s[k..k + 3][1] == s[k + 1] && s[k..k + 3][2] == s[k + 2];
      if k < |x| {
        assert s[k] == x[k];
      } else if k == |x| {
        assert s[k + 1] == y[0] && s[k + 2] == y[1];
      } else {
        assert s[k..k + 3] == y[k - |x| - 1..k - |x| + 2];
        assert !OccursAt(y, "://", k - |x| - 1);
      }
    }
  }

  /** The path ends in ".git". */
  predicate HasGitSuffix(p: string)
  {
    |p| >= 4 && p[|p| - 4..] == ".git"
  }

  /** Removes one trailing ".git" (Go's `strings.TrimSuffix(p, ".git")`). */
  function TrimGitSuffix(p: string): (q: string)
    ensures HasGitSuffix(p) ==> q + ".git" == p
    ensures !HasGitSuffix(p) ==> q == p
  {
    if HasGitSuffix(p) then p[..|p| - 4] else p
  }
}
