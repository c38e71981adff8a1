/** Shared helpers over git-derived text: branch refs, the repository slug in a
    remote URL, and the parent list of a merge commit. The git commands
    themselves are not modelled; their (trimmed) standard output is an input. */
module Git {

  datatype Option<T> = None | Some(value: T)

  const HEADS_PREFIX := "refs/heads/"

  /** A branch name with a leading `refs/heads/` removed; any other name,
      including "", passes through unchanged. */
  function StripHeadsRef(branch: string): (name: string)
    ensures HEADS_PREFIX <= branch ==> HEADS_PREFIX + name == branch
    ensures !(HEADS_PREFIX <= branch) ==> name == branch
  {
    if HEADS_PREFIX <= branch then branch[|HEADS_PREFIX|..] else branch
  }

  /** Stripping undoes qualifying a branch name as a `refs/heads/` ref. */
  lemma StripHeadsRefOfRef(name: string)
    ensures StripHeadsRef(HEADS_PREFIX + name) == name
  {
  }

  // ----- splitting on a separator -----

  /** The pieces of `s` between the occurrences of `sep`, in order; a string
      with k separators has k + 1 pieces, none of which contains `sep`. */
  function Split(s: string, sep: char): (pieces: seq<string>)
    ensures |pieces| >= 1
    ensures forall i :: 0 <= i < |pieces| ==> sep !in pieces[i]
    ensures sep !in s ==> pieces == [s]
  {
    if s == [] then [[]]
    else if s[0] == sep then [[]] + Split(s[1..], sep)
    else
      var rest := Split(s[1..], sep);
      assert s == [s[0]] + s[1..];
      [[s[0]] + rest[0]] + rest[1..]
  }

  /** The pieces glued back together with one `sep` between neighbours. */
  function Join(pieces: seq<string>, sep: char): (s: string)
    requires |pieces| >= 1
    ensures |pieces| == 1 ==> s == pieces[0]
  {
    if |pieces| == 1 then pieces[0] else pieces[0] + [sep] + Join(pieces[1..], sep)
  }

  /** Splitting after a separator-free first piece yields that piece first. */
  lemma {:induction false} SplitAfterPiece(a: string, b: string, sep: char)
    requires sep !in a
    ensures Split(a + [sep] + b, sep) == [a] + Split(b, sep)
  {
    if a == [] {
      assert a + [sep] + b == [sep] + b;
    } else {
      var s := a + [sep] + b;
      SplitAfterPiece(a[1..], b, sep);
      assert s[0] == a[0] != sep;
      assert s[1..] == a[1..] + [sep] + b;
      assert [a[0]] + a[1..] == a;
    }
  }

  /** Split is the inverse of Join on separator-free pieces. */
  lemma {:induction false} SplitJoin(pieces: seq<string>, sep: char)
    requires |pieces| >= 1
    requires forall i :: 0 <= i < |pieces| ==> sep !in pieces[i]
    ensures Split(Join(pieces, sep), sep) == pieces
  {
    if |pieces| > 1 {
      SplitJoin(pieces[1..], sep);
      SplitAfterPiece(pieces[0], Join(pieces[1..], sep), sep);
      assert [pieces[0]] + pieces[1..] == pieces;
    }
  }

  // ----- repository slug from the remote URL -----

  /** What follows the scheme of an `https://` or `http://` URL. */
  function AfterHttpScheme(url: string): (rest: Option<string>)
    ensures rest.Some? ==> url == "https://" + rest.value || url == "http://" + rest.value
    ensures rest.None? ==> !("https://" <= url) && !("http://" <= url)
  {
    if "https://" <= url then Some(url[|"https://"|..])
    else if "http://" <= url then Some(url[|"http://"|..])
    else None
  }

  /** `s` without one trailing `.git`, if it has one. */
  function DropGitSuffix(s: string): (r: string)
    ensures r + ".git" == s || r == s
    ensures forall t :: s == t + ".git" ==> r == t
  {
    if |s| >= 4 && s[|s| - 4..] == ".git" then s[..|s| - 4] else s
  }

  /** The `org/repo` slug of a `host/org/repo` path; "" for any other shape. */
  function SlugFromPath(path: string): (slug: string)
    ensures slug != "" ==> '/' in slug
  {
    var pieces := Split(path, '/');
    if |pieces| == 3 && pieces[1] != "" && pieces[2] != "" then pieces[1] + "/" + pieces[2] else ""
  }

  /** The `org/repo` slug of a remote URL of the form
      `http(s)://host/org/repo[.git]`; the empty output of a failed or
      absent `git config --get remote.origin.url`, and every other form,
      give "". */
  function SlugFromRemoteURL(url: string): (slug: string)
    ensures url == "" ==> slug == ""
    ensures slug != "" ==> AfterHttpScheme(url).Some? && '/' in slug
  {
    match AfterHttpScheme(url)
    case None => ""
    case Some(rest) => SlugFromPath(DropGitSuffix(rest))
  }

  /** The path `host/org/repo` gives the slug `org/repo`. */
  lemma SlugOfPath(host: string, org: string, repo: string)
    requires '/' !in host && '/' !in org && '/' !in repo
    requires org != "" && repo != ""
    ensures SlugFromPath(host + "/" + org + "/" + repo) == org + "/" + repo
  {
    var tail := org + ['/'] + repo;
    SplitAfterPiece(org, repo, '/');
    assert Split(tail, '/') == [org, repo];
    SplitAfterPiece(host, tail, '/');
    assert host + "/" + org + "/" + repo == host + ['/'] + tail;
  }

  /** An HTTPS remote `https://host/org/repo.git` gives the slug `org/repo`. */
  lemma SlugOfHttpsRemote(host: string, org: string, repo: string)
    requires '/' !in host && '/' !in org && '/' !in repo
    requires org != "" && repo != ""
    ensures SlugFromRemoteURL("https://" + host + "/" + org + "/" + repo + ".git") == org + "/" + repo
  {
    var path := host + "/" + org + "/" + repo;
    assert "https://" + host + "/" + org + "/" + repo + ".git" == "https://" + (path + ".git");
    assert AfterHttpScheme("https://" + (path + ".git")) == Some(path + ".git");
    SlugOfPath(host, org, repo);
  }

  /** The recorded remote `https://github.com/testOrg/testRepo.git` gives the
      slug `testOrg/testRepo`. (The URL is assembled from variables so that its
      literal is not unfolded character by character.) */
  lemma RecordedRemoteSlug(host: string, org: string, repo: string)
    requires host == "github.com" && org == "testOrg" && repo == "testRepo"
    ensures SlugFromRemoteURL("https://" + host + "/" + org + "/" + repo + ".git") == "testOrg/testRepo"
  {
    RecordedRemotePieces(host, org, repo);
    SlugOfHttpsRemote(host, org, repo);
  }

  /** The pieces of the recorded remote contain no '/' and join to its slug. */
  lemma RecordedRemotePieces(host: string, org: string, repo: string)
    requires host == "github.com" && org == "testOrg" && repo == "testRepo"
    ensures '/' !in host && '/' !in org && '/' !in repo && org != "" && repo != ""
    ensures org + "/" + repo == "testOrg/testRepo"
  {
  }

  // ----- merge-commit rule -----

  /** A character of a parent hash as the merge check accepts it. */
  predicate IsHashChar(c: char)
  {
    'a' <= c <= 'z' || '0' <= c <= '9'
  }

  /** One 40-character parent token of `git show --no-patch --format=%P`. */
  predicate IsParentHash(t: string)
  {
    |t| == 40 && forall i :: 0 <= i < |t| ==> IsHashChar(t[i])
  }

  /** The second parent when the parent list is exactly two hashes separated
      by one space (an automatic merge of the target branch into the PR
      branch); None for a single parent, an empty output or anything else. */
  function MergeParent(parents: string): (second: Option<string>)
    ensures second.Some? ==> IsParentHash(second.value)
    ensures second.Some? ==> exists first :: IsParentHash(first) && parents == first + " " + second.value
  {
    if |parents| == 81 && parents[40] == ' ' && IsParentHash(parents[..40]) && IsParentHash(parents[41..]) then
      assert parents == parents[..40] + " " + parents[41..];
      Some(parents[41..])
    else None
  }

  /** Two hashes separated by a space name the second as the commit of interest. */
  lemma MergeParentOfTwo(first: string, second: string)
    requires IsParentHash(first) && IsParentHash(second)
    ensures MergeParent(first + " " + second) == Some(second)
  {
  }

  /** A single parent is not a merge. */
  lemma MergeParentOfOne(only: string)
    requires IsParentHash(only)
    ensures MergeParent(only) == None
  {
  }
}
