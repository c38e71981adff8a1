/** The Azure Pipelines provider: detection by the server-URI variable, and
    resolution of the fact set from the pipeline's predefined variables, the
    remote URL and the parent-commit list. */
module AzurePipelines {
  import opened Env
  import opened ServiceParams
  import Git

  const SERVER_URI := "SYSTEM_TEAMFOUNDATIONSERVERURI"
  const BUILD_NUMBER := "BUILD_BUILDNUMBER"
  const BUILD_ID := "BUILD_BUILDID"
  const REPOSITORY_NAME := "BUILD_REPOSITORY_NAME"
  const SOURCE_BRANCH := "BUILD_SOURCEBRANCH"
  const SOURCE_VERSION := "BUILD_SOURCEVERSION"
  const SYSTEM_BUILD_ID := "SYSTEM_BUILD_BUILDID"
  const PR_NUMBER := "SYSTEM_PULLREQUEST_PULLREQUESTNUMBER"
  const PR_ID := "SYSTEM_PULLREQUEST_PULLREQUESTID"
  const TEAM_PROJECT := "SYSTEM_TEAMPROJECT"

  const SERVICE := "azure_pipelines"
  const BUILD_RESULTS_PATH := "/_build/results?buildId="

  /** Running under Azure Pipelines: the server URI is set. */
  function Detect(envs: Envs): (detected: bool)
    ensures detected <==> SERVER_URI in envs && envs[SERVER_URI] != ""
  {
    IsSet(envs, SERVER_URI)
  }

  /** The source branch with its `refs/heads/` prefix removed. */
  function Branch(envs: Envs): (branch: string)
    ensures Git.HEADS_PREFIX <= Get(envs, SOURCE_BRANCH) ==> Git.HEADS_PREFIX + branch == Get(envs, SOURCE_BRANCH)
    ensures !(Git.HEADS_PREFIX <= Get(envs, SOURCE_BRANCH)) ==> branch == Get(envs, SOURCE_BRANCH)
  {
    Git.StripHeadsRef(Get(envs, SOURCE_BRANCH))
  }

  /** The friendly pull-request number, else the internal pull-request id. */
  function PullRequest(envs: Envs): (pr: string)
    ensures IsSet(envs, PR_NUMBER) ==> pr == envs[PR_NUMBER]
    ensures !IsSet(envs, PR_NUMBER) ==> pr == Get(envs, PR_ID)
    ensures pr == "" <==> !IsSet(envs, PR_NUMBER) && !IsSet(envs, PR_ID)
  {
    FirstSet(Get(envs, PR_NUMBER), Get(envs, PR_ID))
  }

  /** The build-results link, built only when the project and the build id are
      both set; the server URI and the project are concatenated as they are. */
  function BuildURL(envs: Envs): (url: string)
    ensures IsSet(envs, TEAM_PROJECT) && IsSet(envs, BUILD_ID) ==>
      url == Get(envs, SERVER_URI) + envs[TEAM_PROJECT] + "/_build/results?buildId=" + envs[BUILD_ID]
    ensures !IsSet(envs, TEAM_PROJECT) || !IsSet(envs, BUILD_ID) ==> url == ""
  {
    if IsSet(envs, TEAM_PROJECT) && IsSet(envs, BUILD_ID) then
      Get(envs, SERVER_URI) + Get(envs, TEAM_PROJECT) + BUILD_RESULTS_PATH + Get(envs, BUILD_ID)
    else ""
  }

  /** The source version, replaced by the second parent when a pull request is
      being built and the checked-out commit is a two-parent merge. */
  function Commit(envs: Envs, parentCommits: string): (commit: string)
    ensures PullRequest(envs) == "" ==> commit == Get(envs, SOURCE_VERSION)
    ensures PullRequest(envs) != "" && Git.MergeParent(parentCommits).Some? ==>
      commit == Git.MergeParent(parentCommits).value
    ensures Git.MergeParent(parentCommits).None? ==> commit == Get(envs, SOURCE_VERSION)
  {
    var sha := Get(envs, SOURCE_VERSION);
    if PullRequest(envs) == "" then sha
    else
      match Git.MergeParent(parentCommits)
      case Some(second) => second
      case None => sha
  }

  /** The repository-name variable, else the slug parsed from the remote URL. */
  function Slug(envs: Envs, remoteOriginURL: string): (slug: string)
    ensures IsSet(envs, REPOSITORY_NAME) ==> slug == envs[REPOSITORY_NAME]
    ensures !IsSet(envs, REPOSITORY_NAME) ==> slug == Git.SlugFromRemoteURL(remoteOriginURL)
  {
    if IsSet(envs, REPOSITORY_NAME) then Get(envs, REPOSITORY_NAME)
    else Git.SlugFromRemoteURL(remoteOriginURL)
  }

  /** Everything the provider derives before overrides are applied. */
  function Resolve(envs: Envs, remoteOriginURL: string, parentCommits: string): (r: Params)
    ensures r.service == "azure_pipelines" && r.server_uri == Get(envs, SERVER_URI)
    ensures r.build == Get(envs, BUILD_NUMBER) && r.job == Get(envs, BUILD_ID)
    ensures r.project == Get(envs, TEAM_PROJECT)
    ensures r.branch == Branch(envs) && r.pr == PullRequest(envs) && r.buildURL == BuildURL(envs)
    ensures r.commit == Commit(envs, parentCommits) && r.slug == Slug(envs, remoteOriginURL)
  {
    Params(
      branch := Branch(envs),
      build := Get(envs, BUILD_NUMBER),
      buildURL := BuildURL(envs),
      commit := Commit(envs, parentCommits),
      job := Get(envs, BUILD_ID),
      pr := PullRequest(envs),
      project := Get(envs, TEAM_PROJECT),
      server_uri := Get(envs, SERVER_URI),
      service := SERVICE,
      slug := Slug(envs, remoteOriginURL))
  }

  /** The fact set for Azure Pipelines: resolved values with the caller's
      non-empty overrides taking precedence. */
  function GetServiceParams(args: Args, envs: Envs, remoteOriginURL: string, parentCommits: string): (r: Params)
    ensures r.service == "azure_pipelines"
    ensures r.server_uri == Get(envs, SERVER_URI)
    ensures args.branch != "" ==> r.branch == args.branch
    ensures args.build != "" ==> r.build == args.build
    ensures args.pr != "" ==> r.pr == args.pr
    ensures args.sha != "" ==> r.commit == args.sha
    ensures args.slug != "" ==> r.slug == args.slug
  {
    Merge(Resolve(envs, remoteOriginURL, parentCommits), args)
  }

  // ----- properties of the resolution -----

  /** With only the server URI set, no overrides and an empty remote, every
      field except `server_uri` and `service` is the empty string. */
  lemma OnlyServerUri(uri: string, parentCommits: string)
    ensures GetServiceParams(NO_OVERRIDES, map[SERVER_URI := uri], "", parentCommits)
         == Params("", "", "", "", "", "", "", uri, SERVICE, "")
  {
  }

  /** A `refs/heads/<name>` source branch resolves to `<name>`; a branch
      without that prefix is passed through. */
  lemma BranchStripsHeadsRef(args: Args, envs: Envs, remoteOriginURL: string, parentCommits: string, name: string)
    requires args.branch == ""
    ensures Get(envs, SOURCE_BRANCH) == Git.HEADS_PREFIX + name ==>
      GetServiceParams(args, envs, remoteOriginURL, parentCommits).branch == name
    ensures !(Git.HEADS_PREFIX <= Get(envs, SOURCE_BRANCH)) ==>
      GetServiceParams(args, envs, remoteOriginURL, parentCommits).branch == Get(envs, SOURCE_BRANCH)
  {
  }

  /** The pull request is the PR number when set, else the PR id, else "". */
  lemma PullRequestFallback(args: Args, envs: Envs, remoteOriginURL: string, parentCommits: string)
    requires args.pr == ""
    ensures IsSet(envs, PR_NUMBER) ==>
      GetServiceParams(args, envs, remoteOriginURL, parentCommits).pr == envs[PR_NUMBER]
    ensures !IsSet(envs, PR_NUMBER) ==>
      GetServiceParams(args, envs, remoteOriginURL, parentCommits).pr == Get(envs, PR_ID)
    ensures !IsSet(envs, PR_NUMBER) && !IsSet(envs, PR_ID) ==>
      GetServiceParams(args, envs, remoteOriginURL, parentCommits).pr == ""
  {
  }

  /** The build variables: `build` is the build number, `job` the build id,
      `project` the team project, and `buildURL` the server URI, project,
      results path and build id run together, or "" unless both project and
      build id are set. */
  lemma BuildFields(args: Args, envs: Envs, remoteOriginURL: string, parentCommits: string)
    ensures var r := GetServiceParams(args, envs, remoteOriginURL, parentCommits);
      && (args.build == "" ==> r.build == Get(envs, BUILD_NUMBER))
      && r.job == Get(envs, BUILD_ID)
      && r.project == Get(envs, TEAM_PROJECT)
      && (IsSet(envs, TEAM_PROJECT) && IsSet(envs, BUILD_ID) ==>
            r.buildURL == Get(envs, SERVER_URI) + envs[TEAM_PROJECT] + "/_build/results?buildId=" + envs[BUILD_ID])
      && (!IsSet(envs, TEAM_PROJECT) || !IsSet(envs, BUILD_ID) ==> r.buildURL == "")
  {
  }

  /** `job` comes from BUILD_BUILDID; SYSTEM_BUILD_BUILDID plays no part in it. */
  lemma JobIgnoresSystemBuildId(args: Args, envs: Envs, remoteOriginURL: string, parentCommits: string, value: string)
    ensures GetServiceParams(args, envs[SYSTEM_BUILD_ID := value], remoteOriginURL, parentCommits).job
         == GetServiceParams(args, envs, remoteOriginURL, parentCommits).job
  {
  }

  /** Outside a pull request the parent-commit list is not consulted and the
      commit is the source version. */
  lemma NoPullRequestKeepsSourceVersion(args: Args, envs: Envs, remoteOriginURL: string, parentCommits: string)
    requires args.sha == "" && PullRequest(envs) == ""
    ensures GetServiceParams(args, envs, remoteOriginURL, parentCommits).commit == Get(envs, SOURCE_VERSION)
  {
  }

  /** In a pull request whose parent list is a single hash, the commit is the
      source version. */
  lemma SingleParentKeepsSourceVersion(args: Args, envs: Envs, remoteOriginURL: string, parent: string)
    requires IsSet(envs, PR_NUMBER) || IsSet(envs, PR_ID)
    requires args.sha == ""
    requires Git.IsParentHash(parent)
    ensures GetServiceParams(args, envs, remoteOriginURL, parent).commit == Get(envs, SOURCE_VERSION)
  {
  }

  /** In a pull request whose parent list is two hashes separated by a space,
      the commit is the second hash. */
  lemma MergeTakesSecondParent(args: Args, envs: Envs, remoteOriginURL: string, first: string, second: string)
    requires IsSet(envs, PR_NUMBER) || IsSet(envs, PR_ID)
    requires args.sha == ""
    requires Git.IsParentHash(first) && Git.IsParentHash(second)
    ensures GetServiceParams(args, envs, remoteOriginURL, first + " " + second).commit == second
  {
  }

  /** The repository-name variable is the slug when set; the remote URL is
      then not consulted. */
  lemma SlugFromRepositoryName(args: Args, envs: Envs, remoteOriginURL: string, parentCommits: string)
    requires args.slug == "" && IsSet(envs, REPOSITORY_NAME)
    ensures GetServiceParams(args, envs, remoteOriginURL, parentCommits).slug == envs[REPOSITORY_NAME]
  {
  }

  /** Without the repository-name variable the slug is parsed from an
      `https://host/org/repo.git` remote. */
  lemma SlugFromRemote(args: Args, envs: Envs, parentCommits: string, host: string, org: string, repo: string)
    requires args.slug == "" && !IsSet(envs, REPOSITORY_NAME)
    requires '/' !in host && '/' !in org && '/' !in repo && org != "" && repo != ""
    ensures GetServiceParams(args, envs, "https://" + host + "/" + org + "/" + repo + ".git", parentCommits).slug
         == org + "/" + repo
  {
    Git.SlugOfHttpsRemote(host, org, repo);
  }

  /** Overrides never touch `buildURL`, `job`, `project`, `server_uri` or
      `service`: those are what the provider resolves without overrides. */
  lemma OverridesLeaveOtherFields(args: Args, envs: Envs, remoteOriginURL: string, parentCommits: string)
    ensures var r := GetServiceParams(args, envs, remoteOriginURL, parentCommits);
      var plain := GetServiceParams(NO_OVERRIDES, envs, remoteOriginURL, parentCommits);
      r.buildURL == plain.buildURL && r.job == plain.job && r.project == plain.project
      && r.server_uri == plain.server_uri && r.service == plain.service
  {
  }

  // ----- the recorded cases -----
  // Each case is stated for every environment that gives the variables the
  // provider reads the values of the case's input map, which includes that map.

  /** The variables the pull-request cases set, apart from the PR variable. */
  predicate PullRequestBuild(envs: Envs)
  {
    && Get(envs, BUILD_NUMBER) == "1"
    && Get(envs, BUILD_ID) == "2"
    && Get(envs, REPOSITORY_NAME) == "testOrg/testRepo"
    && Get(envs, SOURCE_BRANCH) == "refs/heads/main"
    && Get(envs, SOURCE_VERSION) == "testingsha"
    && Get(envs, SERVER_URI) == "https://example.azure.com"
    && Get(envs, TEAM_PROJECT) == "testOrg"
  }

  /** The build link of the cases' server, project and build id. */
  lemma CaseBuildURL(envs: Envs)
    requires Get(envs, SERVER_URI) == "https://example.azure.com"
    requires Get(envs, TEAM_PROJECT) == "testOrg" && Get(envs, BUILD_ID) == "2"
    ensures BuildURL(envs) == "https://example.azure.comtestOrg/_build/results?buildId=2"
  {
  }

  /** The cases' source branch names the branch `main`. */
  lemma CaseBranch(envs: Envs)
    requires Get(envs, SOURCE_BRANCH) == "refs/heads/main"
    ensures Branch(envs) == "main"
  {
  }

  /** What the pull-request variables resolve to, whatever the remote. */
  lemma PullRequestBuildFacts(envs: Envs, remoteOriginURL: string)
    requires PullRequestBuild(envs)
    ensures Branch(envs) == "main"
    ensures BuildURL(envs) == "https://example.azure.comtestOrg/_build/results?buildId=2"
    ensures Slug(envs, remoteOriginURL) == "testOrg/testRepo"
  {
    CaseBranch(envs);
    CaseBuildURL(envs);
  }

  /** The fact set the pull-request cases expect, with the commit given. */
  function PullRequestExpected(commit: string): (expected: Params)
  {
    Params(
      branch := "main",
      build := "1",
      buildURL := "https://example.azure.comtestOrg/_build/results?buildId=2",
      commit := commit,
      job := "2",
      pr := "3",
      project := "testOrg",
      server_uri := "https://example.azure.com",
      service := "azure_pipelines",
      slug := "testOrg/testRepo")
  }

  /** Case "gets correct params on pr number": the PR number is the PR and a
      single parent keeps the source version. */
  lemma CasePullRequestNumber(envs: Envs, remoteOriginURL: string, parentCommits: string)
    requires PullRequestBuild(envs) && Get(envs, PR_NUMBER) == "3"
    requires parentCommits == "nonmergesha23456789012345678901234567890"
    ensures GetServiceParams(NO_OVERRIDES, envs, remoteOriginURL, parentCommits)
         == PullRequestExpected("testingsha")
  {
    PullRequestBuildFacts(envs, remoteOriginURL);
    Git.MergeParentOfOne(parentCommits);
  }

  /** Case "gets correct params on pr id": without a PR number the PR id is the PR. */
  lemma CasePullRequestId(envs: Envs, remoteOriginURL: string, parentCommits: string)
    requires PullRequestBuild(envs) && Get(envs, PR_NUMBER) == "" && Get(envs, PR_ID) == "3"
    requires parentCommits == "nonmergesha23456789012345678901234567890"
    ensures GetServiceParams(NO_OVERRIDES, envs, remoteOriginURL, parentCommits)
         == PullRequestExpected("testingsha")
  {
    PullRequestBuildFacts(envs, remoteOriginURL);
    Git.MergeParentOfOne(parentCommits);
  }

  /** Case "gets correct params on merge": the second of two parents is the commit. */
  lemma CaseMerge(envs: Envs, remoteOriginURL: string, first: string, second: string)
    requires PullRequestBuild(envs) && Get(envs, PR_NUMBER) == "" && Get(envs, PR_ID) == "3"
    requires first == "testingsha123456789012345678901234567890"
    requires second == "testingmergecommitsha2345678901234567890"
    ensures GetServiceParams(NO_OVERRIDES, envs, remoteOriginURL, first + " " + second)
         == PullRequestExpected("testingmergecommitsha2345678901234567890")
  {
    PullRequestBuildFacts(envs, remoteOriginURL);
    CaseMergeParents(first, second);
  }

  /** The case's parent list is a two-parent merge naming its second hash. */
  lemma CaseMergeParents(first: string, second: string)
    requires first == "testingsha123456789012345678901234567890"
    requires second == "testingmergecommitsha2345678901234567890"
    ensures Git.MergeParent(first + " " + second) == Git.Some(second)
  {
    Git.MergeParentOfTwo(first, second);
  }

  /** Case "gets correct slug by remote address": with no PR and no repository
      name the slug comes from the remote, and the parent list is not read. */
  lemma CaseSlugByRemote(envs: Envs, host: string, org: string, repo: string, parentCommits: string)
    requires Get(envs, BUILD_NUMBER) == "1" && Get(envs, BUILD_ID) == "2"
    requires Get(envs, SOURCE_BRANCH) == "refs/heads/main" && Get(envs, SOURCE_VERSION) == "testingsha"
    requires Get(envs, SERVER_URI) == "https://example.azure.com" && Get(envs, TEAM_PROJECT) == "testOrg"
    requires Get(envs, REPOSITORY_NAME) == "" && Get(envs, PR_NUMBER) == "" && Get(envs, PR_ID) == ""
    requires host == "github.com" && org == "testOrg" && repo == "testRepo"
    ensures GetServiceParams(NO_OVERRIDES, envs, "https://" + host + "/" + org + "/" + repo + ".git", parentCommits)
         == PullRequestExpected("testingsha").(pr := "")
  {
    CaseBranch(envs);
    CaseBuildURL(envs);
    Git.RecordedRemoteSlug(host, org, repo);
  }

  /** Case "gets correct params for overrides": the slug override wins over the
      repository name; build URL, job and project stay empty. */
  lemma CaseOverrides(envs: Envs, remoteOriginURL: string, parentCommits: string)
    requires Get(envs, SERVER_URI) == "https://example.azure.com"
    requires Get(envs, REPOSITORY_NAME) == "testOrg/testRepo"
    requires Get(envs, BUILD_ID) == "" && Get(envs, TEAM_PROJECT) == ""
    ensures GetServiceParams(
              Args(branch := "branch", build := "3", pr := "2", sha := "testsha", slug := "testOrg/otherTestRepo"),
              envs, remoteOriginURL, parentCommits)
         == Params(
              branch := "branch",
              build := "3",
              buildURL := "",
              commit := "testsha",
              job := "",
              pr := "2",
              project := "",
              server_uri := "https://example.azure.com",
              service := "azure_pipelines",
              slug := "testOrg/otherTestRepo")
  {
  }
}
