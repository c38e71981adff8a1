/** The Jenkins provider: detection by the controller URL variable, and a
    direct mapping of the build's variables into the fact set, with the slug
    taken from the remote URL. */
module JenkinsCi {
  import opened Env
  import opened ServiceParams
  import Git

  const JENKINS_URL := "JENKINS_URL"
  const BUILD_NUMBER := "BUILD_NUMBER"
  const BUILD_URL := "BUILD_URL"
  const CHANGE_ID := "CHANGE_ID"
  const GIT_BRANCH := "GIT_BRANCH"
  const GIT_COMMIT := "GIT_COMMIT"

  const SERVICE := "jenkins"

  /** Running under Jenkins: the controller URL is set and non-empty. */
  function Detect(envs: Envs): (detected: bool)
    ensures detected <==> JENKINS_URL in envs && envs[JENKINS_URL] != ""
  {
    IsSet(envs, JENKINS_URL)
  }

  /** Everything the provider derives before overrides are applied. The
      Jenkins cases assert `job` as "" and do not assert `project` or
      `server_uri`; the model leaves all three "". */
  function Resolve(envs: Envs, remoteOriginURL: string): (r: Params)
    ensures r.service == "jenkins" && r.job == "" && r.project == "" && r.server_uri == ""
    ensures r.branch == Get(envs, GIT_BRANCH) && r.build == Get(envs, BUILD_NUMBER)
    ensures r.buildURL == Get(envs, BUILD_URL) && r.commit == Get(envs, GIT_COMMIT)
    ensures r.pr == Get(envs, CHANGE_ID)
    ensures r.slug == Git.SlugFromRemoteURL(remoteOriginURL)
  {
    Params(
      branch := Get(envs, GIT_BRANCH),
      build := Get(envs, BUILD_NUMBER),
      buildURL := Get(envs, BUILD_URL),
      commit := Get(envs, GIT_COMMIT),
      job := "",
      pr := Get(envs, CHANGE_ID),
      project := "",
      server_uri := "",
      service := SERVICE,
      slug := Git.SlugFromRemoteURL(remoteOriginURL))
  }

  /** The fact set for Jenkins: resolved values with the caller's non-empty
      overrides taking precedence. */
  function GetServiceParams(args: Args, envs: Envs, remoteOriginURL: string): (r: Params)
    ensures r.service == "jenkins" && r.job == ""
    ensures args.branch != "" ==> r.branch == args.branch
    ensures args.build != "" ==> r.build == args.build
    ensures args.pr != "" ==> r.pr == args.pr
    ensures args.sha != "" ==> r.commit == args.sha
    ensures args.slug != "" ==> r.slug == args.slug
  {
    Merge(Resolve(envs, remoteOriginURL), args)
  }

  // ----- properties of the resolution -----

  /** Not detected without the controller URL, nor with it set to "". */
  lemma NotDetectedWithoutUrl(envs: Envs)
    ensures !Detect(map[])
    ensures !Detect(envs[JENKINS_URL := ""])
  {
  }

  /** Without overrides each fact is its variable, verbatim: the branch is not
      normalised and the commit is not passed through the merge-commit rule. */
  lemma DirectMapping(envs: Envs, remoteOriginURL: string)
    ensures var r := GetServiceParams(NO_OVERRIDES, envs, remoteOriginURL);
      && r.branch == Get(envs, GIT_BRANCH)
      && r.build == Get(envs, BUILD_NUMBER)
      && r.buildURL == Get(envs, BUILD_URL)
      && r.commit == Get(envs, GIT_COMMIT)
      && r.pr == Get(envs, CHANGE_ID)
  {
  }

  /** The slug comes from the remote URL alone: "" for an empty remote output,
      `org/repo` for `https://host/org/repo.git`. */
  lemma SlugFromRemote(args: Args, envs: Envs, host: string, org: string, repo: string)
    requires args.slug == ""
    requires '/' !in host && '/' !in org && '/' !in repo && org != "" && repo != ""
    ensures GetServiceParams(args, envs, "").slug == ""
    ensures GetServiceParams(args, envs, "https://" + host + "/" + org + "/" + repo + ".git").slug
         == org + "/" + repo
  {
    Git.SlugOfHttpsRemote(host, org, repo);
  }

  /** Overrides leave the build link untouched, and the job empty. */
  lemma OverridesLeaveOtherFields(args: Args, envs: Envs, remoteOriginURL: string)
    ensures GetServiceParams(args, envs, remoteOriginURL).buildURL == Get(envs, BUILD_URL)
    ensures GetServiceParams(args, envs, remoteOriginURL).job == ""
  {
  }

  // ----- the recorded cases -----
  // Each case is stated for every environment that gives the variables the
  // provider reads the values of the case's input map, which includes that map.

  /** The variables the push cases set. */
  predicate PushBuild(envs: Envs)
  {
    && Get(envs, BUILD_NUMBER) == "1"
    && Get(envs, BUILD_URL) == "https://example.jenkins.com"
    && Get(envs, CHANGE_ID) == "2"
    && Get(envs, GIT_BRANCH) == "main"
    && Get(envs, GIT_COMMIT) == "testingsha"
    && Get(envs, JENKINS_URL) == "https://example.com"
  }

  /** Case "gets correct params on push": variables map across and the empty
      remote output gives an empty slug. */
  lemma CasePush(envs: Envs)
    requires PushBuild(envs)
    ensures Detect(envs)
    ensures var r := GetServiceParams(NO_OVERRIDES, envs, "");
      && r.branch == "main" && r.build == "1" && r.buildURL == "https://example.jenkins.com"
      && r.commit == "testingsha" && r.job == "" && r.pr == "2"
      && r.service == "jenkins" && r.slug == ""
  {
  }

  /** Case "can get the slug from git config". */
  lemma CaseSlugFromGitConfig(envs: Envs, host: string, org: string, repo: string)
    requires PushBuild(envs)
    requires host == "github.com" && org == "testOrg" && repo == "testRepo"
    ensures GetServiceParams(NO_OVERRIDES, envs, "https://" + host + "/" + org + "/" + repo + ".git").slug
         == "testOrg/testRepo"
  {
    Git.RecordedRemoteSlug(host, org, repo);
  }

  /** Case "gets correct params for overrides": with only the controller URL
      set, the overrides give the facts and the build link and job stay "". */
  lemma CaseOverrides(envs: Envs, remoteOriginURL: string)
    requires Get(envs, JENKINS_URL) == "https://example.com" && Get(envs, BUILD_URL) == ""
    ensures var r := GetServiceParams(
        Args(branch := "branch", build := "3", pr := "2", sha := "testsha", slug := "testOrg/testRepo"),
        envs, remoteOriginURL);
      && r.branch == "branch" && r.build == "3" && r.buildURL == "" && r.commit == "testsha"
      && r.job == "" && r.pr == "2" && r.service == "jenkins" && r.slug == "testOrg/testRepo"
  {
  }
}
