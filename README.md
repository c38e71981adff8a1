# CI-provider resolution: Azure Pipelines and Jenkins

A model of how the uploader works out which CI platform it is running on and
how it turns that platform's environment into the ten-field build-identity
record `IServiceParams` (`branch`, `build`, `buildURL`, `commit`, `job`, `pr`,
`project`, `server_uri`, `service`, `slug`). The model covers two providers.

- **Azure Pipelines** is detected by `SYSTEM_TEAMFOUNDATIONSERVERURI`. It
  strips `refs/heads/` from the source branch. It takes the PR number, or else
  the PR id. It builds the results link from the server URI, the team project
  and the build id. In a pull-request build whose checkout is a two-parent merge,
  it uses the second parent as the commit. It takes the slug from
  `BUILD_REPOSITORY_NAME`, or else from the git remote.
- **Jenkins** is detected by a non-empty `JENKINS_URL`. It copies
  `GIT_BRANCH`, `BUILD_NUMBER`, `BUILD_URL`, `GIT_COMMIT` and `CHANGE_ID`
  straight into the record. It always takes the slug from the git remote.

Every operation is a pure function:

- The environment is a `map<string, string>`. An absent variable and an empty
  one are read the same way (`Env.Get`, `Env.IsSet`).
- The caller's overrides are an `Args` record with the fields `branch`,
  `build`, `pr`, `sha` and `slug`. An empty field means no override.
- The output of `git config --get remote.origin.url` and of
  `git show --no-patch --format=%P` are two string parameters,
  `remoteOriginURL` and `parentCommits`. Both are taken as already trimmed.

A provider first resolves a record from the environment and the git output
(`Resolve`). Then `ServiceParams.Merge` lays the non-empty overrides over the
five overridable fields; `sha` replaces `commit`. The other five fields are
never overridden.

Modules: `Env` (env.dfy), `ServiceParams` (service_params.dfy), `Git`
(git.dfy: branch refs, the slug of a remote URL, the merge-commit rule),
`AzurePipelines` (azure_pipelines.dfy), `JenkinsCi` (jenkins_ci.dfy).

The only source files of the repository this model rests on are the two
provider test files. The provider implementations under `src/ci_providers/`
are not part of this model. Each test case therefore becomes a lemma
(`Case…`). The case lemma is stated for every environment that gives the
variables the provider reads the same values as the test's input map. So it
holds for that map and for every map that differs from it only in variables
the provider ignores.

## Model

| member | source | states |
|---|---|---|
| Env.Get | test/providers/provider_jenkinsci.test.ts:15-26 | an absent variable reads as `""` and a present one as its value, so absent and empty are the same to every provider |
| Env.FirstSet | test/providers/provider_azurepipelines.test.ts:101-136 | the first of two strings when it is non-empty, else the second; `""` exactly when both are empty |
| ServiceParams.Override | test/providers/provider_azurepipelines.test.ts:209-241 | a non-empty override is the value; an empty one leaves the resolved value, which is itself `""` when nothing was resolved |
| AzurePipelines.Branch | test/providers/provider_azurepipelines.test.ts:71-80 | a `BUILD_SOURCEBRANCH` with the `refs/heads/` prefix gives the name after it; any other value, including absent, is kept as it is |
| AzurePipelines.PullRequest | test/providers/provider_azurepipelines.test.ts:64-161 | the PR number when it is set, otherwise the PR id; `""` exactly when neither is set |
| AzurePipelines.BuildURL | test/providers/provider_azurepipelines.test.ts:36-99 | server URI ++ project ++ `/_build/results?buildId=` ++ build id when project and build id are both set; `""` otherwise, even with the server URI set |
| AzurePipelines.Commit | test/providers/provider_azurepipelines.test.ts:83-207 | with no PR, `BUILD_SOURCEVERSION`; in a PR, the second parent when MergeParent recognises a two-hash merge; `BUILD_SOURCEVERSION` whenever it does not |
| AzurePipelines.Slug | test/providers/provider_azurepipelines.test.ts:138-170 | `BUILD_REPOSITORY_NAME` when it is set, otherwise the slug parsed from the remote URL |
| AzurePipelines.Resolve | test/providers/provider_azurepipelines.test.ts:36-207 | the record before overrides: `service` `azure_pipelines`, `server_uri`, `build`, `job` and `project` from their variables, and branch, pr, buildURL, commit and slug by the rules above |
| JenkinsCi.Resolve | test/providers/provider_jenkinsci.test.ts:40-89 | the record before overrides: `branch`, `build`, `buildURL`, `commit` and `pr` are `GIT_BRANCH`, `BUILD_NUMBER`, `BUILD_URL`, `GIT_COMMIT` and `CHANGE_ID`; `slug` comes from the remote; `service` is `jenkins`; `job`, `project` and `server_uri` are `""` |
| AzurePipelines.Detect | test/providers/provider_azurepipelines.test.ts:14-33 | Azure Pipelines is detected exactly when `SYSTEM_TEAMFOUNDATIONSERVERURI` is present and non-empty, so it is false on the empty map |
| AzurePipelines.GetServiceParams | test/providers/provider_azurepipelines.test.ts:209-241 | `service` is always `azure_pipelines` and `server_uri` is always the server-URI variable, overrides or not; each non-empty override (`branch`, `build`, `pr`, `sha` for `commit`, `slug`) is the field's value |
| AzurePipelines.OnlyServerUri | test/providers/provider_azurepipelines.test.ts:36-61 | for any server URI, with no other variable, no overrides and an empty remote, the record is `server_uri` = that URI, `service` = `azure_pipelines`, and `""` everywhere else, whatever the parent list |
| AzurePipelines.BranchStripsHeadsRef | test/providers/provider_azurepipelines.test.ts:71-80 | a `refs/heads/<name>` source branch gives `branch` = `<name>`; a source branch without that prefix is passed through unchanged |
| AzurePipelines.PullRequestFallback | test/providers/provider_azurepipelines.test.ts:64-161 | `pr` is the PR number when it is set, otherwise the PR id, and `""` when neither is set |
| AzurePipelines.BuildFields | test/providers/provider_azurepipelines.test.ts:64-99 | `build` = `BUILD_BUILDNUMBER`, `job` = `BUILD_BUILDID`, `project` = `SYSTEM_TEAMPROJECT`; `buildURL` = server URI ++ project ++ `/_build/results?buildId=` ++ build id with no separator when project and build id are both set, and `""` otherwise |
| AzurePipelines.JobIgnoresSystemBuildId | test/providers/provider_azurepipelines.test.ts:68-84 | changing `SYSTEM_BUILD_BUILDID` never changes `job`: it comes from `BUILD_BUILDID` |
| AzurePipelines.NoPullRequestKeepsSourceVersion | test/providers/provider_azurepipelines.test.ts:138-170 | without a PR number or id the commit is `BUILD_SOURCEVERSION`, whatever the parent-commit output |
| AzurePipelines.SingleParentKeepsSourceVersion | test/providers/provider_azurepipelines.test.ts:91-96 | in a PR build whose parent-commit output is one 40-character hash, the commit is `BUILD_SOURCEVERSION` |
| AzurePipelines.MergeTakesSecondParent | test/providers/provider_azurepipelines.test.ts:172-207 | in a PR build whose parent-commit output is two 40-character hashes separated by a space, the commit is the second hash |
| AzurePipelines.SlugFromRepositoryName | test/providers/provider_azurepipelines.test.ts:64-99 | when `BUILD_REPOSITORY_NAME` is set it is the slug, whatever the remote URL |
| AzurePipelines.SlugFromRemote | test/providers/provider_azurepipelines.test.ts:138-170 | without `BUILD_REPOSITORY_NAME`, a remote `https://host/org/repo.git` gives slug `org/repo` |
| AzurePipelines.OverridesLeaveOtherFields | test/providers/provider_azurepipelines.test.ts:209-241 | overrides never change `buildURL`, `job`, `project`, `server_uri` or `service`: those equal the record resolved without overrides |
| AzurePipelines.CasePullRequestNumber | test/providers/provider_azurepipelines.test.ts:64-99 | the "pr number" case: exactly the expected ten-field record, with commit `testingsha` for a single-parent checkout |
| AzurePipelines.CasePullRequestId | test/providers/provider_azurepipelines.test.ts:101-136 | the "pr id" case: the PR id stands in for the missing PR number and the expected record comes out exactly |
| AzurePipelines.CaseSlugByRemote | test/providers/provider_azurepipelines.test.ts:138-170 | the "slug by remote address" case: `pr` is `""` and the slug `testOrg/testRepo` is parsed from the remote, for any parent list |
| AzurePipelines.CaseMerge | test/providers/provider_azurepipelines.test.ts:172-207 | the "on merge" case: the commit is `testingmergecommitsha2345678901234567890` and the other fields are as expected |
| AzurePipelines.CaseMergeParents | test/providers/provider_azurepipelines.test.ts:199-204 | the recorded two-hash parent list is recognised as a merge naming its second hash |
| AzurePipelines.CaseOverrides | test/providers/provider_azurepipelines.test.ts:209-241 | the "overrides" case: the slug override beats `BUILD_REPOSITORY_NAME`; `buildURL`, `job` and `project` stay `""`; `server_uri` and `service` come from the env and the literal |
| JenkinsCi.Detect | test/providers/provider_jenkinsci.test.ts:28-37 | Jenkins is detected exactly when `JENKINS_URL` is present with a non-empty value |
| JenkinsCi.NotDetectedWithoutUrl | test/providers/provider_jenkinsci.test.ts:15-26 | not detected on the empty map, and not detected when `JENKINS_URL` is present but `""` |
| JenkinsCi.GetServiceParams | test/providers/provider_jenkinsci.test.ts:91-120 | `service` is always `jenkins` and `job` always `""`, overrides or not; each non-empty override is the field's value |
| JenkinsCi.DirectMapping | test/providers/provider_jenkinsci.test.ts:40-68 | without overrides `branch` = `GIT_BRANCH`, `build` = `BUILD_NUMBER`, `buildURL` = `BUILD_URL`, `commit` = `GIT_COMMIT`, `pr` = `CHANGE_ID`, each exactly as given |
| JenkinsCi.SlugFromRemote | test/providers/provider_jenkinsci.test.ts:60-89 | without a slug override, an empty remote output gives slug `""` and `https://host/org/repo.git` gives `org/repo` |
| JenkinsCi.OverridesLeaveOtherFields | test/providers/provider_jenkinsci.test.ts:91-120 | with or without overrides, `buildURL` is `BUILD_URL` (so `""` when it is absent) and `job` is `""` |
| JenkinsCi.CasePush | test/providers/provider_jenkinsci.test.ts:40-68 | the "on push" case: the environment is detected, and the record has the expected `branch`, `build`, `buildURL`, `commit`, `job`, `pr`, `service`, and `slug` `""` |
| JenkinsCi.CaseSlugFromGitConfig | test/providers/provider_jenkinsci.test.ts:70-89 | the "slug from git config" case: the remote `https://github.com/testOrg/testRepo.git` gives slug `testOrg/testRepo` |
| JenkinsCi.CaseOverrides | test/providers/provider_jenkinsci.test.ts:91-120 | the "overrides" case: the five overrides come out exactly; `buildURL` and `job` stay `""` and `service` is `jenkins` |
| ServiceParams.Merge | test/providers/provider_azurepipelines.test.ts:209-241 | each of the five overridable fields is the override when that is non-empty and the resolved value otherwise; the other five fields are always the resolved ones |
| ServiceParams.MergeWithoutOverrides | test/providers/provider_azurepipelines.test.ts:16-17 | merging the empty argument set returns the resolved record unchanged |
| ServiceParams.MergeIdempotent | test/providers/provider_azurepipelines.test.ts:209-241 | applying the same overrides twice gives the same record as applying them once |
| ServiceParams.FullOverrideIgnoresResolved | test/providers/provider_jenkinsci.test.ts:91-120 | when all five overrides are given, the merged record depends on the resolved record only through its five non-overridable fields |
| Git.StripHeadsRef | test/providers/provider_azurepipelines.test.ts:71-80 | a branch with the `refs/heads/` prefix loses exactly that prefix; any other branch, including `""`, is returned unchanged |
| Git.StripHeadsRefOfRef | test/providers/provider_azurepipelines.test.ts:71-80 | stripping undoes qualifying a name as `refs/heads/<name>`, for every name |
| Git.SlugFromRemoteURL | test/providers/provider_jenkinsci.test.ts:60-65 | an empty remote output gives slug `""`; any non-empty slug comes from an `http(s)://` URL and contains a `/` |
| Git.SlugOfHttpsRemote | test/providers/provider_azurepipelines.test.ts:164-167 | for every host, org and repo name without `/` (org and repo non-empty), `https://host/org/repo.git` gives `org/repo` |
| Git.SlugOfPath | test/providers/provider_azurepipelines.test.ts:164-167 | the path `host/org/repo` gives slug `org/repo` |
| Git.RecordedRemoteSlug | test/providers/provider_jenkinsci.test.ts:82-88 | the recorded remote `https://github.com/testOrg/testRepo.git` gives `testOrg/testRepo` |
| Git.SplitJoin | test/providers/provider_azurepipelines.test.ts:164-167 | splitting on a separator undoes joining separator-free pieces (the slug parser splits the remote path on `/`) |
| Git.MergeParent | test/providers/provider_azurepipelines.test.ts:199-204 | when a second parent is returned, it is a 40-character hash and the output is some 40-character hash, a space, then that second parent |
| Git.MergeParentOfTwo | test/providers/provider_azurepipelines.test.ts:199-204 | for every two 40-character hashes `a` and `b`, the output `a b` names `b` (the converse of MergeParent's contract) |
| Git.MergeParentOfOne | test/providers/provider_azurepipelines.test.ts:91-96 | a single 40-character hash is never taken for a merge |

## Left out

- The git subprocesses (`spawnSync` and `execFileSync` with their output-size limit) are left out. Their trimmed standard output is a parameter, and a failed command is modelled by passing `""`.
- The `testdouble` stubbing and reset calls are left out. They belong to the test setup, not to the provider logic.
- `getServiceParams` is asynchronous in the source. It is modelled as an ordinary function, because nothing runs concurrently.
- The provider registry, first-match selection and the "no provider detected" error are left out. No file that implements or tests them is part of this model.
- SSH remotes (`git@host:org/repo.git`) and other remote forms are not recognised. The tests cover only the HTTPS `.git` form and the empty output. The model gives `""` for every form it does not recognise.
- Jenkins `project` and `server_uri` are set to `""`. The Jenkins tests do not check these two fields, because they use a partial match.
- AzurePipelines.Commit: a PR given only as an override does not start the merge-commit check here, because overrides are applied after resolution. Only the PR number or id in the environment start it. The tests do not separate the two readings, because in the one test with a PR override the `sha` override decides the commit.
- AzurePipelines.BuildFields: when only one of `SYSTEM_TEAMPROJECT` and `BUILD_BUILDID` is set, the model gives `""`. The tests fix only the both-set and both-absent cases.
- Git.MergeParent: only exactly two 40-character `[a-z0-9]` tokens separated by one space count as a merge. Three or more parents, or any other output, leave `BUILD_SOURCEVERSION`. The two-parent case uses exactly two tokens, so the tests leave longer parent lists open; the model takes the narrower reading.
- JenkinsCi.Resolve: `GIT_BRANCH` is not stripped of `refs/heads/`, and `GIT_COMMIT` is not passed through the merge-commit rule. The tests leave the branch question open, because their only branch, `main`, comes out the same either way. For the commit, the push case sets `CHANGE_ID` and stubs no `git show`, which fits the direct mapping.
