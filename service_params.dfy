/** The canonical fact set a provider produces, the caller's overrides, and the
    policy that merges the two. */
module ServiceParams {
  import opened Env

  /** Caller-supplied overrides. An empty field means "no override". */
  datatype Args = Args(branch: string, build: string, pr: string, sha: string, slug: string)

  /** The overrides of an empty argument set: none at all. */
  const NO_OVERRIDES := Args("", "", "", "", "")

  /** The ten-field record every provider returns; an unresolved field is "". */
  datatype Params = Params(
    branch: string,
    build: string,
    buildURL: string,
    commit: string,
    job: string,
    pr: string,
    project: string,
    server_uri: string,
    service: string,
    slug: string)

  /** The override if it is non-empty, else the resolved value (which is
      itself "" when nothing was resolved). */
  function Override(given: string, resolved: string): (r: string)
    ensures given != "" ==> r == given
    ensures given == "" ==> r == resolved
  {
    FirstSet(given, resolved)
  }

  /** Replaces the five overridable facts by the non-empty overrides
      (`sha` replaces `commit`); the other five facts are never overridden. */
  function Merge(resolved: Params, args: Args): (r: Params)
    ensures args.branch != "" ==> r.branch == args.branch
    ensures args.build != "" ==> r.build == args.build
    ensures args.pr != "" ==> r.pr == args.pr
    ensures args.sha != "" ==> r.commit == args.sha
    ensures args.slug != "" ==> r.slug == args.slug
    ensures args.branch == "" ==> r.branch == resolved.branch
    ensures args.build == "" ==> r.build == resolved.build
    ensures args.pr == "" ==> r.pr == resolved.pr
    ensures args.sha == "" ==> r.commit == resolved.commit
    ensures args.slug == "" ==> r.slug == resolved.slug
    ensures r.buildURL == resolved.buildURL && r.job == resolved.job
    ensures r.project == resolved.project && r.server_uri == resolved.server_uri
    ensures r.service == resolved.service
  {
    resolved.(
      branch := Override(args.branch, resolved.branch),
      build := Override(args.build, resolved.build),
      pr := Override(args.pr, resolved.pr),
      commit := Override(args.sha, resolved.commit),
      slug := Override(args.slug, resolved.slug))
  }

  /** With no overrides the resolved facts come through unchanged. */
  lemma MergeWithoutOverrides(resolved: Params)
    ensures Merge(resolved, NO_OVERRIDES) == resolved
  {
  }

  /** Applying the same overrides twice is the same as applying them once. */
  lemma MergeIdempotent(resolved: Params, args: Args)
    ensures Merge(Merge(resolved, args), args) == Merge(resolved, args)
  {
  }

  /** When all five overrides are given, the merged record no longer depends
      on what the provider resolved for those five facts. */
  lemma FullOverrideIgnoresResolved(p: Params, q: Params, args: Args)
    requires args.branch != "" && args.build != "" && args.pr != ""
    requires args.sha != "" && args.slug != ""
    requires p.buildURL == q.buildURL && p.job == q.job && p.project == q.project
    requires p.server_uri == q.server_uri && p.service == q.service
    ensures Merge(p, args) == Merge(q, args)
  {
  }
}
