/** The GitHub client of github.go: construction of the client and the
    translation of each go-github call's `(value, *Response, error)` triple
    into the program's own result.

    The go-github calls are not modelled: each operation is given the
    `Reply` the library handed back and returns the `Request` it issued
    together with its classified outcome. An error the operation allocates
    receives the identity `newId`. */
module GitHub {
  import opened GoErrors

  /** 201 Created, section 15.3.2 of RFC 9110. */
  const StatusCreated := 201
  /** 204 No Content, section 15.3.5 of RFC 9110. */
  const StatusNoContent := 204
  /** 404 Not Found, section 15.5.5 of RFC 9110. */
  const StatusNotFound := 404

  /** `RelaseNotFound`, the package-level sentinel. It is allocated once,
      when the program starts, before any other error: identity 0. */
  const RelaseNotFound := Error(0, "release is not found", None)

  /** The identity of an error allocated while the program runs: every such
      allocation comes after the sentinel's. */
  type NewId = id: nat | id > RelaseNotFound.id witness RelaseNotFound.id + 1

  /** `github.RepositoryRelease`, both as a request and as a release the
      service reports. Its pointer fields are taken to be set. */
  datatype RepositoryRelease = RepositoryRelease(
    id: int,
    tagName: string,
    name: string,
    targetCommitish: string,
    body: string,
    draft: bool,
    prerelease: bool,
    htmlURL: string)

  datatype RepositoryCommit = RepositoryCommit(sha: string, message: string)

  datatype CommitsListOptions = CommitsListOptions(sha: string, path: string, author: string)

  /** A URL that `url.ParseRequestURI` accepted. */
  datatype Url = Url(raw: string)

  /** `GitHubClient`: the repository scope, and the authenticated
      go-github client reduced to its token and base URL. */
  datatype Client = Client(owner: string, repo: string, token: string, baseURL: Url)

  /** `*github.Response`: the HTTP status code and status line. */
  datatype Response = Response(statusCode: int, status: string)

  /** What a go-github call returns: the decoded value, the response
      (absent when the request never got one) and the error. */
  datatype Reply<T> = Reply(value: T, response: Option<Response>, err: Option<Error>)

  /** The go-github call an operation makes, with the scope it passes. */
  datatype Request =
    | CreateReleaseRequest(owner: string, repo: string, release: RepositoryRelease)
    | GetReleaseByTagRequest(owner: string, repo: string, tag: string)
    | DeleteReleaseRequest(owner: string, repo: string, releaseID: int)
    | DeleteRefRequest(owner: string, repo: string, ref: string)
    | ListCommitsRequest(owner: string, repo: string, opts: CommitsListOptions)

  /** The request an operation sends and the outcome it makes of the reply. */
  datatype Sent<T> = Sent(request: Request, outcome: T)

  /** go-github hands back a response whenever it reports no error; the
      operations that read the status code of an error-free reply rely on it. */
  predicate Answered<T>(reply: Reply<T>)
  {
    reply.err.None? ==> reply.response.Some?
  }

  /** The reply is an error whose response carries 404. */
  predicate IsNotFound<T>(reply: Reply<T>)
  {
    reply.err.Some? && reply.response.Some? && reply.response.value.statusCode == StatusNotFound
  }

  /** `NewGitHubClient(owner, repo, token, urlStr)`. `parse` stands for
      `url.ParseRequestURI`. The second check tests `owner` again, so an
      empty `repo` is accepted. */
  function NewGitHubClient(owner: string, repo: string, token: string, urlStr: string,
                           parse: string -> Result<Url>, newId: NewId): (r: Result<Client>)
    ensures r.Ok? <==> |owner| > 0 && |token| > 0 && |urlStr| > 0 && parse(urlStr).Ok?
    ensures r.Ok? ==> r.value.owner == owner && r.value.repo == repo &&
                      r.value.token == token && r.value.baseURL == parse(urlStr).value
    ensures |owner| == 0 ==> r == Fail(New(newId, "missing GitHub repository owner"))
    ensures |owner| > 0 && |token| == 0 ==> r == Fail(New(newId, "missing GitHub API token"))
    ensures |owner| > 0 && |token| > 0 && |urlStr| == 0 ==>
              r == Fail(New(newId, "missgig GitHub API URL"))
    ensures |owner| > 0 && |token| > 0 && |urlStr| > 0 && parse(urlStr).Fail? ==>
              r == Fail(Wrap(newId, parse(urlStr).error, "failed to parse Github API URL"))
    ensures r.Fail? ==> r.error.message != "missing GitHub repository name"
  {
    if |owner| == 0 then Fail(New(newId, "missing GitHub repository owner"))
    else if |owner| == 0 then Fail(New(newId, "missing GitHub repository name"))
    else if |token| == 0 then Fail(New(newId, "missing GitHub API token"))
    else if |urlStr| == 0 then Fail(New(newId, "missgig GitHub API URL"))
    else match parse(urlStr)
      case Fail(e) => Fail(Wrap(newId, e, "failed to parse Github API URL"))
      case Ok(baseURL) => Ok(Client(owner, repo, token, baseURL))
  }

  /** `GitHubClient.CreateRelease`. */
  function CreateRelease(c: Client, req: RepositoryRelease, reply: Reply<RepositoryRelease>,
                         newId: NewId): (s: Sent<Result<RepositoryRelease>>)
    requires Answered(reply)
    ensures s.request == CreateReleaseRequest(c.owner, c.repo, req)
    ensures s.outcome.Ok? <==> reply.err.None? && reply.response.value.statusCode == StatusCreated
    ensures s.outcome.Ok? ==> s.outcome.value == reply.value
    ensures reply.err.Some? ==> s.outcome == Fail(Wrap(newId, reply.err.value, "failed to create a release"))
    ensures reply.err.None? && s.outcome.Fail? ==>
              Text(s.outcome.error) == "create release: invalid status: " + reply.response.value.status
  {
    var request := CreateReleaseRequest(c.owner, c.repo, req);
    if reply.err.Some? then
      Sent(request, Fail(Wrap(newId, reply.err.value, "failed to create a release")))
    else if reply.response.value.statusCode != StatusCreated then
      Sent(request, Fail(New(newId, "create release: invalid status: " + reply.response.value.status)))
    else
      Sent(request, Ok(reply.value))
  }

  /** `GitHubClient.GetRelease`: a three-way classification into the
      release, the sentinel and every other failure. */
  function GetRelease(c: Client, tag: string, reply: Reply<RepositoryRelease>,
                      newId: NewId): (s: Sent<Result<RepositoryRelease>>)
    ensures s.request == GetReleaseByTagRequest(c.owner, c.repo, tag)
    ensures s.outcome.Ok? <==> reply.err.None?
    ensures s.outcome.Ok? ==> s.outcome.value == reply.value
    ensures s.outcome == Fail(RelaseNotFound) <==> IsNotFound(reply)
    ensures s.outcome.Fail? ==> (Same(s.outcome.error, RelaseNotFound) <==> IsNotFound(reply))
    ensures reply.err.Some? && reply.response.None? ==>
              s.outcome == Fail(Wrap(newId, reply.err.value, "failed to get release tag: " + tag))
    ensures reply.err.Some? && reply.response.Some? && !IsNotFound(reply) ==>
              s.outcome == Fail(Wrap(newId, reply.err.value,
                                     "get release tag: invalid status: " + reply.response.value.status))
  {
    var request := GetReleaseByTagRequest(c.owner, c.repo, tag);
    if reply.err.Some? then
      if reply.response.None? then
        Sent(request, Fail(Wrap(newId, reply.err.value, "failed to get release tag: " + tag)))
      else if reply.response.value.statusCode != StatusNotFound then
        Sent(request, Fail(Wrap(newId, reply.err.value,
                                "get release tag: invalid status: " + reply.response.value.status)))
      else
        Sent(request, Fail(RelaseNotFound))
    else
      Sent(request, Ok(reply.value))
  }

  /** `GitHubClient.DeleteRelease`; the outcome is the returned `error`. */
  function DeleteRelease(c: Client, releaseID: int, reply: Reply<()>, newId: NewId): (s: Sent<Option<Error>>)
    requires Answered(reply)
    ensures s.request == DeleteReleaseRequest(c.owner, c.repo, releaseID)
    ensures s.outcome.None? <==> reply.err.None? && reply.response.value.statusCode == StatusNoContent
    ensures reply.err.Some? ==> s.outcome == Some(Wrap(newId, reply.err.value, "failed to delete release"))
    ensures reply.err.None? && s.outcome.Some? ==>
              Text(s.outcome.value) == "delete release: invalid status: " + reply.response.value.status
  {
    var request := DeleteReleaseRequest(c.owner, c.repo, releaseID);
    if reply.err.Some? then
      Sent(request, Some(Wrap(newId, reply.err.value, "failed to delete release")))
    else if reply.response.value.statusCode != StatusNoContent then
      Sent(request, Some(New(newId, "delete release: invalid status: " + reply.response.value.status)))
    else
      Sent(request, None)
  }

  /** The ref `DeleteTag` removes: `fmt.Sprintf("tags/%s", tag)`. */
  function TagRef(tag: string): (ref: string)
    ensures |ref| == |tag| + 5 && ref[..5] == "tags/" && ref[5..] == tag
  {
    "tags/" + tag
  }

  /** `GitHubClient.DeleteTag`: deletes the git ref of the tag. */
  function DeleteTag(c: Client, tag: string, reply: Reply<()>, newId: NewId): (s: Sent<Option<Error>>)
    requires Answered(reply)
    ensures s.request.DeleteRefRequest? && s.request.owner == c.owner && s.request.repo == c.repo
    ensures |s.request.ref| == |tag| + 5 && s.request.ref[..5] == "tags/" && s.request.ref[5..] == tag
    ensures s.outcome.None? <==> reply.err.None? && reply.response.value.statusCode == StatusNoContent
    ensures reply.err.Some? ==>
              s.outcome == Some(Wrap(newId, reply.err.value, "failed to delete tag: " + s.request.ref))
    ensures reply.err.None? && s.outcome.Some? ==>
              Text(s.outcome.value) == "delete tag: invalid status: " + reply.response.value.status
  {
    var ref := TagRef(tag);
    var request := DeleteRefRequest(c.owner, c.repo, ref);
    if reply.err.Some? then
      Sent(request, Some(Wrap(newId, reply.err.value, "failed to delete tag: " + ref)))
    else if reply.response.value.statusCode != StatusNoContent then
      Sent(request, Some(New(newId, "delete tag: invalid status: " + reply.response.value.status)))
    else
      Sent(request, None)
  }

  /** `GitHubClient.GetCommits`. A 404 is reported with the release
      sentinel, as for `GetRelease`. */
  function GetCommits(c: Client, opts: CommitsListOptions, reply: Reply<seq<RepositoryCommit>>,
                      newId: NewId): (s: Sent<Result<seq<RepositoryCommit>>>)
    ensures s.request == ListCommitsRequest(c.owner, c.repo, opts)
    ensures s.outcome.Ok? <==> reply.err.None?
    ensures s.outcome.Ok? ==> s.outcome.value == reply.value
    ensures s.outcome == Fail(RelaseNotFound) <==> IsNotFound(reply)
    ensures s.outcome.Fail? ==> (Same(s.outcome.error, RelaseNotFound) <==> IsNotFound(reply))
    ensures reply.err.Some? && reply.response.None? ==>
              s.outcome == Fail(Wrap(newId, reply.err.value, "failed to get commits list"))
    ensures reply.err.Some? && reply.response.Some? && !IsNotFound(reply) ==>
              s.outcome == Fail(Wrap(newId, reply.err.value,
                                     "get release tag: invalid status: " + reply.response.value.status))
  {
    var request := ListCommitsRequest(c.owner, c.repo, opts);
    if reply.err.Some? then
      if reply.response.None? then
        Sent(request, Fail(Wrap(newId, reply.err.value, "failed to get commits list")))
      else if reply.response.value.statusCode != StatusNotFound then
        Sent(request, Fail(Wrap(newId, reply.err.value,
                                "get release tag: invalid status: " + reply.response.value.status)))
      else
        Sent(request, Fail(RelaseNotFound))
    else
      Sent(request, Ok(reply.value))
  }

  /** `GetCommits` and `GetRelease` sort the same transport outcome into the
      same class: success, the release sentinel, or a wrapped failure. */
  lemma CommitsClassifiedLikeReleases(c: Client, tag: string, opts: CommitsListOptions,
                                      r: Reply<RepositoryRelease>, q: Reply<seq<RepositoryCommit>>, newId: NewId)
    requires r.response == q.response && r.err == q.err
    ensures GetCommits(c, opts, q, newId).outcome.Ok? <==> GetRelease(c, tag, r, newId).outcome.Ok?
    ensures GetCommits(c, opts, q, newId).outcome == Fail(RelaseNotFound) <==>
            GetRelease(c, tag, r, newId).outcome == Fail(RelaseNotFound)
  {
  }

  /** The repository name is never validated: a client with an empty `repo`
      is built from any owner, token and parsable URL. */
  lemma EmptyRepoAccepted(owner: string, token: string, urlStr: string,
                          parse: string -> Result<Url>, newId: NewId)
    requires |owner| > 0 && |token| > 0 && |urlStr| > 0 && parse(urlStr).Ok?
    ensures NewGitHubClient(owner, "", token, urlStr, parse, newId) == Ok(Client(owner, "", token, parse(urlStr).value))
  {
  }
}
