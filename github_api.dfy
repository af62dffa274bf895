/**
 * The data the finder reads from the GitHub REST API, and the API itself as a
 * value. Every request becomes a lookup in that value, so that each operation
 * of the finder is a deterministic computation over the responses.
 */
module GitHubApi {
  import opened Wrappers
  import Text

  const API_URL := "https://api.github.com"
  /** The `per_page` every search request asks for, and the size of a full page. */
  const PER_PAGE: nat := 100
  const OK := 200
  /** The status the model's API answers for anything it holds no response for. */
  const NOT_FOUND := 404

  /** An HTTP response: the status code and the decoded JSON body. */
  datatype Response<T> = Response(status: int, body: T)

  /** One search hit; the finder reads only `login`, the rest is passed through. */
  datatype User = User(login: string, htmlUrl: string)

  /** A user profile; `email` is `None` when absent or JSON null. */
  datatype Profile = Profile(email: Option<string>)

  /** The parts of a public event the finder reads: `payload.commits[].author.email`; `None` is an absent key. */
  datatype Author = Author(email: Option<string>)
  datatype Commit = Commit(author: Option<Author>)
  datatype Payload = Payload(commits: Option<seq<Commit>>)
  datatype Event = Event(payload: Option<Payload>)

  /** A repository's `description` key: missing, present as JSON null, or a string. */
  datatype Description = Missing | Null | Text(text: string)

  /** The parts of a repository the finder reads; `topics` is `None` when the key is missing. */
  datatype Repo = Repo(description: Description, topics: Option<seq<string>>)

  /**
   * What the API answers: the result pages of each search query (page n is
   * element n - 1), and the profile, public events and repositories of each login.
   */
  datatype Api = Api(
    search: map<string, seq<Response<seq<User>>>>,
    profiles: map<string, Response<Profile>>,
    events: map<string, Response<seq<Event>>>,
    repos: map<string, Response<seq<Repo>>>)
  {
    /** The answers to `GET /search/users?q=<query>&page=<n>&per_page=100` for n = 1, 2, ...; later pages fail. */
    function SearchPages(query: string): seq<Response<seq<User>>>
    {
      if query in search then search[query] else []
    }

    /** The answer to `GET /users/<login>`. */
    function ProfileOf(login: string): Response<Profile>
    {
      if login in profiles then profiles[login] else Response(NOT_FOUND, Profile(None))
    }

    /** The answer to `GET /users/<login>/events/public`. */
    function EventsOf(login: string): Response<seq<Event>>
    {
      if login in events then events[login] else Response(NOT_FOUND, [])
    }

    /** The answer to `GET /users/<login>/repos`. */
    function ReposOf(login: string): Response<seq<Repo>>
    {
      if login in repos then repos[login] else Response(NOT_FOUND, [])
    }
  }

  /** The search query: it holds the location and fixed terms, and no skill. */
  function QueryString(location: string): string
  {
    "created%3A<2017-01-01+location:" + location + "+developer&type=users&ref=advsearch"
  }

  /** Different locations give different queries, so no two locations share search results. */
  lemma QueryStringInjective(a: string, b: string)
    ensures QueryString(a) == QueryString(b) <==> a == b
  {
    if QueryString(a) == QueryString(b) {
      var pre := "created%3A<2017-01-01+location:";
      assert |a| == |b|;
      assert a == QueryString(a)[|pre|..|pre| + |a|];
      assert b == QueryString(b)[|pre|..|pre| + |b|];
    }
  }

  function SearchUrl(base: string, query: string, page: nat): string
  {
    base + "/search/users?q=" + query + "&page=" + Text.NatToString(page) + "&per_page=100"
  }

  function UserUrl(base: string, login: string): string
  {
    base + "/users/" + login
  }

  function EventsUrl(base: string, login: string): string
  {
    UserUrl(base, login) + "/events/public"
  }

  function ReposUrl(base: string, login: string): string
  {
    UserUrl(base, login) + "/repos"
  }

  /** The request headers: the token and the API version. */
  function Headers(token: string): map<string, string>
  {
    map["Authorization" := "token " + token, "Accept" := "application/vnd.github.v3+json"]
  }
}
