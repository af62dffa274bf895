/**
 * The finder object and the script's driver: search a location, look up each
 * user's address, keep the ones that are not no-reply addresses, and name the
 * output file after the location and the skills.
 */
module EmailFinder {
  import opened Wrappers
  import opened Text
  import opened Sequences
  import opened GitHubApi
  import opened Pagination
  import opened EmailSelection
  import opened SkillFilter

  /** The domain of the placeholder addresses GitHub hands out; these are dropped. */
  const NOREPLY_SUFFIX := "@users.noreply.github.com"

  /** The skills the driver configures for every location. */
  const MAIN_SKILLS := ["AI", "ML", "Machine Learning", "MLOps", "LLMs", "Artificial Intelligence"]

  /** An address the finder keeps: non-empty and not a no-reply address. */
  predicate Deliverable(e: Option<string>)
  {
    Truthy(e) && !EndsWith(e.value, NOREPLY_SUFFIX)
  }

  /** The address selected for one user from the API's answers. */
  function UserEmail(api: Api, login: string): Option<string>
  {
    SelectEmail(api.ProfileOf(login), api.EventsOf(login))
  }

  function EmailPicker(api: Api): User -> Option<string>
  {
    (u: User) => if Deliverable(UserEmail(api, u.login)) then Some(UserEmail(api, u.login).value) else None
  }

  /** The addresses `find_emails` collects from these users, in user order. */
  function CollectedEmails(api: Api, users: seq<User>): seq<string>
  {
    Keep(users, EmailPicker(api))
  }

  /** The users the search returns for a location. */
  function LocationUsers(api: Api, location: string): seq<User>
  {
    SearchResult(api.SearchPages(QueryString(location)))
  }

  /** The addresses `find_emails` returns for a location; the skills play no part. */
  function LocationEmails(api: Api, location: string): seq<string>
  {
    CollectedEmails(api, LocationUsers(api, location))
  }

  /**
   * At most one address per user, in user order; every address is non-empty
   * and does not end with the no-reply suffix; a user contributes exactly
   * when its selected address is such an address.
   */
  lemma CollectedEmailsSpec(api: Api, users: seq<User>)
    ensures |CollectedEmails(api, users)| <= |users|
    ensures forall e :: e in CollectedEmails(api, users) ==> e != "" && !EndsWith(e, NOREPLY_SUFFIX)
    ensures
      var idx := KeptIndices(users, EmailPicker(api));
      var r := CollectedEmails(api, users);
      && |idx| == |r|
      && (forall k, l :: 0 <= k < l < |idx| ==> idx[k] < idx[l])
      && (forall k :: 0 <= k < |idx| ==> idx[k] < |users| && UserEmail(api, users[idx[k]].login) == Some(r[k]))
      && forall i :: 0 <= i < |users| && Deliverable(UserEmail(api, users[i].login)) ==> i in idx
  {
    var pick := EmailPicker(api);
    var r := CollectedEmails(api, users);
    var idx := KeptIndices(users, pick);
    forall e | e in r
      ensures e != "" && !EndsWith(e, NOREPLY_SUFFIX)
    {
      var k :| 0 <= k < |r| && r[k] == e;
      assert pick(users[idx[k]]) == Some(e);
    }
    forall i | 0 <= i < |users| && Deliverable(UserEmail(api, users[i].login))
      ensures i in idx
    {
      assert pick(users[i]).Some?;
    }
  }

  /** One page of two users whose profiles give "a@x.com" and a no-reply address: only "a@x.com" is returned. */
  lemma TwoUserScenario(location: string)
    ensures
      var alice := User("alice", "");
      var bob := User("bob", "");
      var api := Api(
        map[QueryString(location) := [Response(OK, [alice, bob])]],
        map["alice" := Response(OK, Profile(Some("a@x.com"))),
            "bob" := Response(OK, Profile(Some("b@users.noreply.github.com")))],
        map[], map[]);
      LocationEmails(api, location) == ["a@x.com"]
  {
    var alice := User("alice", "");
    var bob := User("bob", "");
    var api := Api(
      map[QueryString(location) := [Response(OK, [alice, bob])]],
      map["alice" := Response(OK, Profile(Some("a@x.com"))),
          "bob" := Response(OK, Profile(Some("b@users.noreply.github.com")))],
      map[], map[]);
    var pages := api.SearchPages(QueryString(location));
    assert pages == [Response(OK, [alice, bob])];
    StopPageIsFirst(pages, 1);
    assert Collected(pages, 1) == [] + [alice, bob];
    assert LocationUsers(api, location) == [alice, bob];
    var noreply := "b@users.noreply.github.com";
    assert noreply[|noreply| - |NOREPLY_SUFFIX|..] == NOREPLY_SUFFIX;
    assert !Deliverable(UserEmail(api, "bob"));
    assert Deliverable(UserEmail(api, "alice"));
    var pick := EmailPicker(api);
    assert pick(alice) == Some("a@x.com");
    assert pick(bob) == None;
    assert [alice, bob][..1] == [alice];
    assert [alice][..0] == [];
    assert Keep([alice], pick) == ["a@x.com"];
    assert Keep([alice, bob], pick) == ["a@x.com"];
  }

  /** The file the driver writes a location's addresses to. */
  function OutputPath(location: string, skills: seq<string>): string
  {
    "new/" + location + "_" + Join(skills, " _ ") + "_emails.json"
  }

  /** With the skills fixed, two locations share an output file exactly when they are equal: only a repeated location overwrites a file. */
  lemma OutputPathInjective(a: string, b: string, skills: seq<string>)
    ensures OutputPath(a, skills) == OutputPath(b, skills) <==> a == b
  {
    if OutputPath(a, skills) == OutputPath(b, skills) {
      assert |a| == |b|;
      assert a == OutputPath(a, skills)[4..4 + |a|];
      assert b == OutputPath(b, skills)[4..4 + |b|];
    }
  }

  /** What the driver writes for one location. */
  datatype OutputFile = OutputFile(path: string, emails: seq<string>)

  class GitHubEmailFinder {
    const token: string
    const location: string
    const skills: seq<string>
    const apiUrl: string
    const headers: map<string, string>

    /** `skills` falls back to the empty list when it is None or empty. */
    constructor (token: string, location: string, skills: Option<seq<string>>)
      ensures this.token == token && this.location == location
      ensures this.skills == (if skills.Some? then skills.value else [])
      ensures apiUrl == API_URL && headers == Headers(token)
    {
      this.token := token;
      this.location := location;
      this.skills := if skills.Some? && |skills.value| > 0 then skills.value else [];
      this.apiUrl := API_URL;
      this.headers := Headers(token);
    }

    /**
     * Pages through the search for this location: the result is the items of
     * every successful page up to the first failed or short page, in page
     * order, and the requests are pages 1, 2, ... up to that page.
     */
    method SearchUsersByLocationAndSkills(api: Api) returns (users: seq<User>, requested: seq<string>)
      ensures users == LocationUsers(api, location)
      ensures requested == SearchRequests(apiUrl, QueryString(location), StopPage(api.SearchPages(QueryString(location))))
    {
      users := [];
      requested := [];
      var page: nat := 1;
      var queryString := QueryString(location);
      ghost var pages := api.SearchPages(queryString);
      while true
        invariant 1 <= page <= StopPage(pages)
        invariant users == Collected(pages, page - 1)
        invariant requested == SearchRequests(apiUrl, queryString, page - 1)
        decreases StopPage(pages) - page
      {
        var searchUrl := SearchUrl(apiUrl, queryString, page);
        requested := requested + [searchUrl];
        var response := PageAt(api.SearchPages(queryString), page);
        if response.status != OK {
          break;
        }
        users := users + response.body;
        if |response.body| < PER_PAGE {
          break;
        }
        page := page + 1;
      }
    }

    /**
     * The profile's address if non-empty, otherwise the first non-empty
     * commit author address in the public events; the events are requested
     * only when the profile fetch succeeded without an address.
     */
    method GetEmailFromUser(api: Api, username: string) returns (email: Option<string>, requested: seq<string>)
      ensures email == SelectEmail(api.ProfileOf(username), api.EventsOf(username))
      ensures requested == [UserUrl(apiUrl, username)] +
        (if api.ProfileOf(username).status == OK && !Truthy(api.ProfileOf(username).body.email)
         then [EventsUrl(apiUrl, username)] else [])
    {
      requested := [UserUrl(apiUrl, username)];
      var response := api.ProfileOf(username);
      if response.status == OK {
        var userData := response.body;
        if Truthy(userData.email) {
          return userData.email, requested;
        }
        requested := requested + [EventsUrl(apiUrl, username)];
        var eventsResponse := api.EventsOf(username);
        if eventsResponse.status == OK {
          var eventsData := eventsResponse.body;
          for i := 0 to |eventsData|
            invariant FirstCommitEmail(eventsData) == FirstCommitEmail(eventsData[i..])
          {
            var commits := Commits(eventsData[i]);
            for j := 0 to |commits|
              invariant FirstAuthorEmail(commits) == FirstAuthorEmail(commits[j..])
            {
              var authorEmail := AuthorEmail(commits[j]);
              if Truthy(authorEmail) {
                return authorEmail, requested;
              }
            }
          }
        }
      }
      email := None;
    }

    /** The repositories when the fetch succeeds, and None otherwise. */
    method GetUserRepos(api: Api, username: string) returns (repos: Option<seq<Repo>>)
      ensures repos.Some? <==> api.ReposOf(username).status == OK
      ensures repos.Some? ==> repos.value == api.ReposOf(username).body
    {
      var response := api.ReposOf(username);
      if response.status == OK {
        return Some(response.body);
      }
      return None;
    }

    /**
     * Keeps, in order, each user one of whose repositories matches a skill,
     * stopping at that user's first matching repository; one repositories
     * request per user.
     */
    method FindUsersWithSkills(api: Api, users: seq<User>, skills: seq<string>) returns (skilledUsers: seq<User>, requested: seq<string>)
      ensures skilledUsers == SkilledUsers(api, skills, users)
      ensures |requested| == |users|
      ensures forall i :: 0 <= i < |users| ==> requested[i] == ReposUrl(apiUrl, users[i].login)
    {
      skilledUsers := [];
      requested := [];
      for i := 0 to |users|
        invariant skilledUsers == SkilledUsers(api, skills, users[..i])
        invariant |requested| == i
        invariant forall i' :: 0 <= i' < i ==> requested[i'] == ReposUrl(apiUrl, users[i'].login)
      {
        var user := users[i];
        requested := requested + [ReposUrl(apiUrl, user.login)];
        var repos := GetUserRepos(api, user.login);
        assert users[..i + 1][..i] == users[..i];
        if repos.Some? && |repos.value| > 0 {
          for r := 0 to |repos.value|
            invariant forall r' :: 0 <= r' < r ==> !RepoMatches(repos.value[r'], skills)
            invariant skilledUsers == SkilledUsers(api, skills, users[..i])
          {
            if RepoMatches(repos.value[r], skills) {
              skilledUsers := skilledUsers + [user];
              break;
            }
          }
        }
      }
      assert users[..|users|] == users;
    }

    /** The deliverable addresses of the users the search finds for this location, in user order. */
    method FindEmails(api: Api) returns (emails: seq<string>)
      ensures emails == LocationEmails(api, location)
    {
      var users, _ := SearchUsersByLocationAndSkills(api);
      emails := [];
      for i := 0 to |users|
        invariant emails == CollectedEmails(api, users[..i])
      {
        var email, _ := GetEmailFromUser(api, users[i].login);
        assert users[..i + 1][..i] == users[..i];
        if Deliverable(email) {
          emails := emails + [email.value];
        }
      }
      assert users[..|users|] == users;
    }
  }

  /** The driver: one finder per location with the fixed skills, and one output file per location. */
  method FindEmailsForLocations(token: string, locations: seq<string>, api: Api) returns (files: seq<OutputFile>)
    ensures |files| == |locations|
    ensures forall i :: 0 <= i < |locations| ==>
      files[i] == OutputFile(OutputPath(locations[i], MAIN_SKILLS), LocationEmails(api, locations[i]))
  {
    files := [];
    for i := 0 to |locations|
      invariant |files| == i
      invariant forall i' :: 0 <= i' < i ==>
        files[i'] == OutputFile(OutputPath(locations[i'], MAIN_SKILLS), LocationEmails(api, locations[i']))
    {
      var location := locations[i];
      var skills := MAIN_SKILLS;
      var skillsScript := Join(skills, " _ ");
      var finder := new GitHubEmailFinder(token, location, Some(skills));
      var emails := finder.FindEmails(api);
      files := files + [OutputFile("new/" + location + "_" + skillsScript + "_emails.json", emails)];
    }
  }
}
