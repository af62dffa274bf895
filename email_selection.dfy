/**
 * Which address `get_email_from_user` returns: the profile's email if it is
 * non-empty, otherwise the first non-empty commit author email in the public
 * events, scanning events in order and each event's commits in order.
 */
module EmailSelection {
  import opened Wrappers
  import opened GitHubApi

  /** Python truthiness of an optional string: present and non-empty. */
  predicate Truthy(e: Option<string>)
  {
    e.Some? && e.value != ""
  }

  /** `event.get('payload', {}).get('commits', [])`. */
  function Commits(e: Event): seq<Commit>
  {
    match e.payload
    case None => []
    case Some(p) => if p.commits.Some? then p.commits.value else []
  }

  /** `commit.get('author', {}).get('email')`. */
  function AuthorEmail(c: Commit): Option<string>
  {
    if c.author.Some? then c.author.value.email else None
  }

  /** The first non-empty author email among the commits, in order. */
  function FirstAuthorEmail(commits: seq<Commit>): (r: Option<string>)
  {
    if |commits| == 0 then None
    else if Truthy(AuthorEmail(commits[0])) then AuthorEmail(commits[0])
    else FirstAuthorEmail(commits[1..])
  }

  /** The first non-empty author email of the events' commits, events in order. */
  function FirstCommitEmail(events: seq<Event>): Option<string>
  {
    if |events| == 0 then None
    else if FirstAuthorEmail(Commits(events[0])).Some? then FirstAuthorEmail(Commits(events[0]))
    else FirstCommitEmail(events[1..])
  }

  /** The address `get_email_from_user` returns for this profile answer and events answer. */
  function SelectEmail(profile: Response<Profile>, events: Response<seq<Event>>): Option<string>
  {
    if profile.status != OK then None
    else if Truthy(profile.body.email) then profile.body.email
    else if events.status != OK then None
    else FirstCommitEmail(events.body)
  }

  /** The author email of commit j of event i. */
  function EmailAt(events: seq<Event>, i: nat, j: nat): Option<string>
    requires i < |events| && j < |Commits(events[i])|
  {
    AuthorEmail(Commits(events[i])[j])
  }

  /** Position (i, j) is a commit of the feed. */
  predicate InFeed(events: seq<Event>, i: int, j: int)
  {
    0 <= i < |events| && 0 <= j < |Commits(events[i])|
  }

  /** No commit before position (i, j) in scan order has a non-empty author email. */
  ghost predicate NoEmailBefore(events: seq<Event>, i: int, j: int)
  {
    forall i', j' :: InFeed(events, i', j') && (i' < i || (i' == i && j' < j)) ==> !Truthy(EmailAt(events, i', j'))
  }

  /** Within one event: the first match among the commits, stated by position. */
  lemma {:induction false} FirstAuthorEmailIsFirst(commits: seq<Commit>)
    ensures FirstAuthorEmail(commits).None? <==> forall j :: 0 <= j < |commits| ==> !Truthy(AuthorEmail(commits[j]))
    ensures FirstAuthorEmail(commits).Some? ==>
      exists j :: 0 <= j < |commits| && AuthorEmail(commits[j]) == FirstAuthorEmail(commits) && Truthy(AuthorEmail(commits[j]))
        && forall j' :: 0 <= j' < j ==> !Truthy(AuthorEmail(commits[j']))
  {
    if |commits| > 0 {
      FirstAuthorEmailIsFirst(commits[1..]);
      if !Truthy(AuthorEmail(commits[0])) && FirstAuthorEmail(commits[1..]).Some? {
        var j :| 0 <= j < |commits[1..]| && AuthorEmail(commits[1..][j]) == FirstAuthorEmail(commits[1..])
          && Truthy(AuthorEmail(commits[1..][j]))
          && forall j' :: 0 <= j' < j ==> !Truthy(AuthorEmail(commits[1..][j']));
        assert AuthorEmail(commits[j + 1]) == FirstAuthorEmail(commits);
        assert forall j' :: 0 <= j' < j + 1 ==> !Truthy(AuthorEmail(commits[j']));
      }
    }
  }

  /**
   * Across the feed: no email is found exactly when no commit of any event
   * carries a non-empty author email; otherwise the email found is that of
   * the first such commit in scan order.
   */
  lemma {:induction false} FirstCommitEmailIsFirst(events: seq<Event>)
    ensures FirstCommitEmail(events).None? <==> forall i, j :: InFeed(events, i, j) ==> !Truthy(EmailAt(events, i, j))
    ensures FirstCommitEmail(events).Some? ==>
      exists i, j :: InFeed(events, i, j) && EmailAt(events, i, j) == FirstCommitEmail(events)
        && Truthy(EmailAt(events, i, j)) && NoEmailBefore(events, i, j)
  {
    if |events| > 0 {
      var tail := events[1..];
      FirstCommitEmailIsFirst(tail);
      FirstAuthorEmailIsFirst(Commits(events[0]));
      assert forall i, j :: InFeed(tail, i, j) ==> InFeed(events, i + 1, j) && EmailAt(tail, i, j) == EmailAt(events, i + 1, j);
      assert forall i, j :: InFeed(events, i, j) && i > 0 ==> InFeed(tail, i - 1, j) && EmailAt(tail, i - 1, j) == EmailAt(events, i, j);
      if FirstAuthorEmail(Commits(events[0])).Some? {
        var j :| 0 <= j < |Commits(events[0])| && AuthorEmail(Commits(events[0])[j]) == FirstAuthorEmail(Commits(events[0]))
          && Truthy(AuthorEmail(Commits(events[0])[j]))
          && forall j' :: 0 <= j' < j ==> !Truthy(AuthorEmail(Commits(events[0])[j']));
        assert InFeed(events, 0, j) && EmailAt(events, 0, j) == FirstCommitEmail(events);
        assert NoEmailBefore(events, 0, j);
      } else if FirstCommitEmail(tail).Some? {
        var i, j :| InFeed(tail, i, j) && EmailAt(tail, i, j) == FirstCommitEmail(tail)
          && Truthy(EmailAt(tail, i, j)) && NoEmailBefore(tail, i, j);
        assert InFeed(events, i + 1, j) && EmailAt(events, i + 1, j) == FirstCommitEmail(events);
        assert NoEmailBefore(events, i + 1, j);
      }
    }
  }

  /**
   * The selection as a whole: a returned address is never empty; it is the
   * profile's when that is non-empty, and otherwise it is the author email of
   * the first commit with one in the feed. No address is returned when the
   * profile fetch fails, or when the profile has none and the events fetch
   * fails or no commit carries one.
   */
  lemma SelectEmailSpec(profile: Response<Profile>, events: Response<seq<Event>>)
    ensures SelectEmail(profile, events).Some? ==> SelectEmail(profile, events).value != ""
    ensures profile.status != OK ==> SelectEmail(profile, events) == None
    ensures profile.status == OK && Truthy(profile.body.email) ==> SelectEmail(profile, events) == profile.body.email
    ensures profile.status == OK && !Truthy(profile.body.email) ==>
      (SelectEmail(profile, events).None? <==>
        events.status != OK || forall i, j :: InFeed(events.body, i, j) ==> !Truthy(EmailAt(events.body, i, j)))
    ensures profile.status == OK && !Truthy(profile.body.email) && SelectEmail(profile, events).Some? ==>
      exists i, j :: InFeed(events.body, i, j) && EmailAt(events.body, i, j) == SelectEmail(profile, events)
        && NoEmailBefore(events.body, i, j)
  {
    FirstCommitEmailIsFirst(events.body);
  }
}
