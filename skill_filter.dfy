/**
 * Which users `find_users_with_skills` keeps: those with a repository whose
 * lower-cased description contains a lower-cased skill, or whose topics hold
 * a lower-cased skill exactly.
 */
module SkillFilter {
  import opened Wrappers
  import opened GitHubApi
  import opened Text
  import opened Sequences

  /** `repo.get('topics', [])`. */
  function Topics(repo: Repo): seq<string>
  {
    if repo.topics.Some? then repo.topics.value else []
  }

  /** Some skill, lower-cased, is a substring of the text. */
  predicate AnySkillIn(skills: seq<string>, text: string)
  {
    exists k | 0 <= k < |skills| :: Contains(text, Lower(skills[k]))
  }

  /** Some skill, lower-cased, is an element of the topics (which are not lower-cased). */
  predicate AnySkillTopic(skills: seq<string>, topics: seq<string>)
  {
    exists k | 0 <= k < |skills| :: Lower(skills[k]) in topics
  }

  /** The outcome of the repository test as the source evaluates it. */
  datatype MatchOutcome = Matched(matched: bool) | RaisesTypeError

  /**
   * The repository test as written: `repo.get('description', '')` yields None
   * for a JSON-null description, which is left unlowered, and the first
   * `skill.lower() in None` then raises TypeError.
   */
  function RepoMatchesAsWritten(repo: Repo, skills: seq<string>): MatchOutcome
  {
    match repo.description
    case Null => if |skills| > 0 then RaisesTypeError else Matched(AnySkillTopic(skills, Topics(repo)))
    case Missing => Matched(AnySkillIn(skills, "") || AnySkillTopic(skills, Topics(repo)))
    case Text(d) => Matched(AnySkillIn(skills, Lower(d)) || AnySkillTopic(skills, Topics(repo)))
  }

  /** The description the test searches: the lower-cased text, or "" when it is missing or null. */
  function DescriptionText(repo: Repo): string
  {
    if repo.description.Text? then Lower(repo.description.text) else ""
  }

  /** The repository test as intended: a null description counts as empty. */
  predicate RepoMatches(repo: Repo, skills: seq<string>)
  {
    AnySkillIn(skills, DescriptionText(repo)) || AnySkillTopic(skills, Topics(repo))
  }

  /** A repository with a null description and any skill at all: the source raises TypeError. */
  lemma NullDescriptionRaises()
    ensures RepoMatchesAsWritten(Repo(Null, Some([])), ["AI"]) == RaisesTypeError
    ensures !RepoMatches(Repo(Null, Some([])), ["AI"])
  {
  }

  /** The source raises exactly on a null description with a non-empty skill list, and agrees with the intended test otherwise. */
  lemma AsWrittenAgreesOffNull(repo: Repo, skills: seq<string>)
    ensures RepoMatchesAsWritten(repo, skills) == RaisesTypeError <==> repo.description.Null? && |skills| > 0
    ensures RepoMatchesAsWritten(repo, skills) != RaisesTypeError ==>
      RepoMatchesAsWritten(repo, skills) == Matched(RepoMatches(repo, skills))
  {
  }

  /**
   * Under the intended test a repository without a description, missing or
   * null, matches by its topics alone, unless some skill is empty (the empty
   * string is in every string).
   */
  lemma NoDescriptionMatchesByTopics(repo: Repo, skills: seq<string>)
    requires !repo.description.Text?
    ensures RepoMatches(repo, skills) <==> AnySkillTopic(skills, Topics(repo)) || "" in skills
  {
    forall k | 0 <= k < |skills|
      ensures Contains("", Lower(skills[k])) <==> skills[k] == ""
    {
      ContainsEmpty("", Lower(skills[k]));
    }
  }

  /** The user is kept: the repository fetch succeeded and some repository matches. */
  predicate UserHasSkill(repos: Response<seq<Repo>>, skills: seq<string>)
  {
    repos.status == OK && exists r | 0 <= r < |repos.body| :: RepoMatches(repos.body[r], skills)
  }

  function SkillPicker(api: Api, skills: seq<string>): User -> Option<User>
  {
    (u: User) => if UserHasSkill(api.ReposOf(u.login), skills) then Some(u) else None
  }

  /** The users `find_users_with_skills` returns. */
  function SkilledUsers(api: Api, skills: seq<string>, users: seq<User>): seq<User>
  {
    Keep(users, SkillPicker(api, skills))
  }

  /**
   * The result is an order-preserving subsequence of the input using each
   * input position at most once; a user is in it exactly when it is in the
   * input and its repository fetch succeeded with a matching repository.
   */
  lemma SkilledUsersSpec(api: Api, skills: seq<string>, users: seq<User>)
    ensures |SkilledUsers(api, skills, users)| <= |users|
    ensures forall u :: u in SkilledUsers(api, skills, users) <==> u in users && UserHasSkill(api.ReposOf(u.login), skills)
    ensures
      var idx := KeptIndices(users, SkillPicker(api, skills));
      && |idx| == |SkilledUsers(api, skills, users)|
      && (forall k, l :: 0 <= k < l < |idx| ==> idx[k] < idx[l])
      && (forall k :: 0 <= k < |idx| ==> idx[k] < |users| && SkilledUsers(api, skills, users)[k] == users[idx[k]])
      && forall i :: 0 <= i < |users| && UserHasSkill(api.ReposOf(users[i].login), skills) ==> i in idx
  {
    var pick := SkillPicker(api, skills);
    var r := SkilledUsers(api, skills, users);
    var idx := KeptIndices(users, pick);
    forall u
      ensures u in r <==> u in users && UserHasSkill(api.ReposOf(u.login), skills)
    {
      if u in r {
        var k :| 0 <= k < |r| && r[k] == u;
        assert pick(users[idx[k]]) == Some(u);
      }
      if u in users && UserHasSkill(api.ReposOf(u.login), skills) {
        var i :| 0 <= i < |users| && users[i] == u;
        assert pick(users[i]).Some?;
        var k :| 0 <= k < |idx| && idx[k] == i;
        assert r[k] == u;
      }
    }
    forall i | 0 <= i < |users| && UserHasSkill(api.ReposOf(users[i].login), skills)
      ensures i in idx
    {
      assert pick(users[i]).Some?;
    }
  }

  /** With no skills nothing matches, so no user is kept. */
  lemma {:induction false} NoSkillsNoUsers(api: Api, users: seq<User>)
    ensures SkilledUsers(api, [], users) == []
  {
    if |users| > 0 {
      NoSkillsNoUsers(api, users[..|users| - 1]);
    }
  }
}
