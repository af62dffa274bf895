# GitHub email finder, modelled in Dafny

This project models `GitHubEmailFinder` from `github.py`, a script that finds
GitHub users by location and collects their e-mail addresses. The finder does
five things:

- It pages through the user search for one location.
- It looks up each user's address: the profile's `email` if it is non-empty,
  otherwise the first non-empty commit author email in the user's public events.
- It drops GitHub's `@users.noreply.github.com` placeholder addresses.
- It offers a filter (`find_users_with_skills`) that keeps users with a repository
  matching a skill keyword. The script's own pipeline never calls it.
- Its driver names an output file per location after the location and the skills.

The network is a value. `GitHubApi.Api` holds what the API answers: the result
pages of each search query, and the profile, public events and repositories of
each login. An unknown login, and any search page past the ones the value holds,
answer status 404. Each method of the finder is then a deterministic computation
over those answers.

The methods are imperative, like the source: a `while true` page loop with
`break`, nested `for` loops with early `return`, and a `for` loop with `break`.
Each one is proved against a specification function. The methods return the
URLs they request. This lets the contracts state which requests happen: pages
1, 2, 3, … with `per_page=100`, the events only when the profile has no address,
and one repositories request per user.

Modules:
- `Wrappers`: the optional value.
- `Text`: lower-casing, the substring test, `endswith`, `join` and decimal page numbers.
- `Sequences`: the filter-map idiom and the positions it keeps.
- `GitHubApi`: the JSON data, the API value, the query string and the URLs.
- `Pagination`, `EmailSelection`, `SkillFilter`: the specification of each component.
- `EmailFinder`: the class `GitHubEmailFinder`, the no-reply filter and the driver.

Where the code does other than its comments and names suggest, the model follows the code:
- The doc comment of `find_emails` promises "non-Gmail" addresses. The code only
  drops addresses ending in `@users.noreply.github.com`, and so does the model.
- The skills are meant to narrow the search, but the query string holds only the
  location. The `" OR "`-joined skill query is computed and never used, so no
  specification function of the search takes the skills.
- Repository topics are a list, tested by exact, case-sensitive membership
  against the lower-cased skill.

## Model

| member | source | states |
|---|---|---|
| `EmailFinder.GitHubEmailFinder.constructor` | github.py:20-28 | the skills are the given list, or the empty list when none (or an empty one) is given; the base URL and headers are fixed |
| `GitHubApi.QueryStringInjective` | github.py:38-40 | the query is built from the location alone; distinct locations give distinct queries |
| `Text.NatToStringRoundTrip` | github.py:48 | the page number in the search URL is rendered in decimal faithfully: reading it back gives the page number |
| `Pagination.StopPage` | github.py:47-62 | the loop's last request is the first page that failed or held fewer than 100 items; every earlier page succeeded and was full |
| `Pagination.SearchRequestsArePages` | github.py:48 | request i asks for page i + 1 of the same query with `per_page=100`, so pages are requested consecutively from 1 |
| `Pagination.CollectedLength` | github.py:56-62 | the pages before the stop page each contribute at least 100 users |
| `Pagination.FailedPageAddsNothing` | github.py:51-53 | a failed page ends the search and adds nothing; the result is the items of the full pages before it |
| `Pagination.LaterPagesIgnored` | github.py:59-60 | pages after the stop page are never consulted: appending more pages changes neither the stop page nor the result |
| `Pagination.StopPageIsFirst` | github.py:47-62 | any page that does not continue, with all earlier pages continuing, is the stop page |
| `Pagination.CollectedAgree` | github.py:56 | the collected items depend only on the answers for the pages requested |
| `Pagination.ThreePagesScenario` | github.py:47-63 | pages of 100, 100 and 30 users: three requests and 230 users |
| `EmailFinder.GitHubEmailFinder.SearchUsersByLocationAndSkills` | github.py:30-65 | returns the items of every successful page up to the stop page, concatenated in page order, and requests exactly pages 1 to the stop page |
| `EmailSelection.FirstAuthorEmailIsFirst` | github.py:86-90 | within one event, the address found is that of the first commit with a non-empty author email; none is found exactly when no commit has one |
| `EmailSelection.FirstCommitEmailIsFirst` | github.py:84-90 | across the events, the address found is that of the first commit with a non-empty author email in event order, then commit order; none is found exactly when no commit of any event has one |
| `EmailSelection.SelectEmailSpec` | github.py:71-91 | None when the profile fetch fails; the profile's address when it is non-empty; otherwise the first commit author address, or None when the events fetch fails or holds none; a returned address is never empty |
| `EmailFinder.GitHubEmailFinder.GetEmailFromUser` | github.py:67-91 | returns the selected address; requests the events only when the profile fetch succeeded without a non-empty address |
| `EmailFinder.GitHubEmailFinder.GetUserRepos` | github.py:93-102 | the repositories when the fetch succeeds, None otherwise |
| `Text.LowerIsLowerCase` | github.py:116 | lower-casing keeps the length, leaves no upper-case letter and is idempotent |
| `Text.ContainsEmpty` | github.py:118 | the empty string is in every string, and only the empty string is in the empty string |
| `Text.Join` | github.py:155 | the joined string has the length of the parts plus one separator between each two |
| `SkillFilter.NullDescriptionRaises` | github.py:114-118 | a repository with a null description and the skill "AI" makes the source raise TypeError; the intended test says it does not match |
| `SkillFilter.AsWrittenAgreesOffNull` | github.py:114-118 | the source raises exactly on a null description with a non-empty skill list, and otherwise agrees with the intended test |
| `SkillFilter.NoDescriptionMatchesByTopics` | github.py:114-118 | under the intended test, a repository without a description matches by its topics alone, unless some skill is empty |
| `Sequences.KeptIndices` | github.py:108-121 | the kept elements come from strictly increasing input positions, one per output element, covering every position that is kept |
| `SkillFilter.SkilledUsersSpec` | github.py:108-121 | the kept users are an order-preserving subsequence of the input, each position used at most once; a user is kept exactly when its repository fetch succeeded and some repository matches, and every input position with such a user is kept |
| `SkillFilter.NoSkillsNoUsers` | github.py:118 | with no skills, no user is kept |
| `EmailFinder.GitHubEmailFinder.FindUsersWithSkills` | github.py:104-121 | returns the kept users in input order, each input position kept at most once (the `break` at the first matching repository), with one repositories request per user |
| `EmailFinder.CollectedEmailsSpec` | github.py:136-145 | at most one address per user, in user order; every address is non-empty and does not end with the no-reply suffix; a user contributes exactly when its selected address is such an address |
| `EmailFinder.TwoUserScenario` | github.py:123-145 | one page of two users with the addresses "a@x.com" and "b@users.noreply.github.com" gives exactly ["a@x.com"] |
| `EmailFinder.GitHubEmailFinder.FindEmails` | github.py:123-145 | returns the addresses collected from the users the search finds for the finder's location; the skills play no part |
| `EmailFinder.OutputPathInjective` | github.py:155-165 | with the skills fixed, two locations share an output file exactly when they are equal |
| `EmailFinder.FindEmailsForLocations` | github.py:148-166 | one output file per location, in order, named after the location and the skills joined by " _ ", holding that location's addresses |

## Left out

- HTTP requests, the headers sent with them, timeouts and `response.json()` are not modelled. Each request is a lookup in the `Api` value, which holds the decoded answers.
- Transport exceptions are not modelled.
- The `KeyError` for a search answer without `items`, or an item without `login`, is not modelled: the types make both fields present.
- A successful answer whose JSON has another shape than expected is not modelled.
- A JSON-null `payload`, `commits`, `author` or `topics` (which would raise in the source) is not modelled. An absent key is modelled as the source handles it.
- The API is one snapshot: asking twice for the same login gives the same answer.
- Unbounded pagination is not modelled. The `Api` value holds a finite list of pages per query, and pages past it answer 404, so the model's loop always ends. The source loops for ever if the API keeps returning full pages.
- `time.sleep`, `print`, `os.makedirs`, `json.dump` and the file write are timing and I/O. The driver returns, for each location, the path and the addresses it would write.
- The hard-coded `locations` list and the token are parameters of the driver.
- `Text.Lower`: maps only ASCII letters, where Python's `str.lower` also maps non-ASCII letters.
- URLs are the f-string text. The URL encoding that `requests` applies is not modelled.

## Findings

| source | as written | input that shows it | evidently intended | confidence | as-written member | corrected member |
|---|---|---|---|---|---|---|
| github.py:114-118 | `repo.get('description', '')` returns None for a JSON-null description. `if description:` then skips lowering. `skill.lower() in description` raises TypeError, which propagates out of `find_users_with_skills` uncaught (the script itself never calls that method). | a repository whose `description` is null, with the skills `["AI"]` | a null description counts as an empty one, as the comments at lines 113 and 115 say | high; not executed | `SkillFilter.RepoMatchesAsWritten`, shown by `SkillFilter.NullDescriptionRaises` | `SkillFilter.RepoMatches`, with `SkillFilter.NoDescriptionMatchesByTopics`; `SkillFilter.SkilledUsers` uses it |
