# edX enrollments voice skill, modelled in Dafny

This project models the core of the edX voice skill in `enrollments/enrollments.py`. The skill has three parts:

- It builds the learner's enrollment set from the LMS enrollment listing.
- It joins that set with course-run titles from the catalog.
- Its intent handlers turn those results and the conversation's session into spoken responses.

Every upstream REST call is an input of type `Upstream<T>`: either `Answered(body)` or `Failed`. A handler returns a `Turn` that records two things:

- the upstream calls it made, as `Call` values;
- its reply, which is either a spoken `Response` or `Uncaught`, for an exception that no handler catches.

The modules are:

- `Wrappers` (`wrappers.dfy`): the `Option`, `Result` and `Upstream` datatypes.
- `Text` (`text.dfy`): how counts are rendered in decimal, the comma-joined key list, and runs of `<p>…</p>` elements. Each comes with a reader that proves it can be read back.
- `EnrollmentService` (`enrollment_service.dfy`):
  - The enrollment set, modelled as a dict that keeps insertion order (`EnrollmentMap`, with its validity subset `EnrollmentSet`).
  - `get_enrollments` and the title join of `get_course_names`. The join is a loop over the course runs, proved equal to the fold `Enrich`.
  - The loop that appends titles to the speech.
  - The search parameters and the enrollment-change body.
- `Skill` (`skill.dfy`):
  - The response shapes.
  - The `Session` class. Its attribute map is the only state kept between turns.
  - One member per handler. The turn of each of the four handlers whose turn depends on upstream answers or the session is described by a predicate (`CountTurn`, `YesTurn`, `ListTurn`, `SearchTurn`) over the turn and the session attributes before and after it.
  - `Dispatch`, which routes an intent to its handler. `Handled` ties each intent to its handler's turn. The lemmas `SessionGuarantees` and `ReplyGuarantees` prove from `Handled` the guarantees that hold across handlers, and `Dispatch` states them too.

## Model

| member | source | states |
|---|---|---|
| Text.NatToString | enrollments/enrollments.py:141-142 | the spoken count is a non-empty string of decimal digits with no leading zero |
| Text.NatToStringRoundTrip | enrollments/enrollments.py:141-142 | reading the rendered digits back gives the count again |
| Text.NatToStringInjective | enrollments/enrollments.py:141-142 | two different counts never render alike |
| Text.SplitJoinRoundTrip | enrollments/enrollments.py:77 | splitting the comma-joined key list on ',' gives back the keys, in order, when there is at least one key and none contains a comma |
| Text.ParagraphsRoundTrip | enrollments/enrollments.py:237-238 | the run of `<p>` elements reads back as exactly the listed titles, in order, when no title contains '<' |
| Text.AppendParagraphs | enrollments/enrollments.py:273-274 | the append loop leaves the prefix followed by one `<p>` element per item, in order |
| EnrollmentService.Assign | enrollments/enrollments.py:68 | storing under a key updates that record only; an existing key keeps its place and a new key goes last |
| EnrollmentService.FromCourseIds | enrollments/enrollments.py:68 | the keys are exactly the listed course ids, and every record is empty (untitled) |
| EnrollmentService.FromCourseIdsOrder | enrollments/enrollments.py:68 | the set iterates its keys in the order of their first occurrence in the listing |
| EnrollmentService.CountIsDistinctIds | enrollments/enrollments.py:134 | the enrollment count is the number of distinct course ids, so repeated ids collapse |
| EnrollmentService.GetEnrollments | enrollments/enrollments.py:65-72 | the result is an `APIError` exactly when the listing call fails; otherwise the keys are exactly the listed course ids, none of them titled |
| EnrollmentService.SetTitle | enrollments/enrollments.py:83-85 | setting a title changes only the record under that key and keeps the order |
| EnrollmentService.EnrichFailsIff | enrollments/enrollments.py:82-85 | the join fails exactly when some catalog result names a key outside the set, and it reports the first such key |
| EnrollmentService.EnrichTitles | enrollments/enrollments.py:82-85 | a successful join keeps the keys and their order; a key named in the catalog gets the title of its last result, and every other record is untouched |
| EnrollmentService.EnrichIdempotent | enrollments/enrollments.py:82-85 | joining a second time with the same catalog answer changes nothing |
| EnrollmentService.GetCourseNames | enrollments/enrollments.py:75-87 | the key list sent is the comma-joined keys in iteration order; a failed catalog call and an unknown key both escape; otherwise the loop over the course runs gives the join |
| EnrollmentService.Titles | enrollments/enrollments.py:237-238 | the titles in iteration order, one per key |
| EnrollmentService.FirstUntitled | enrollments/enrollments.py:238 | the key that the title loop fails on is untitled, and every key before it is titled |
| EnrollmentService.AppendTitles | enrollments/enrollments.py:237-238 | the loop succeeds exactly when every record is titled, and then appends one `<p>` per title in iteration order; otherwise it fails at the first untitled key |
| EnrollmentService.SearchParams | enrollments/enrollments.py:90-99 | the search sends exactly the six parameters partner, end__gt, content_type, page, page_size and q, with the query in q |
| EnrollmentService.SearchFiltersFixed | enrollments/enrollments.py:91-98 | the filters do not depend on the query: edX partner, current course runs, first page of ten |
| EnrollmentService.ChangeEnrollmentRoundTrip | enrollments/enrollments.py:102-111 | the posted body reads back as an audit-mode change of exactly the given course and active flag |
| EnrollmentService.EnrollUserBody | enrollments/enrollments.py:117-118 | enrolling posts an activation of the fixed voting course |
| Skill.CountedDeterminesCount | enrollments/enrollments.py:140-142 | two speeches that agree around the counted phrase state the same count |
| Skill.CountedWording | enrollments/enrollments.py:140 | the singular word follows the count exactly when the count is one |
| Skill.CountQuestionStatesCount | enrollments/enrollments.py:140-142 | the count question states its count unambiguously |
| Skill.CountQuestionExample | enrollments/enrollments.py:141-142 | two enrollments are spoken as "2 courses" |
| Skill.ListSpeechStatesCount | enrollments/enrollments.py:233-235 | two listings that read alike name the same number of courses |
| Skill.SearchSpeechStatesCount | enrollments/enrollments.py:269-271 | for one subject, two search answers that read alike found the same number of courses |
| Skill.SearchSpeechExample | enrollments/enrollments.py:266-267 | a search that finds nothing says "I found no courses about data science" for that subject |
| Skill.SearchTitles | enrollments/enrollments.py:273-274 | one title per search result, in the order of the results |
| Skill.Launch | enrollments/enrollments.py:55-62 | a question that re-prompts with itself; with a token it invites a request under a simple card, and without one it asks for login under a link-account card |
| Skill.Help | enrollments/enrollments.py:281-284 | a statement suggesting the enrollment count, shown on the app's card |
| Skill.About | enrollments/enrollments.py:248-258 | a question giving the founding and the mission, closed by the re-prompt, which is also the reprompt |
| Skill.Unenroll | enrollments/enrollments.py:171-175 | always the same refusal statement |
| Skill.End | enrollments/enrollments.py:191-198 | help on a new session, otherwise the statement "Okay" on the app's simple card |
| Skill.Enroll | enrollments/enrollments.py:152-168 | no post without a token, and then the login statement; otherwise one post for the fixed course, answered by the confirmation question or, on failure, the retry statement |
| Skill.Enrollments | enrollments/enrollments.py:125-149 | no call without a token; one listing call otherwise; a failure gives the retry statement, zero enrollments give the not-enrolled statement, and neither writes the session; N ≥ 1 gives the count question and stores the set |
| Skill.ContinueInteraction | enrollments/enrollments.py:201-214 | help on a new session; without a stored set, a `KeyError` escapes; otherwise one catalog lookup for the stored keys; a failure or an untitled record escapes with the session untouched; success lists the titles and keeps the titled set in the session |
| Skill.ListEnrollments | enrollments/enrollments.py:217-245 | no call without a token; an LMS failure gives the retry statement; a catalog failure, an unknown course-run key or an untitled record escapes; zero enrollments give the not-enrolled statement when the catalog answers with no course runs; otherwise the count header and one `<p>` per title; the session is never written |
| Skill.Search | enrollments/enrollments.py:261-278 | one catalog search with the fixed filters; a failure escapes; otherwise the no-courses statement or the counted header and one `<p>` per result |
| Skill.SessionGuarantees | enrollments/enrollments.py:125-245 | for every intent's turn: the session is written only by a count or a yes that answers with a question; an escaped exception writes nothing; a stored set stays non-empty |
| Skill.ReplyGuarantees | enrollments/enrollments.py:125-245 | for every intent's turn: (1) no LMS call is made without the learner's token; (2) the token-checking intents share the login path and the retry message; (3) N = 0 gives the not-enrolled message for count, and for list when the catalog answers with no course runs; (4) unenroll always refuses; (5) cancel, no and yes on a new session give help; (6) a yes on a session that is not new and has no stored set escapes |
| Skill.Dispatch | enrollments/enrollments.py:55-284 | each intent gets exactly its handler's turn, with the session attributes that turn leaves: the fetched set after a count with N ≥ 1, the titled set after a yes that answers, and the same attributes after every other turn; the guarantees of the two rows above hold for the dispatched turn |

## Left out

- Flask and flask-ask wiring are not modelled: the app objects, decorators, logging, `app.run`, and the empty HTTP answer of `session_ended`.
- Configuration read from the environment and the OAuth service-token fetch, including its per-request cache, are not modelled. Both are process I/O. The learner's token is an input of `Session`.
- The REST client and its HTTP calls are replaced by `Upstream` inputs. A transport error, an HTTP error status and a malformed payload all become `Failed`.
- Cards are recorded only as a title and content or as a link-account card. Speech is plain text, with no SSML meaning.
- The code after the early return in `unenroll` is dead and is not modelled. The same holds for `unenroll_user`, which only that dead code calls.
- The server-side meaning of the search filters is not modelled. The model builds the literal parameter map only.
- The search `subject` slot is a string. The case where the platform delivers no slot value is not modelled.
- Python dict iteration order is taken to be insertion order, as in Python 3.7 and later. The comma-joined key list and the spoken list both follow it.
- The stored set also passes through the voice platform as JSON session attributes between the count turn and the "yes" turn. The model assumes its key order survives that round trip, and the spoken list of the "yes" turn depends on that order.
- EnrollmentService.GetCourseNames: the in-place update of the enrollment dict is modelled as a loop that rebinds a set value. Aliasing of that dict is not modelled.
- Skill.ContinueInteraction: the in-place update of the dict held in the session is modelled as an explicit write-back of the titled set, made only when the turn answers. Aliasing itself is not modelled.

## Where the code and the design differ

The model follows the code in each case below.

- **Catalog failures are not caught.** The design says every upstream failure gives the retry message. In the code, `get_course_names` and `search_catalog` do not turn failures into `APIError`. A catalog failure therefore escapes from `list_enrollments`, `continue_interaction` and `search` (`Escaped(CatalogUnavailable)`).
- **Zero enrollments can still crash the listing.** `list_enrollments` calls the catalog with an empty key list before it checks the count. With zero enrollments, a catalog failure or a course run whose key is not in the (empty) set escapes instead of giving the not-enrolled message.
- **Unknown catalog keys fail the join.** The design says a key that is absent from the catalog keeps no title. In the code, a catalog result whose key is not in the set raises `KeyError` (`UnknownCourseRun`). A record the catalog did not title also raises `KeyError` when its title is spoken (`MissingTitle`).
- **A "yes" needs a stored set.** A "yes" on a session that is not new and has no stored set raises `KeyError` (`MissingSessionEnrollments`).
