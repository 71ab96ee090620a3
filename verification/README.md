# songpt client core, modelled in Dafny

songpt builds a playlist from two services. A language model suggests song titles for a
theme (seed songs or keywords). A music catalogue resolves those titles to tracks and
creates the playlist. This project models the deterministic layer of the two client
modules as pure functions:

- the argument checks that reject bad input before any request is made;
- the prompt and request payloads the clients build;
- how the clients interpret the replies.

Every upstream exchange is a parameter. A reply is the parsed JSON body, or `None` when
the request, or the reading of its body, threw. What `JSON.parse` gives for the model's
message content is also a parameter (`None` when it throws). Every operation returns
`Traced(result, calls)`. `result` is `Ok(value)` or `Err(e)`, with one error per distinct
message the source throws. `calls` lists the upstream requests issued, in order.

Modules:

- `Outcomes` (outcomes.dfy): `Option`, `Result`, `Traced`.
- `Json` (json.dfy): the parsed-JSON value and the JavaScript operators the clients apply
  to it: truthiness, `?.key`, `?.[0]` and `?.length === 0`. `undefined` is `None`.
- `Text` (text.dfy): `join(",")` and `split`, which undoes it for non-empty lists of
  comma-free pieces, and the decimal rendering of the count in a template literal, with
  its inverse.
- `OpenAI` (openai.dfy): `src/openai.js`.
- `Spotify` (spotify.dfy): `src/spotify.js`.

Notes on the source's behaviour:

- the default model is `"gpt-3.5-turbo"`;
- track URIs start with `spotify:track:`;
- the token calls return a missing `access_token` as `undefined` rather than failing;
- a search reply without `tracks` is a search failure;
- the "no response when adding tracks" check can never fire (see Left out);
- a search reply whose `tracks` has no `items` is returned as `undefined`, and resolving a
  title then fails with a JavaScript `TypeError` (`Spotify.Error.TypeError`), not with the
  client's own errors.

## Model

| member | source | states |
|---|---|---|
| Text.SplitJoin | src/openai.js:16 | joining comma-free titles with "," can be undone by splitting, so the joined list determines the titles |
| Text.DecimalRoundTrip | src/openai.js:4 | the count renders as a non-empty string of digits whose value is the count, with no leading zero unless it is the single digit "0" (for the counts JavaScript prints in plain digits, see Left out) |
| Text.IntToDecimalInjective | src/openai.js:4 | distinct counts render as distinct strings |
| OpenAI.CountSentence | src/openai.js:4 | the count sentence is "Generate a list of ", the count in decimal, then " songs that fit the same category."; a non-negative count appears as digits whose value is the count, a negative one as "-" followed by the digits of its magnitude, and in both cases the digits carry no leading zero unless the magnitude is 0 |
| OpenAI.SongsPrompt | src/openai.js:15-18 | the songs prompt is the main list prompt, the existing-songs prompt, the titles joined with "," (the exact text between the fixed parts, for every title list, commas inside titles included), then ". ", the count sentence and the return-format instruction, space-separated; for a non-empty list of comma-free titles, splitting the part between the fixed texts at "," gives the titles back |
| OpenAI.KeywordsPromptFor | src/openai.js:28-30 | the keywords prompt has the same frame with the keywords prompt as introduction, and the part between the fixed texts is exactly the keyword string |
| OpenAI.SongsPromptDeterminesTitles | src/openai.js:15-18 | different non-empty lists of comma-free seed titles give different prompts |
| OpenAI.KeywordsPromptDeterminesKeywords | src/openai.js:28-30 | different keyword strings give different prompts |
| OpenAI.PromptDeterminesCount | src/openai.js:4 | for the same basis, different counts give different prompts |
| OpenAI.KeepSuggestions | src/openai.js:104 | the filter keeps only non-empty strings and never lengthens the list |
| OpenAI.KeepSuggestionsAppend | src/openai.js:104 | filtering a concatenation is the concatenation of the filtered parts |
| OpenAI.KeptAreExactlyTheSuggestions | src/openai.js:104 | a string is in the output if and only if it is non-empty and occurs in the parsed array |
| OpenAI.KeepSuggestionsIsOrderedSelection | src/openai.js:104 | the output is the parsed array read at strictly increasing positions, each holding the corresponding string |
| OpenAI.SuggestionPositionsComplete | src/openai.js:104 | every position of the parsed array holding a non-empty string is among the selected positions |
| OpenAI.KeepSuggestionsKeepsSuggestions | src/openai.js:104 | a list of non-empty strings passes the filter unchanged |
| OpenAI.KeepSuggestionsIdempotent | src/openai.js:104 | filtering the filtered list again changes nothing |
| OpenAI.KeepSuggestionsExample | src/openai.js:104 | `["Song A", "", null, "Song B", 42]` filters to `["Song A", "Song B"]` |
| OpenAI.GenerateSuggestions | src/openai.js:67-108 | no request is made exactly when an argument check fails; otherwise exactly one request with the prompt, key and effective model; once the checks pass, a failed request is the call error, falsy content the invalid-response error, and content that does not parse to an array the parse error; success exactly when none of these happens; every suggestion is non-empty |
| OpenAI.FirstFailingCheckDecides | src/openai.js:73-87 | the checks run in the order key, prompt, count (below 1), model, and the first failing one decides the error whatever the reply |
| OpenAI.MissingContentIsInvalidResponse | src/openai.js:96-98 | a reply without truthy `choices[0].message.content`, the empty string included, is the invalid-response error, not the parse error |
| OpenAI.UnusableContentIsParseError | src/openai.js:100-107 | content that does not parse, or parses to a non-array, is the parse error |
| OpenAI.SuccessIsFilteredArray | src/openai.js:102-104 | on success the suggestions are exactly the non-empty strings of the parsed array, in order, at most as many as the array holds |
| OpenAI.CountIsNotEnforced | src/openai.js:103-104 | the result is not truncated to the requested count: asking for one can give two |
| OpenAI.SuggestionsBasedOnSongs | src/openai.js:118-135 | an empty title list is rejected before any prompt or request; otherwise the outcome is that of the one-round-trip operation with the songs prompt built with the effective count and the caller's count and model, so its checks, request, errors and filtered result all carry over, and the empty-prompt error cannot occur |
| OpenAI.SuggestionsBasedOnKeywords | src/openai.js:145-162 | an empty keyword string is rejected before any prompt or request; otherwise the outcome is that of the one-round-trip operation with the keywords prompt built with the effective count and the caller's count and model, so its checks, request, errors and filtered result all carry over, and the empty-prompt error cannot occur |
| OpenAI.DefaultsApply | src/openai.js:118-153 | leaving out the count and the model is the same as passing 10 and "gpt-3.5-turbo" |
| Spotify.AccessToken | src/spotify.js:7-28 | empty credentials are rejected with no request; otherwise one client-credentials request; a failed request is the token-call error, it fails in no other way, and otherwise returns the reply's `access_token` |
| Spotify.AccountAccessToken | src/spotify.js:37-63 | credentials, then refresh token, are checked before any request; otherwise one refresh-token request carrying that token; a failed request is the token-call error, it fails in no other way, and otherwise returns the reply's `access_token` |
| Spotify.AbsentTokenIsNotAnError | src/spotify.js:23-59 | a reply without `access_token` gives `undefined` from both token calls, not an error |
| Spotify.SearchTracks | src/spotify.js:71-95 | an empty token is rejected with no request; otherwise one search request; a failed request or a null body is the search failure; a zero-length `tracks.items` gives `[]`, a missing or null `tracks` is the search failure, and otherwise the result is the reply's `tracks.items` |
| Spotify.SearchReturnsItems | src/spotify.js:91 | a reply with hits returns exactly those hits, in order |
| Spotify.SearchNullTracksFails | src/spotify.js:87-93 | a reply whose `tracks` is null is the search failure |
| Spotify.SearchEmptyVersusMissing | src/spotify.js:87-93 | empty `tracks.items` gives `[]`, while a reply without `tracks` is the search failure |
| Spotify.TrackForTitle | src/spotify.js:103-120 | an empty token is rejected before searching; a failed search is a failure; a hit comes only from a defined, non-empty search result |
| Spotify.TrackForTitleOutcomes | src/spotify.js:109-119 | any search failure is reported as the search failure, no hits is "not found", and otherwise the first hit is returned |
| Spotify.TrackForTitleMissingItemsIsTypeError | src/spotify.js:91-115 | a reply whose `tracks` has no `items` makes the search return `undefined`, and title resolution then fails with a runtime type error |
| Spotify.TrackForTitleFromBody | src/spotify.js:85-119 | a reply with an empty item list resolves to "not found", and one with hits to its first hit |
| Spotify.CreatePlaylist | src/spotify.js:132-205 | no request is made exactly when a check fails; the create request carries the name, the suffixed description and the visibility; the add-tracks request is made exactly when the create reply has a truthy `id`, and it carries that id and the URI list; a failed create request, and a failed add-tracks request, are the account-call error; a create reply without a truthy `id` is the missing-id error; success returns exactly that id |
| Spotify.PlaylistFirstFailingCheckDecides | src/spotify.js:133-155 | the checks run in the order name, name over 100, description, description over 280, track ids, token, and the first failing one decides the error |
| Spotify.LimitsApplyBeforeSuffix | src/spotify.js:137-168 | a 100-character name and a 280-character description are accepted, and the description goes upstream as 299 characters |
| Spotify.SentDescriptionRoundTrip | src/spotify.js:168 | the sent description is the caller's followed by " Powered by songpt.", and stripping the suffix gives the caller's back |
| Spotify.TrackUris | src/spotify.js:193 | the URI list has one entry per track id |
| Spotify.TrackUrisRoundTrip | src/spotify.js:193 | entry i is "spotify:track:" followed by track id i, so the ids can be read back in order |
| Spotify.NoIdSkipsAddTracks | src/spotify.js:174-181 | a create reply without a truthy `id` fails with the missing-id error after exactly one request |

## Left out

- Network I/O: the `fetch` calls, URLs, headers, form bodies and `encodeURIComponent`. Each request appears only as a `Request` value in the trace, holding the parts the client chooses.
- `JSON.parse` and `response.json()` are foreign library calls. Their outcomes are parameters. The model does not relate the `parsed` parameter to the content string it stands for.
- Promises and `await`: every step is a straight-line function.
- The playlist pipeline that chains the clients (`index.js`) is not part of this model.
- `index.d.ts` holds declarations only, and `test/tryout.js` is a live script. Neither is modelled.
- Numbers are integers. A fractional or NaN count, and JSON numbers with fractions, are not modelled.
- DecimalRoundTrip and IntToDecimal: every digit of the count is written out. JavaScript writes numbers of 10^21 and above in exponent form and cannot hold integers beyond 2^53 exactly. The rendering therefore matches the source only for counts below 2^53 in magnitude.
- A `null` or `undefined` string argument is treated like the empty string, which gives the same error in the source. For the count and the model, `None` stands for `undefined`. A `null` count or model is not modelled.
- Lengths count Unicode scalar values, while JavaScript counts UTF-16 code units. The two differ only for characters outside the Basic Multilingual Plane.
- Property access reads only the keys of a parsed object, not inherited properties. None of the keys the clients read is inherited.
- The check at src/spotify.js:200-202 is not modelled. `fetch` either throws or resolves to a response object, which is always truthy, so that branch cannot be reached. The add-tracks exchange is a boolean: a response arrived or the request threw.
