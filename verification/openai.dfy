/** The suggestion client: builds a prompt from seed titles or keywords, checks the
    caller's arguments, issues one completion request and turns the reply into a list
    of suggested titles. The completion service's reply and the result of parsing the
    reply's content as JSON are parameters. */
module OpenAI {
  import opened Outcomes
  import opened Json
  import opened Text

  const MainListPrompt: string := "Assume there is a list of songs. The list has a topic. Each song in the list is fitting to that topic. More songs that are similar are needed."
  const ExistingSongsPrompt: string := "These songs have already been added to the list:"
  const KeywordsPrompt: string := "The category fits these keywords:"
  const ReturnPrompt: string := "Do not offer any explanation. Do not add any commentary. Format the song names in a JSON array of this format: [\"Song Title Artist Name\",\"Song Title Artist Name\",...]. Only return this JSON array, filled with the song and artist names. Do not return anything else. Do not include special characters, dashes, colons or similar in the song and artist names. Do not format response as code."

  const CountSentenceStart: string := "Generate a list of "
  const CountSentenceEnd: string := " songs that fit the same category."

  const DefaultSuggestionCount: int := 10
  const DefaultModel: string := "gpt-3.5-turbo"

  /** One distinct error per message the client throws. */
  datatype Error =
    | NoApiKey                // "No OpenAI API key supplied."
    | NoPrompt                // "No prompt supplied."
    | InvalidSuggestionCount  // "Invalid number of suggestions."
    | NoModel                 // "No GPT model supplied."
    | CallFailed              // "Could not call OpenAI API. ..."
    | InvalidResponse         // "Invalid response from OpenAI. ..."
    | ParseFailed             // "Could not parse response from OpenAI. ..."
    | NoSongTitles            // "No song titles supplied."
    | NoKeywords              // "No keywords supplied."

  /** A chat-completion request: the model, the single user message, the bearer key. */
  datatype Request = Completion(model: string, prompt: string, apiKey: string)

  type Run<T> = Traced<T, Error, Request>

  function CountOrDefault(count: Option<int>): int {
    match count
    case None => DefaultSuggestionCount
    case Some(n) => n
  }

  function ModelOrDefault(model: Option<string>): string {
    match model
    case None => DefaultModel
    case Some(m) => m
  }

  // ---------------------------------------------------------------------------
  // Prompts

  /** The sentence asking for `n` songs: the count, written in decimal without leading
      zeros, between two fixed phrases. */
  function CountSentence(n: int): (sentence: string)
    ensures |sentence| > |CountSentenceStart| + |CountSentenceEnd|
    ensures sentence[..|CountSentenceStart|] == CountSentenceStart
    ensures sentence[|sentence| - |CountSentenceEnd|..] == CountSentenceEnd
    ensures var rendered := sentence[|CountSentenceStart|..|sentence| - |CountSentenceEnd|];
      if n >= 0 then
        AllDigits(rendered) && DecimalValue(rendered) == n && (|rendered| == 1 || rendered[0] != '0')
      else
        rendered[0] == '-' && AllDigits(rendered[1..]) && DecimalValue(rendered[1..]) == -n &&
        (|rendered| == 2 || rendered[1] != '0')
  {
    Slices(CountSentenceStart, IntToDecimal(n), CountSentenceEnd);
    DecimalRoundTrip(if n < 0 then -n else n);
    assert n < 0 ==> IntToDecimal(n)[1..] == NatToDecimal(-n);
    CountSentenceStart + IntToDecimal(n) + CountSentenceEnd
  }

  /** The part of a prompt before the caller's basis. */
  function Preamble(intro: string): string {
    MainListPrompt + " " + intro + " "
  }

  /** The part of a prompt after the caller's basis. */
  function Closing(n: int): string {
    ". " + CountSentence(n) + " " + ReturnPrompt
  }

  /** The prompt for seed songs: it starts with the main list prompt, ends with the
      count sentence and the return-format instruction, and in between holds the
      titles joined with commas; comma-free titles can be split back out of it. */
  function SongsPrompt(titles: seq<string>, n: int): (prompt: string)
    ensures |prompt| >= |Preamble(ExistingSongsPrompt)| + |Closing(n)|
    ensures prompt[..|Preamble(ExistingSongsPrompt)|] == Preamble(ExistingSongsPrompt)
    ensures prompt[|prompt| - |Closing(n)|..] == Closing(n)
    ensures prompt[|Preamble(ExistingSongsPrompt)|..|prompt| - |Closing(n)|] == Join(titles, ',')
    ensures |titles| >= 1 && (forall t | t in titles :: ',' !in t) ==>
      Split(prompt[|Preamble(ExistingSongsPrompt)|..|prompt| - |Closing(n)|], ',') == titles
  {
    Slices(Preamble(ExistingSongsPrompt), Join(titles, ','), Closing(n));
    SplitJoinWhenCommaFree(titles);
    Preamble(ExistingSongsPrompt) + Join(titles, ',') + Closing(n)
  }

  /** Comma-free titles are recovered by splitting their comma-joined form. */
  lemma SplitJoinWhenCommaFree(titles: seq<string>)
    ensures |titles| >= 1 && (forall t | t in titles :: ',' !in t) ==> Split(Join(titles, ','), ',') == titles
  {
    if |titles| >= 1 && (forall t | t in titles :: ',' !in t) {
      SplitJoin(titles, ',');
    }
  }

  /** The prompt for keywords: the same frame as the songs prompt, with the keywords
      prompt as introduction and the keywords, unchanged, as the basis. */
  function KeywordsPromptFor(keywords: string, n: int): (prompt: string)
    ensures |prompt| >= |Preamble(KeywordsPrompt)| + |Closing(n)|
    ensures prompt[..|Preamble(KeywordsPrompt)|] == Preamble(KeywordsPrompt)
    ensures prompt[|prompt| - |Closing(n)|..] == Closing(n)
    ensures prompt[|Preamble(KeywordsPrompt)|..|prompt| - |Closing(n)|] == keywords
  {
    Slices(Preamble(KeywordsPrompt), keywords, Closing(n));
    Preamble(KeywordsPrompt) + keywords + Closing(n)
  }

  /** The three parts of a concatenation can be read back by slicing. */
  lemma Slices(pre: string, mid: string, post: string)
    ensures var s := pre + mid + post;
      && s[..|pre|] == pre
      && s[|pre|..|s| - |post|] == mid
      && s[|s| - |post|..] == post
  {
  }

  /** Equal strings with a common prefix and suffix have equal middles. */
  lemma Unframe(pre: string, a: string, b: string, post: string)
    requires pre + a + post == pre + b + post
    ensures a == b
  {
    var s := pre + a + post;
    assert |a| == |b|;
    assert a == s[|pre|..|pre| + |a|];
    assert b == (pre + b + post)[|pre|..|pre| + |b|];
  }

  /** Seed lists whose titles contain no comma are recoverable from the prompt:
      different seed lists give different prompts. */
  lemma SongsPromptDeterminesTitles(t1: seq<string>, t2: seq<string>, n: int)
    requires |t1| >= 1 && |t2| >= 1
    requires forall t | t in t1 :: ',' !in t
    requires forall t | t in t2 :: ',' !in t
    requires SongsPrompt(t1, n) == SongsPrompt(t2, n)
    ensures t1 == t2
  {
    Unframe(Preamble(ExistingSongsPrompt), Join(t1, ','), Join(t2, ','), Closing(n));
    SplitJoin(t1, ',');
    SplitJoin(t2, ',');
  }

  /** Different keyword strings give different prompts. */
  lemma KeywordsPromptDeterminesKeywords(k1: string, k2: string, n: int)
    requires KeywordsPromptFor(k1, n) == KeywordsPromptFor(k2, n)
    ensures k1 == k2
  {
    Unframe(Preamble(KeywordsPrompt), k1, k2, Closing(n));
  }

  /** The rendered count is the only part of a prompt-shaped string that depends on
      the count, so equal strings carry equal renderings. */
  lemma CountFrame(pre: string, start: string, d1: string, d2: string, end: string, ret: string)
    requires pre + (". " + (start + d1 + end) + " " + ret) == pre + (". " + (start + d2 + end) + " " + ret)
    ensures d1 == d2
  {
    var p1 := pre + (". " + (start + d1 + end) + " " + ret);
    var p2 := pre + (". " + (start + d2 + end) + " " + ret);
    assert p1 == (pre + ". " + start) + d1 + (end + " " + ret);
    assert p2 == (pre + ". " + start) + d2 + (end + " " + ret);
    Unframe(pre + ". " + start, d1, d2, end + " " + ret);
  }

  /** For the same basis, different suggestion counts give different prompts. */
  lemma PromptDeterminesCount(basis: string, intro: string, a: int, b: int)
    requires Preamble(intro) + basis + Closing(a) == Preamble(intro) + basis + Closing(b)
    ensures a == b
  {
    CountFrame(Preamble(intro) + basis, CountSentenceStart, IntToDecimal(a), IntToDecimal(b), CountSentenceEnd, ReturnPrompt);
    IntToDecimalInjective(a, b);
  }

  // ---------------------------------------------------------------------------
  // The suggestion filter

  /** An array entry the filter keeps: a string with at least one character. */
  predicate IsSuggestion(item: Json) {
    item.JString? && item.s != ""
  }

  /** The suggestion filter: the non-empty strings of the parsed array, in order. */
  function KeepSuggestions(items: seq<Json>): (kept: seq<string>)
    ensures |kept| <= |items|
    ensures forall s | s in kept :: s != ""
  {
    if items == [] then []
    else if IsSuggestion(items[0]) then [items[0].s] + KeepSuggestions(items[1..])
    else KeepSuggestions(items[1..])
  }

  /** Filtering a concatenation filters each part. */
  lemma {:induction false} KeepSuggestionsAppend(a: seq<Json>, b: seq<Json>)
    ensures KeepSuggestions(a + b) == KeepSuggestions(a) + KeepSuggestions(b)
  {
    if a != [] {
      assert (a + b)[0] == a[0];
      assert (a + b)[1..] == a[1..] + b;
      KeepSuggestionsAppend(a[1..], b);
    } else {
      assert a + b == b;
    }
  }

  /** A string survives the filter exactly when it is non-empty and occurs in the
      parsed array. */
  lemma {:induction false} KeptAreExactlyTheSuggestions(items: seq<Json>)
    ensures forall s :: s in KeepSuggestions(items) <==> s != "" && JString(s) in items
  {
    if items != [] {
      KeptAreExactlyTheSuggestions(items[1..]);
      assert items == [items[0]] + items[1..];
    }
  }

  /** The positions of the parsed array that hold a suggestion, in increasing order. */
  ghost function SuggestionPositions(items: seq<Json>): seq<int>
    decreases |items|
  {
    if items == [] then []
    else
      var n := |items| - 1;
      SuggestionPositions(items[..n]) + (if IsSuggestion(items[n]) then [n] else [])
  }

  /** `kept` lists `items` at the increasing positions `at`. */
  ghost predicate PicksInOrder(kept: seq<string>, items: seq<Json>, at: seq<int>) {
    && |at| == |kept|
    && (forall k | 0 <= k < |at| :: 0 <= at[k] < |items| && items[at[k]] == JString(kept[k]))
    && (forall k, l | 0 <= k < l < |at| :: at[k] < at[l])
  }

  /** Every position that holds a suggestion is listed. */
  lemma {:induction false} SuggestionPositionsComplete(items: seq<Json>)
    ensures forall i | 0 <= i < |items| && IsSuggestion(items[i]) :: i in SuggestionPositions(items)
    decreases |items|
  {
    if items != [] {
      var n := |items| - 1;
      SuggestionPositionsComplete(items[..n]);
      forall i | 0 <= i < |items| && IsSuggestion(items[i]) ensures i in SuggestionPositions(items) {
        if i < n {
          assert items[..n][i] == items[i];
        }
      }
    }
  }

  /** The filter's output is the order-preserving selection of the parsed array at
      the positions that hold a non-empty string. */
  lemma {:induction false} KeepSuggestionsIsOrderedSelection(items: seq<Json>)
    ensures PicksInOrder(KeepSuggestions(items), items, SuggestionPositions(items))
    decreases |items|
  {
    if items != [] {
      var n := |items| - 1;
      var init, last := items[..n], items[n];
      KeepSuggestionsIsOrderedSelection(init);
      assert items == init + [last];
      KeepSuggestionsAppend(init, [last]);
      assert [last][1..] == [];
      PicksInOrderExtend(KeepSuggestions(init), init, SuggestionPositions(init), last);
    }
  }

  /** Appending one element to the array extends a selection by that element when it
      is a suggestion. */
  lemma PicksInOrderExtend(kept: seq<string>, init: seq<Json>, at: seq<int>, last: Json)
    requires PicksInOrder(kept, init, at)
    ensures PicksInOrder(kept + (if IsSuggestion(last) then [last.s] else []),
                         init + [last],
                         at + (if IsSuggestion(last) then [|init|] else []))
  {
  }

  /** The suggestions as a JSON array of strings. */
  function AsJson(suggestions: seq<string>): (items: seq<Json>)
    ensures |items| == |suggestions|
  {
    seq(|suggestions|, k requires 0 <= k < |suggestions| => JString(suggestions[k]))
  }

  lemma {:induction false} KeepSuggestionsKeepsSuggestions(suggestions: seq<string>)
    requires forall s | s in suggestions :: s != ""
    ensures KeepSuggestions(AsJson(suggestions)) == suggestions
    decreases |suggestions|
  {
    if suggestions != [] {
      assert AsJson(suggestions)[1..] == AsJson(suggestions[1..]);
      assert suggestions[0] in suggestions;
      forall s | s in suggestions[1..] ensures s != "" { assert s in suggestions; }
      KeepSuggestionsKeepsSuggestions(suggestions[1..]);
    }
  }

  /** Filtering an already filtered list changes nothing. */
  lemma KeepSuggestionsIdempotent(items: seq<Json>)
    ensures KeepSuggestions(AsJson(KeepSuggestions(items))) == KeepSuggestions(items)
  {
    KeepSuggestionsKeepsSuggestions(KeepSuggestions(items));
  }

  /** Nulls, empty strings and non-strings are dropped; the rest keep their order. */
  lemma KeepSuggestionsExample()
    ensures KeepSuggestions([JString("Song A"), JString(""), JNull, JString("Song B"), JNumber(42)])
         == ["Song A", "Song B"]
  {
  }

  // ---------------------------------------------------------------------------
  // One completion round trip

  /** The content of the first choice's message in a completion reply, read with
      optional chaining, so any missing step gives `None`. */
  function MessageContent(response: Json): Option<Json> {
    Prop(Prop(Element0(Prop(Some(response), "choices")), "message"), "content")
  }

  /** The four argument checks, all passing. */
  predicate InputsAccepted(apiKey: string, prompt: string, count: Option<int>, model: Option<string>) {
    apiKey != "" && prompt != "" && CountOrDefault(count) >= 1 && ModelOrDefault(model) != ""
  }

  /** `generateSuggestions(openAiApiKey, prompt, numberOfSuggestions, gptModel)`.
      `reply` is the parsed body of the completion response, `None` when the request
      or the reading of its body failed; `parsed` is what `JSON.parse` gives for the
      reply's message content, `None` when it throws. */
  function GenerateSuggestions(apiKey: string, prompt: string, count: Option<int>, model: Option<string>,
                               reply: Option<Json>, parsed: Option<Json>): (run: Run<seq<string>>)
    ensures run.calls == [] <==> !InputsAccepted(apiKey, prompt, count, model)
    ensures run.calls != [] ==> run.calls == [Completion(ModelOrDefault(model), prompt, apiKey)]
    ensures run.result.Ok? <==>
      && InputsAccepted(apiKey, prompt, count, model)
      && reply.Some? && Truthy(MessageContent(reply.value))
      && parsed.Some? && parsed.value.JArray?
    ensures InputsAccepted(apiKey, prompt, count, model) && reply.None? ==> run.result == Err(CallFailed)
    ensures InputsAccepted(apiKey, prompt, count, model) && reply.Some? && !Truthy(MessageContent(reply.value))
      ==> run.result == Err(InvalidResponse)
    ensures (InputsAccepted(apiKey, prompt, count, model) && reply.Some? && Truthy(MessageContent(reply.value))
             && !(parsed.Some? && parsed.value.JArray?)) ==> run.result == Err(ParseFailed)
    ensures run.result.Ok? ==> forall s | s in run.result.value :: s != ""
  {
    var n, m := CountOrDefault(count), ModelOrDefault(model);
    if apiKey == "" then Traced(Err(NoApiKey), [])
    else if prompt == "" then Traced(Err(NoPrompt), [])
    else if n < 1 then Traced(Err(InvalidSuggestionCount), [])
    else if m == "" then Traced(Err(NoModel), [])
    else
      var calls := [Completion(m, prompt, apiKey)];
      match reply
      case None => Traced(Err(CallFailed), calls)
      case Some(response) =>
        if !Truthy(MessageContent(response)) then Traced(Err(InvalidResponse), calls)
        else match parsed
          case Some(JArray(items)) => Traced(Ok(KeepSuggestions(items)), calls)
          case _ => Traced(Err(ParseFailed), calls)
  }

  /** The checks run in the order key, prompt, count, model; the first that fails
      decides the error whatever the later arguments and the upstream would give. */
  lemma FirstFailingCheckDecides(apiKey: string, prompt: string, count: Option<int>, model: Option<string>,
                                 reply: Option<Json>, parsed: Option<Json>)
    ensures var r := GenerateSuggestions(apiKey, prompt, count, model, reply, parsed).result;
      && (apiKey == "" ==> r == Err(NoApiKey))
      && (apiKey != "" && prompt == "" ==> r == Err(NoPrompt))
      && (apiKey != "" && prompt != "" && CountOrDefault(count) < 1 ==> r == Err(InvalidSuggestionCount))
      && (apiKey != "" && prompt != "" && CountOrDefault(count) >= 1 && ModelOrDefault(model) == "" ==> r == Err(NoModel))
  {
  }

  /** A reply without truthy message content, an empty string included, is an invalid
      response and never reaches the parser. */
  lemma MissingContentIsInvalidResponse(apiKey: string, prompt: string, count: Option<int>, model: Option<string>,
                                        response: Json, parsed: Option<Json>)
    requires InputsAccepted(apiKey, prompt, count, model)
    requires !Truthy(MessageContent(response))
    ensures GenerateSuggestions(apiKey, prompt, count, model, Some(response), parsed).result == Err(InvalidResponse)
  {
  }

  /** Content that fails to parse, or parses to something other than an array, is
      the parse error. */
  lemma UnusableContentIsParseError(apiKey: string, prompt: string, count: Option<int>, model: Option<string>,
                                    response: Json, parsed: Option<Json>)
    requires InputsAccepted(apiKey, prompt, count, model)
    requires Truthy(MessageContent(response))
    requires parsed.None? || !parsed.value.JArray?
    ensures GenerateSuggestions(apiKey, prompt, count, model, Some(response), parsed).result == Err(ParseFailed)
  {
  }

  /** On success the suggestions are exactly the filtered parsed array: every
      non-empty string of it, in order, and nothing else. */
  lemma SuccessIsFilteredArray(apiKey: string, prompt: string, count: Option<int>, model: Option<string>,
                               reply: Option<Json>, items: seq<Json>)
    requires GenerateSuggestions(apiKey, prompt, count, model, reply, Some(JArray(items))).result.Ok?
    ensures var suggestions := GenerateSuggestions(apiKey, prompt, count, model, reply, Some(JArray(items))).result.value;
      && |suggestions| <= |items|
      && PicksInOrder(suggestions, items, SuggestionPositions(items))
      && forall i | 0 <= i < |items| && IsSuggestion(items[i]) :: i in SuggestionPositions(items)
  {
    KeepSuggestionsIsOrderedSelection(items);
    SuggestionPositionsComplete(items);
  }

  /** A reply whose message content is the given JSON value. */
  function ReplyWithContent(content: Json): Json {
    JObject(map["choices" := JArray([JObject(map["message" := JObject(map["content" := content])])])])
  }

  /** The requested count is not enforced: asking for one suggestion can give two. */
  lemma CountIsNotEnforced()
    ensures GenerateSuggestions("key", "prompt", Some(1), None,
                                Some(ReplyWithContent(JString("[\"a\",\"b\"]"))),
                                Some(JArray([JString("a"), JString("b")]))).result
         == Ok(["a", "b"])
  {
    var content := JString("[\"a\",\"b\"]");
    assert MessageContent(ReplyWithContent(content)) == Some(content);
    var items := [JString("a"), JString("b")];
    assert KeepSuggestions(items[1..][1..]) == [];
    assert KeepSuggestions(items) == ["a", "b"];
  }

  // ---------------------------------------------------------------------------
  // The exported entry points

  /** `generateSuggestionsBasedOnSongs(openAiApiKey, songTitles, numberOfSuggestions, gptModel)` */
  function SuggestionsBasedOnSongs(apiKey: string, titles: seq<string>, count: Option<int>, model: Option<string>,
                                   reply: Option<Json>, parsed: Option<Json>): (run: Run<seq<string>>)
    ensures titles == [] ==> run == Traced(Err(NoSongTitles), [])
    ensures titles != [] ==> run.result != Err(NoPrompt)
    ensures titles != [] ==>
      run == GenerateSuggestions(apiKey, SongsPrompt(titles, CountOrDefault(count)), count, model, reply, parsed)
    ensures run.calls != [] ==> run.calls[0].prompt == SongsPrompt(titles, CountOrDefault(count))
  {
    if titles == [] then Traced(Err(NoSongTitles), [])
    else
      var n := CountOrDefault(count);
      GenerateSuggestions(apiKey, SongsPrompt(titles, n), Some(n), Some(ModelOrDefault(model)), reply, parsed)
  }

  /** `generateSuggestionsBasedOnKeywords(openAiApiKey, keywords, numberOfSuggestions, gptModel)` */
  function SuggestionsBasedOnKeywords(apiKey: string, keywords: string, count: Option<int>, model: Option<string>,
                                      reply: Option<Json>, parsed: Option<Json>): (run: Run<seq<string>>)
    ensures keywords == "" ==> run == Traced(Err(NoKeywords), [])
    ensures keywords != "" ==> run.result != Err(NoPrompt)
    ensures keywords != "" ==>
      run == GenerateSuggestions(apiKey, KeywordsPromptFor(keywords, CountOrDefault(count)), count, model, reply, parsed)
    ensures run.calls != [] ==> run.calls[0].prompt == KeywordsPromptFor(keywords, CountOrDefault(count))
  {
    if keywords == "" then Traced(Err(NoKeywords), [])
    else
      var n := CountOrDefault(count);
      GenerateSuggestions(apiKey, KeywordsPromptFor(keywords, n), Some(n), Some(ModelOrDefault(model)), reply, parsed)
  }

  /** Leaving out the count and the model is the same as passing 10 and "gpt-3.5-turbo". */
  lemma DefaultsApply(apiKey: string, titles: seq<string>, keywords: string, reply: Option<Json>, parsed: Option<Json>)
    ensures SuggestionsBasedOnSongs(apiKey, titles, None, None, reply, parsed)
         == SuggestionsBasedOnSongs(apiKey, titles, Some(10), Some("gpt-3.5-turbo"), reply, parsed)
    ensures SuggestionsBasedOnKeywords(apiKey, keywords, None, None, reply, parsed)
         == SuggestionsBasedOnKeywords(apiKey, keywords, Some(10), Some("gpt-3.5-turbo"), reply, parsed)
  {
  }
}
