/** The catalogue client: token exchanges, track search, first-hit title resolution
    and playlist creation. Each upstream reply is a parameter: the parsed JSON body,
    or `None` when the request or the reading of its body failed. */
module Spotify {
  import opened Outcomes
  import opened Json

  const MaxNameLength: nat := 100
  const MaxDescriptionLength: nat := 280
  const PoweredBySuffix: string := " Powered by songpt."
  const TrackUriPrefix: string := "spotify:track:"

  /** One distinct error per message the client throws, plus the runtime error that
      escapes from title resolution. */
  datatype Error =
    | NoCredentials          // "No Spotify credentials supplied."
    | NoRefreshToken         // "No Spotify refresh token supplied."
    | TokenCallFailed        // "Could not call Spotify API. Make sure your credentials are valid."
    | NoAccessToken          // "No Spotify access token supplied."
    | SearchFailed           // "Could not call Spotify API. ... valid Spotify Access Token."
    | TrackNotFound          // "Could not find a Spotify track for the given title."
    | TypeError              // reading `length` of an undefined or null search result
    | NoPlaylistName         // "No playlist name supplied."
    | NameTooLong            // "Playlist name must be 100 characters or less."
    | NoDescription          // "No playlist description supplied."
    | DescriptionTooLong     // "Playlist description must be 280 characters or less."
    | NoTrackIds             // "No track IDs supplied."
    | NoAccountAccessToken   // "No Spotify account access token supplied."
    | AccountCallFailed      // "Could not call Spotify API. ... valid Spotify Account Access Token."
    | NoPlaylistId           // "Spotify API did not return a playlist ID."

  /** The grant a token request asks for. */
  datatype Grant = ClientCredentials | RefreshToken(refreshToken: string)

  /** The upstream requests, with the parts of each that the client chooses. */
  datatype Request =
    | TokenRequest(credentials: string, grant: Grant)
    | SearchRequest(query: string, accessToken: string)
    | CreatePlaylistRequest(accountId: string, accessToken: string, name: string, description: string, isPublic: bool)
    | AddTracksRequest(accountId: string, playlistId: Json, accessToken: string, uris: seq<string>)

  type Run<T> = Traced<T, Error, Request>

  // ---------------------------------------------------------------------------
  // Tokens

  /** `getSpotifyAccessToken(spotifyCredentials)`: the reply's `access_token`,
      `None` when the reply has none. */
  function AccessToken(credentials: string, reply: Option<Json>): (run: Run<Option<Json>>)
    ensures credentials == "" <==> run.calls == []
    ensures credentials == "" ==> run.result == Err(NoCredentials)
    ensures credentials != "" ==> run.calls == [TokenRequest(credentials, ClientCredentials)]
    ensures credentials != "" && reply.None? ==> run.result == Err(TokenCallFailed)
    ensures run.result.Err? <==> credentials == "" || reply.None?
    ensures run.result.Ok? ==> run.result.value == Prop(reply, "access_token")
  {
    if credentials == "" then Traced(Err(NoCredentials), [])
    else
      var calls := [TokenRequest(credentials, ClientCredentials)];
      match reply
      case None => Traced(Err(TokenCallFailed), calls)
      case Some(_) => Traced(Ok(Prop(reply, "access_token")), calls)
  }

  /** `getSpotifyAccountAccessToken(spotifyCredentials, spotifyRefreshToken)` */
  function AccountAccessToken(credentials: string, refreshToken: string, reply: Option<Json>): (run: Run<Option<Json>>)
    ensures credentials == "" || refreshToken == "" <==> run.calls == []
    ensures credentials == "" ==> run.result == Err(NoCredentials)
    ensures credentials != "" && refreshToken == "" ==> run.result == Err(NoRefreshToken)
    ensures run.calls != [] ==> run.calls == [TokenRequest(credentials, RefreshToken(refreshToken))]
    ensures run.calls != [] && reply.None? ==> run.result == Err(TokenCallFailed)
    ensures run.result.Err? <==> credentials == "" || refreshToken == "" || reply.None?
    ensures run.result.Ok? ==> run.result.value == Prop(reply, "access_token")
  {
    if credentials == "" then Traced(Err(NoCredentials), [])
    else if refreshToken == "" then Traced(Err(NoRefreshToken), [])
    else
      var calls := [TokenRequest(credentials, RefreshToken(refreshToken))];
      match reply
      case None => Traced(Err(TokenCallFailed), calls)
      case Some(_) => Traced(Ok(Prop(reply, "access_token")), calls)
  }

  /** A reply without `access_token` is not an error: both token calls give `undefined`. */
  lemma AbsentTokenIsNotAnError(credentials: string, refreshToken: string, body: Json)
    requires credentials != "" && refreshToken != ""
    requires Prop(Some(body), "access_token").None?
    ensures AccessToken(credentials, Some(body)).result == Ok(None)
    ensures AccountAccessToken(credentials, refreshToken, Some(body)).result == Ok(None)
  {
  }

  // ---------------------------------------------------------------------------
  // Search

  /** `searchSpotifyTracks(searchText, accessToken)`: the reply's `tracks.items`, an
      empty array when that has length 0. Reading `tracks.items` throws, and the
      client reports the search failure, when the body is null or has no `tracks`. */
  function SearchTracks(query: string, accessToken: string, reply: Option<Json>): (run: Run<Option<Json>>)
    ensures accessToken == "" <==> run.calls == []
    ensures accessToken == "" ==> run.result == Err(NoAccessToken)
    ensures accessToken != "" ==> run.calls == [SearchRequest(query, accessToken)]
    ensures accessToken != "" && (reply.None? || reply == Some(JNull)) ==> run.result == Err(SearchFailed)
    ensures accessToken != "" && reply.Some? && reply.value != JNull ==>
      var tracks := Prop(reply, "tracks");
      var items := Prop(tracks, "items");
      run.result == if HasZeroLength(items) then Ok(Some(JArray([])))
                    else if tracks.None? || tracks == Some(JNull) then Err(SearchFailed)
                    else Ok(items)
  {
    if accessToken == "" then Traced(Err(NoAccessToken), [])
    else
      var calls := [SearchRequest(query, accessToken)];
      match reply
      case None => Traced(Err(SearchFailed), calls)
      case Some(body) =>
        if body == JNull then Traced(Err(SearchFailed), calls)
        else
          var tracks := Prop(reply, "tracks");
          if HasZeroLength(Prop(tracks, "items")) then Traced(Ok(Some(JArray([]))), calls)
          else if tracks.None? || tracks == Some(JNull) then Traced(Err(SearchFailed), calls)
          else Traced(Ok(Prop(tracks, "items")), calls)
  }

  /** A search body whose `tracks.items` is the given value. */
  function SearchBody(items: Json): Json {
    JObject(map["tracks" := JObject(map["items" := items])])
  }

  /** An empty item list is an empty result, not an error; a body lacking `tracks`
      is the search failure, not an empty result. */
  lemma SearchEmptyVersusMissing(query: string, accessToken: string, body: Json)
    requires accessToken != ""
    ensures SearchTracks(query, accessToken, Some(SearchBody(JArray([])))).result == Ok(Some(JArray([])))
    ensures Prop(Some(body), "tracks").None? ==> SearchTracks(query, accessToken, Some(body)).result == Err(SearchFailed)
  {
  }

  /** A search reply with hits returns them, in order. */
  lemma SearchReturnsItems(query: string, accessToken: string, hits: seq<Json>)
    requires accessToken != "" && |hits| > 0
    ensures SearchTracks(query, accessToken, Some(SearchBody(JArray(hits)))).result == Ok(Some(JArray(hits)))
  {
  }

  /** A reply whose `tracks` is null fails when its items are read, and the client
      reports the search failure. */
  lemma SearchNullTracksFails(query: string, accessToken: string)
    requires accessToken != ""
    ensures SearchTracks(query, accessToken, Some(JObject(map["tracks" := JNull]))).result == Err(SearchFailed)
  {
  }

  /** `getSpotifyTrackForTitle(title, accessToken)`: the first search hit. */
  function TrackForTitle(title: string, accessToken: string, reply: Option<Json>): (run: Run<Option<Json>>)
    ensures accessToken == "" ==> run == Traced(Err(NoAccessToken), [])
    ensures accessToken != "" ==> run.calls == [SearchRequest(title, accessToken)]
    ensures SearchTracks(title, accessToken, reply).result.Err? ==> run.result.Err?
    ensures run.result.Ok? ==>
      var found := SearchTracks(title, accessToken, reply).result;
      found.Ok? && found.value.Some? && found.value.value != JNull && !HasZeroLength(found.value)
  {
    if accessToken == "" then Traced(Err(NoAccessToken), [])
    else
      var search := SearchTracks(title, accessToken, reply);
      match search.result
      case Err(_) => Traced(Err(SearchFailed), search.calls)
      case Ok(items) =>
        if items.None? || items == Some(JNull) then Traced(Err(TypeError), search.calls)
        else if HasZeroLength(items) then Traced(Err(TrackNotFound), search.calls)
        else Traced(Ok(Element0(items)), search.calls)
  }

  /** Any search failure is reported as the search failure; no hits is "not found";
      otherwise the result is the first hit. */
  lemma TrackForTitleOutcomes(title: string, accessToken: string, reply: Option<Json>, hits: seq<Json>)
    requires accessToken != ""
    ensures SearchTracks(title, accessToken, reply).result.Err? ==>
      TrackForTitle(title, accessToken, reply).result == Err(SearchFailed)
    ensures SearchTracks(title, accessToken, reply).result == Ok(Some(JArray([]))) ==>
      TrackForTitle(title, accessToken, reply).result == Err(TrackNotFound)
    ensures |hits| > 0 && SearchTracks(title, accessToken, reply).result == Ok(Some(JArray(hits))) ==>
      TrackForTitle(title, accessToken, reply).result == Ok(Some(hits[0]))
  {
  }

  /** A reply whose `tracks` has no `items` makes the search return `undefined`, and
      reading its length is a runtime type error, not one of the client's errors. */
  lemma TrackForTitleMissingItemsIsTypeError(title: string, accessToken: string)
    requires accessToken != ""
    ensures SearchTracks(title, accessToken, Some(JObject(map["tracks" := JObject(map[])]))).result == Ok(None)
    ensures TrackForTitle(title, accessToken, Some(JObject(map["tracks" := JObject(map[])]))).result == Err(TypeError)
  {
  }

  /** A reply with an empty item list resolves to "not found"; one with hits
      resolves to its first hit. */
  lemma TrackForTitleFromBody(title: string, accessToken: string, hits: seq<Json>)
    requires accessToken != ""
    ensures TrackForTitle(title, accessToken, Some(SearchBody(JArray(hits)))).result
         == if hits == [] then Err(TrackNotFound) else Ok(Some(hits[0]))
  {
  }

  // ---------------------------------------------------------------------------
  // Playlist creation

  /** The six argument checks, all passing. */
  predicate PlaylistInputsAccepted(name: string, description: string, trackIds: seq<string>, accessToken: string) {
    && name != "" && |name| <= MaxNameLength
    && description != "" && |description| <= MaxDescriptionLength
    && trackIds != []
    && accessToken != ""
  }

  /** The description sent upstream. */
  function SentDescription(description: string): string {
    description + PoweredBySuffix
  }

  /** The caller's description, recovered from the one sent upstream. */
  function CallerDescription(sent: string): string
    requires |sent| >= |PoweredBySuffix|
  {
    sent[..|sent| - |PoweredBySuffix|]
  }

  function TrackUri(id: string): string {
    TrackUriPrefix + id
  }

  /** The track id a URI names. */
  function TrackIdOf(uri: string): string
    requires |uri| >= |TrackUriPrefix|
  {
    uri[|TrackUriPrefix|..]
  }

  /** The track URIs sent to the add-tracks request, one per id, in order. */
  function TrackUris(trackIds: seq<string>): (uris: seq<string>)
    ensures |uris| == |trackIds|
  {
    seq(|trackIds|, i requires 0 <= i < |trackIds| => TrackUri(trackIds[i]))
  }

  /** The id in the create reply, `None` when the reply has none. */
  function PlaylistIdOf(reply: Option<Json>): Option<Json> {
    Prop(reply, "id")
  }

  /** `createSpotifyPlaylist(name, description, trackIds, publicPlaylist, spotifyAccountId,
      spotifyAccountAccessToken)`. `createReply` is the create call's parsed body;
      `addDelivered` says whether the add-tracks call received a response at all
      (its body is never read). */
  function CreatePlaylist(name: string, description: string, trackIds: seq<string>, isPublic: bool,
                          accountId: string, accessToken: string,
                          createReply: Option<Json>, addDelivered: bool): (run: Run<Json>)
    ensures run.calls == [] <==> !PlaylistInputsAccepted(name, description, trackIds, accessToken)
    ensures |run.calls| <= 2
    ensures run.calls != [] ==>
      run.calls[0] == CreatePlaylistRequest(accountId, accessToken, name, SentDescription(description), isPublic)
    ensures |run.calls| == 2 <==>
      PlaylistInputsAccepted(name, description, trackIds, accessToken) && Truthy(PlaylistIdOf(createReply))
    ensures |run.calls| == 2 ==>
      run.calls[1] == AddTracksRequest(accountId, PlaylistIdOf(createReply).value, accessToken, TrackUris(trackIds))
    ensures run.result.Ok? <==> |run.calls| == 2 && addDelivered
    ensures PlaylistInputsAccepted(name, description, trackIds, accessToken) && createReply.None?
      ==> run.result == Err(AccountCallFailed)
    ensures (PlaylistInputsAccepted(name, description, trackIds, accessToken) && createReply.Some?
             && !Truthy(PlaylistIdOf(createReply))) ==> run.result == Err(NoPlaylistId)
    ensures |run.calls| == 2 && !addDelivered ==> run.result == Err(AccountCallFailed)
    ensures run.result.Ok? ==> PlaylistIdOf(createReply) == Some(run.result.value)
  {
    if name == "" then Traced(Err(NoPlaylistName), [])
    else if |name| > MaxNameLength then Traced(Err(NameTooLong), [])
    else if description == "" then Traced(Err(NoDescription), [])
    else if |description| > MaxDescriptionLength then Traced(Err(DescriptionTooLong), [])
    else if trackIds == [] then Traced(Err(NoTrackIds), [])
    else if accessToken == "" then Traced(Err(NoAccountAccessToken), [])
    else
      var create := CreatePlaylistRequest(accountId, accessToken, name, SentDescription(description), isPublic);
      match createReply
      case None => Traced(Err(AccountCallFailed), [create])
      case Some(_) =>
        var id := PlaylistIdOf(createReply);
        if !Truthy(id) then Traced(Err(NoPlaylistId), [create])
        else
          var add := AddTracksRequest(accountId, id.value, accessToken, TrackUris(trackIds));
          if !addDelivered then Traced(Err(AccountCallFailed), [create, add])
          else Traced(Ok(id.value), [create, add])
  }

  /** The checks run in the order name, name length, description, description
      length, track ids, token; the first that fails decides the error. */
  lemma PlaylistFirstFailingCheckDecides(name: string, description: string, trackIds: seq<string>, isPublic: bool,
                                         accountId: string, accessToken: string,
                                         createReply: Option<Json>, addDelivered: bool)
    ensures var r := CreatePlaylist(name, description, trackIds, isPublic, accountId, accessToken, createReply, addDelivered).result;
      && (name == "" ==> r == Err(NoPlaylistName))
      && (name != "" && |name| > 100 ==> r == Err(NameTooLong))
      && (name != "" && |name| <= 100 && description == "" ==> r == Err(NoDescription))
      && (name != "" && |name| <= 100 && description != "" && |description| > 280 ==> r == Err(DescriptionTooLong))
      && (name != "" && |name| <= 100 && description != "" && |description| <= 280 && trackIds == [] ==> r == Err(NoTrackIds))
      && ((name != "" && |name| <= 100 && description != "" && |description| <= 280 && trackIds != [] && accessToken == "")
          ==> r == Err(NoAccountAccessToken))
  {
  }

  /** The limits are inclusive and apply to the caller's description: a 280-character
      description is accepted and goes upstream as 299 characters. */
  lemma LimitsApplyBeforeSuffix(name: string, description: string, trackIds: seq<string>, isPublic: bool,
                                accountId: string, accessToken: string, createReply: Option<Json>, addDelivered: bool)
    requires |name| == 100 && |description| == 280 && trackIds != [] && accessToken != ""
    ensures var run := CreatePlaylist(name, description, trackIds, isPublic, accountId, accessToken, createReply, addDelivered);
      run.calls != [] && |run.calls[0].description| == 299
  {
  }

  /** The suffix can be stripped again: the sent description starts with the
      caller's and ends with the fixed suffix. */
  lemma SentDescriptionRoundTrip(description: string)
    ensures |SentDescription(description)| == |description| + |PoweredBySuffix|
    ensures CallerDescription(SentDescription(description)) == description
    ensures SentDescription(description)[|description|..] == PoweredBySuffix
  {
  }

  /** Each URI names its track id in place: the URI list maps back to the id list. */
  lemma TrackUrisRoundTrip(trackIds: seq<string>)
    ensures forall i | 0 <= i < |trackIds| :: TrackUris(trackIds)[i][..|TrackUriPrefix|] == TrackUriPrefix
    ensures forall i | 0 <= i < |trackIds| :: TrackIdOf(TrackUris(trackIds)[i]) == trackIds[i]
  {
  }

  /** A create reply without a truthy `id` fails before the add-tracks request. */
  lemma NoIdSkipsAddTracks(name: string, description: string, trackIds: seq<string>, isPublic: bool,
                           accountId: string, accessToken: string, body: Json, addDelivered: bool)
    requires PlaylistInputsAccepted(name, description, trackIds, accessToken)
    requires !Truthy(Prop(Some(body), "id"))
    ensures var run := CreatePlaylist(name, description, trackIds, isPublic, accountId, accessToken, Some(body), addDelivered);
      run.result == Err(NoPlaylistId) && |run.calls| == 1
  {
  }
}
