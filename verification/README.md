# Verified model of the ReiSearch MCP server

This project models, in Dafny, the three parts of the server whose correctness does not show in any single
function, and proves what they promise.

**The OAuth endpoints as a protocol.** `/authorize`, `/callback`, `/token` and `/testlogin` share three
mutex-guarded maps: the redirect store, the `/testlogin` flows and the token cache. They stand between any number
of clients and an authorization server that redeems each code once.

* `Url` gives the parts of Go's `net/url` the endpoints use: forms, percent-encoding, query parsing and printing.
* `OneShot` describes a table consumed by reading through the history of its operations alone, `Memo` the
  memoised upstream that `/token` is meant to be, `TokenForm` and `Flows` the forms, `Relay` the relayed URL.
* `Handlers` has the stores and handlers as classes and methods with in-place updates, each tied to those
  functions; `OAuthMachine` interleaves the same steps. A request is a thread, its constructor is its program
  counter, and every mutex operation, lookup, forward, answer, store, write and release is one step.
  Taking an entry and releasing the table's mutex is one step, as nothing else happens in between.
* `OAuthInvariant` and `OAuthSteps` hold the inductive invariant, `OAuthTheorems` and `OAuthProgress` the results,
  for every reachable state or every run. `OAuthRouting` adds what links codes, authorize requests and callbacks,
  `OAuthCalls` what links upstream calls, redemptions and the server's own record, `OAuthLogin` what links a test
  login, the /token requests it posts and the results it shows. `OAuthWitness` builds the runs that show where a
  promise fails, and `OAuthTestRun` a whole test login. A regular step is one of a request in which nothing fails;
  the server's answer to a forwarded request counts as one.

**The PATCH body.** `JsonTree` defines pruning on values and proves that it is a unique normal form. `JsonHeap` has
the in-place, order-dependent deletion on aliased child maps and proves that it computes the same tree whatever the
iteration order. `PropertyPatch` models the patch structs, `omitempty` and the trip through JSON.

**Underwriting routes, registry and list clean-up.** `Routes`, `Registry`, `Underwriting`, `Text`, `Invitations`
and `ImageKeys` cover the routes, the input checks and the requests they lead to, and the two list loops.
The bookkeeping strip of `GetAllUnderwriting` is in `JsonTree` and `JsonHeap`.

Go strings are byte sequences (`Str`), except in JSON values, which hold text. Map iteration is an arbitrary order.

## Where the code does less than its comments say

* *Replay.* The token proxy caches only requests that carry a code. For other requests, such as those of the refresh
  grant, a 200 is not replayed: the same request goes upstream again and may get another answer. A success is always
  replayed for a code exactly when the code is not empty (`OAuthWitness.AlwaysReplayedIffCode`). The comment speaks of
  redemptions of a code, so this limits it without contradicting it.
* *Whose success is replayed.* The proxy caches any 200 under the `code` the request carries, whatever its grant type.
  A request for another grant that carries an issued code puts its own response in the cache; the exchange of that
  code then gets it, never reaches the authorization server, and the code stays unredeemed
  (`OAuthWitness.PlainSuccessStandsIn`). What is cached for a code is the server's own answer to an exchange of it
  exactly when no request that is not an exchange has carried the code and got a 200 (`OAuthCalls.OwnAnswerIff`).
* *Whose client gets the code.* The relay looks a callback up by its state alone and never compares the state with the
  request that the code answers. A callback that brings one client's code under another client's state goes to that
  other client (`OAuthWitness.CodeUnderAnotherState`). When the callback's state was saved once, its code reaches the
  client whose query it answers exactly when that query came through /authorize and carried the same state
  (`OAuthRouting.CodeReachesItsClient`). A state that is saved again goes to the latest save
  (`OAuthTheorems.CallbackRouting`). Whether the other client could redeem the code depends on PKCE, which is not
  part of this model.
* *Relay.* The callback relay is to forward every query parameter to the client. A `#` in the client's redirect cuts
  all of them off, and a `#` in the callback's raw query cuts off what follows it. Both queries arrive exactly when
  neither costs a parameter (`Relay.RelayKeepsBothQueries`). Section 3.1.2 of RFC 6749 forbids redirects with a
  fragment; `/authorize` does not check. A browser sends no `#` in a query; other HTTP clients may.
* *Integer fields of a patch.* `PatchBody` decodes into `map[string]any`, where numbers are `float64`. An integer
  arrives unchanged exactly when the spacing of `float64` values around it divides it
  (`PropertyPatch.IntSurvivesIff`); 2^53 + 1 does not (`PropertyPatch.IntLost`).

## Model

| member | source | states |
|---|---|---|
| OAuthTheorems.TokenRefinesMemo | internal/oauth/token.go:61-115 | Under every interleaving, the redemptions in lock order form a history of the atomic memoised upstream, each request occurs in it at most once and was answered as recorded: with what it got from the upstream, 500 or 502 when that failed, or what is cached. The cache holds exactly the non-empty codes that got a status 200, each with that response |
| OAuthTheorems.UnreadableRefused | internal/oauth/token.go:37-41 | A request whose body cannot be read is answered with a 400 at once, and nothing else changes |
| OAuthTheorems.RealTimeOrder | internal/oauth/token.go:63-64 | That history respects real time: a request that has its reply precedes every request that arrives later |
| OAuthTheorems.ClientsSeeOneSuccess | internal/oauth/token.go:22-25 | Any two requests that get a 200 for the same non-empty code get the same status, content type and body |
| OAuthTheorems.NothingSentAfterSuccess | internal/oauth/token.go:66-110 | From the moment the proxy has received a 200 for a code, no continuation of the run sends that code upstream, and every later redemption of it is answered with that response |
| OAuthTheorems.CachedForever | internal/oauth/token.go:31-34 | A cached response is never replaced or removed |
| OAuthCalls.RedeemedCodeIsReplayable | internal/oauth/token.go:94-110 | A code that the single-use server has redeemed is cached, with the server's own answer, whenever the lock is free, unless that answer went to somebody else or was lost in transport |
| OAuthCalls.OwnAnswerIff | internal/oauth/token.go:59-110 | What is cached for a code is the server's own answer to an exchange of that code exactly when no other kind of request has carried the code and got a 200 |
| OAuthCalls.OneCallPerConsultation | internal/oauth/token.go:84-98 | The server is called exactly once for each redemption that consulted it, for the code of that redemption, and never for a replay or a request that could not be built |
| OAuthWitness.PlainSuccessStandsIn | internal/oauth/token.go:108-110 | There is a run in which a refresh request that carries an issued code gets a 200 and then the exchange of the code, whatever its other parameters, arrives and is answered with that response: its redemption consults nobody, nothing is sent for it, and the code stays unredeemed |
| OAuthWitness.AlwaysReplayedIffCode | internal/oauth/token.go:66-73 | Over all runs of the server: whoever redeems a code after a success gets that success, exactly when the code is not empty |
| OAuthWitness.WithoutCode | internal/oauth/token.go:66 | There is a run in which two requests without a code go upstream and get a 200 and a 400 |
| OAuthTheorems.TestLoginReplays | internal/oauth/diag.go:114-157 | If attempt 1 of a test login gets a 200, attempt 2 has the identical response, or did not arrive, or had its body lost before the exchange, whatever ran in between |
| OAuthTheorems.RedirectBinding | internal/oauth/authorize.go:23-30 | For every code of a flow started at /authorize or /testlogin, a code exchange carries the redirect_uri that the server bound; `resource` reaches neither of its endpoints |
| OAuthTheorems.CallbackRouting | internal/oauth/relay.go:52-69 | A relayed callback goes to the redirect of the latest /authorize request for its state, with no operation on that state in between |
| OAuthTheorems.FlowRouting | internal/oauth/diag.go:118-143 | A callback completed as a test login has no error parameter, and the flow it redeems with is the one that the latest unconsumed /testlogin request for its state saved |
| OAuthLogin.LoginSendsItsFlow | internal/oauth/diag.go:134-149 | What the token endpoint receives for a request posted by a test login parses to the rewritten exchange form of that login's own code and of the verifier and secret toggle of its own flow |
| OAuthLogin.LoginShowsItsReplies | internal/oauth/diag.go:148-157 | Every result that a finished test login shows is the reply to a /token request that it posted itself |
| OAuthTestRun.TestLoginRun | internal/oauth/diag.go:77-159 | For every state, verifier, challenge, non-empty code and 200, there is a run in which a test login is started, its callback brings the code, and both results are that response, with one call of the server and the second result a replay |
| OAuthRouting.CallbackDecision | internal/oauth/relay.go:51-69 | A callback is claimed exactly when a test-login flow was live for its state when it looked, and then ends as an authorize error exactly when it has a non-empty error parameter; otherwise it is relayed, to the live redirect, exactly when there was one, and rejected exactly when there was none |
| OAuthRouting.ReachableRouting | internal/oauth/authorize.go:18-32 | Every /authorize and /testlogin request that has saved is in the log with its own redirect or flow, the queries the server received are exactly those that requests sent straight to it, and every code answers one of those queries |
| OAuthRouting.LoginLeaves | internal/oauth/diag.go:79-108 | An answered /testlogin request has stored its verifier and toggle under its state, and its query carries exactly the seven stated parameters, that state and the flow's challenge among them; it goes straight to the server exactly when `viaproxy` is 0 |
| OAuthRouting.CodeReachesItsClient | internal/oauth/relay.go:30-69 | When the state of a relayed callback was saved once, the client it goes to is the one whose query its code answers exactly when that query came through /authorize with the same state, and no other callback with that state is relayed |
| OAuthWitness.CodeUnderAnotherState | internal/oauth/relay.go:59-69 | For any two states and redirects there is a run, with every state saved once, in which a code that answers the first client's query is relayed to the second client's redirect |
| OAuthRouting.OneCallbackIsServed | internal/oauth/relay.go:56-69 | When the state of an answered /authorize request is saved once and an unclaimed callback for it arrives, exactly one callback with that state is relayed, to that request's own redirect_uri, and the one that arrived is either that one or rejected |
| OAuthTheorems.AtMostOneEntryConsumed | internal/oauth/relay.go:51-69 | A callback consumes at most one entry of the two tables together |
| OAuthTheorems.SavesConserved | internal/oauth/relay.go:24-40 | Per state and in both tables: saves = successful takes + overwritten saves + 1 if stored |
| OAuthTheorems.HopsBoundedByEntries | internal/oauth/diag.go:97-107 | Through any part of a run, the entries that callbacks consume and those left at its end are together at most those there at its start and the new saves; without new saves the two numbers are equal. This bounds the consuming hops of a relay chain, whatever runs beside it |
| OAuthProgress.NoDeadlock | internal/oauth/diag.go:145-157 | While any request is unfinished some request can take a regular step, although a test-login callback waits for the server's own /token |
| OAuthProgress.StuckOnlyWhenFinished | internal/oauth/token.go:63-115 | A reachable state without a regular step is one in which every request has finished |
| OAuthProgress.RunsEnd | internal/oauth/relay.go:51-70 | In any run, with requests arriving and the server acting throughout, requests take at most a bounded number of steps, plus 20 for each arrival, those of their loopback requests included |
| OAuthProgress.OneMutexAtATime | internal/oauth/diag.go:53-67 | No thread holds two of the three mutexes, and a callback that waits for its /token request holds none |
| OAuthSteps.StepInv | internal/oauth/token.go:36-116 | Every step of every endpoint and of the server keeps the whole invariant |
| OAuthSteps.RunInv | internal/oauth/relay.go:51-71 | So does every run |
| Handlers.RedirectStore.Save | internal/oauth/relay.go:24-28 | Saving overwrites silently; the map gets this entry and stays the live part of the history |
| Handlers.RedirectStore.Take | internal/oauth/relay.go:32-40 | Returns what is stored for the state, which is the most recent unconsumed save, and removes that entry |
| Handlers.DiagFlows.Save | internal/oauth/diag.go:53-57 | The same for the test-login flows |
| Handlers.DiagFlows.Take | internal/oauth/diag.go:59-67 | The same for the test-login flows |
| Handlers.TokenProxy.Exchange | internal/oauth/token.go:63-115 | Replays a cached answer; otherwise sends the form, unless the request cannot be built (500), and passes on the answer, or a 502 if none comes; an answer is cached exactly when its status is 200 and there is a code |
| Handlers.TokenProxy.Handle | internal/oauth/token.go:36-116 | A whole /token request: 400 without effect when the body is unreadable, otherwise as Exchange, with the rewritten form sent; every cached answer has the status 200 |
| Handlers.Authorize | internal/oauth/authorize.go:16-32 | Saves the client's redirect under the state; the query sent on parses to the client's with redirect_uri pinned to the server's own /callback and `resource` gone |
| Handlers.Login | internal/oauth/diag.go:81-109 | Saves the flow under the fresh state; the query sent on parses to exactly the seven stated parameters: the flow's challenge with S256, the state, the pinned redirect_uri, client_id, response_type and scope |
| Handlers.TryCallback | internal/oauth/diag.go:118-159 | Claims the callback exactly when a flow is live; an error parameter ends it there, and otherwise both attempts post the flow's exchange form. For a non-empty code the second attempt replays the success of the first; without a code each attempt shows its own answer |
| Handlers.Callback | internal/oauth/relay.go:51-71 | Ends as exactly one of claimed, relayed to the live redirect with the query attached after `?` or `&`, or rejected, and touches the redirect store only when no flow claimed it |
| Memo.RedeemIsLegal | internal/oauth/token.go:66-110 | The cache-based step is a step of the upstream that is specified by its history alone |
| Memo.ReplayedAfterSuccess | internal/oauth/token.go:22-25 | After a client saw a success, each later redemption of the code is a replay of it |
| Memo.OneFreshSuccess | internal/oauth/token.go:108-110 | Each non-empty code is granted by the upstream at most once |
| Memo.FirstSuccessIs | internal/oauth/token.go:108-110 | The success on record for a code is the response of the earliest redemption of it that got a status 200; there is one unless the code is empty or none did |
| Memo.LegalIsProduced | internal/oauth/token.go:61-115 | The specification by histories allows nothing the cache does not do: every legal history is produced by redemptions from an empty cache |
| Memo.ReplayGuaranteedIffCode | internal/oauth/token.go:24-25 | Over all legal histories, a success for a code is always replayed exactly when the code is not empty |
| Memo.EmptyCodeNotReplayed | internal/oauth/token.go:66 | Without a code, a success followed by a refusal is a legal history, hence one that is produced |
| OneShot.TakeReturnsLatestSave | internal/oauth/relay.go:30-40 | A successful take returns the latest save of its key with nothing in between |
| OneShot.Conservation | internal/oauth/relay.go:24-40 | Per key, every save is taken, overwritten or still stored |
| OneShot.SizeOfTable | internal/oauth/diag.go:53-67 | The number of entries is saves less takes less overwrites, over all keys |
| TokenForm.RewrittenForm | internal/oauth/token.go:43-82 | The secret is added, for every grant type, exactly when one is configured and the client sent neither a secret nor an Authorization header; client_id then too if it is missing. A code exchange gets the server's own /callback, `resource` goes, and every other parameter keeps all its values |
| TokenForm.SuppliedCredentialsKept | internal/oauth/token.go:75-82 | A supplied client_id or client_secret is never replaced, nor is a secret added beside an Authorization header |
| TokenForm.RewriteIdempotent | internal/oauth/token.go:43-82 | Rewriting a rewritten form changes nothing |
| Flows.ExchangeParameters | internal/oauth/diag.go:134-143 | A test login's exchange carries its code, its own flow's verifier, the pinned redirect_uri, client_id, the secret if its toggle says so, and nothing else |
| Flows.LoginParameters | internal/oauth/diag.go:94-101 | A test login asks the server for a code with exactly the seven stated parameters |
| Flows.SecretToggleHiddenIff | internal/oauth/diag.go:79-143 | Both settings of the secret toggle make /token send the same form, exactly when a client secret is configured |
| Relay.RelayKeepsBothQueries | internal/oauth/relay.go:65-69 | For all redirects and callback queries: the relayed URL's query parses to the client's own parameters followed by all of the callback's exactly when no `#`, in the redirect or in the callback's query, cuts a parameter off |
| Relay.RelayedParameters | internal/oauth/relay.go:65-69 | For all redirects and callback queries: the path is the client's, and the parameters are the client's own, followed by the callback's up to a `#` unless the redirect has one |
| Relay.RelayedBytes | internal/oauth/relay.go:65-69 | The relayed URL is the redirect and then the raw query, both untouched, with `&` between them if the redirect has a `?` and `?` if not |
| Relay.Follow | internal/oauth/relay.go:51-71 | A chain of self-redirects ends, after at most as many hops as there are entries, and leaves only for another URL |
| Relay.GoesOn | internal/oauth/relay.go:59-69 | One hop of a chain: the stored redirect is taken and leaves for another URL, or leads back here with its entry gone |
| Relay.EndsHere | internal/oauth/relay.go:55-63 | A chain is claimed where a flow is live, and refused where nothing is stored |
| Relay.ChainParameters | internal/oauth/relay.go:65-69 | What a chain of self-redirects of any length delivers, for all redirects and callback queries: each redirect puts its own parameters in front of those it is given, or loses them behind its `#` |
| Relay.ChainKeepsParameters | internal/oauth/relay.go:65-69 | If no redirect that the chain follows has a `#`, the client it reaches gets all parameters of the callback's query up to its `#`, last and in order |
| Relay.GatheredLoses | internal/oauth/relay.go:65-69 | If one of the redirects followed has a `#`, what arrives is determined by the redirects alone; which ones are followed depends on the callback's state |
| Relay.TestLoginChain | internal/oauth/diag.go:97-107 | A test login through /authorize is claimed at the first callback; a second one takes the left-over self-redirect and comes round with its query up to a `#`, and is refused then unless that changes its state |
| Url.EncodeRoundTrip | internal/oauth/token.go:84 | A form survives printing, in any key order, and parsing |
| Url.ParseJoined | internal/oauth/relay.go:65-69 | Queries joined with `&` have both parameter lists, even when one is empty |
| Url.GetFirst | internal/oauth/authorize.go:18-20 | A query parameter's value is that of its first occurrence, and empty when it has none |
| Url.PieceSays | internal/oauth/token.go:43 | A piece of a query says nothing when it is empty, has a `;` or is badly escaped, and otherwise its decoded name and value |
| Url.EscapeRoundTrip | internal/reisearch/underwriting.go:181-183 | Percent-decoding undoes percent-encoding for all byte strings, in both modes |
| Url.EscapedByte | internal/reisearch/underwriting.go:181-183 | How each single byte is written, in both modes |
| Url.HexDigits | internal/oauth/authorize.go:18 | Hexadecimal digits are read in either case, and no other byte is one |
| Url.UrlParts | internal/oauth/relay.go:69 | A URL is cut at its first `#`, and what comes before that at its first `?` |
| JsonTree.PruneIsNormal | internal/reisearch/property_update.go:106-115 | No empty object is left below the root |
| JsonTree.PruneKeepsLeaf | internal/reisearch/property_update.go:106-115 | Exactly the original leaves stay, at their paths; arrays are leaves whatever they hold |
| JsonTree.NormalUnique | internal/reisearch/property_update.go:106-115 | A tree without empty objects is determined by its leaves |
| JsonTree.PruneCanonical | internal/reisearch/property_update.go:106-115 | Two trees prune to the same tree exactly when they have the same leaves |
| JsonTree.PruneIdempotent | internal/reisearch/property_update.go:106-115 | Pruning twice is pruning once |
| JsonTree.PrunedAwayIffNoLeaf | internal/reisearch/property_update.go:99-102 | Nothing is left exactly when there was no leaf |
| JsonTree.StripExact | internal/reisearch/underwriting.go:386-398 | At every path, what stands there afterwards, leaf or object, is what stood there before, except at and under the four keys of a section, where nothing is left |
| JsonTree.StripExactLeaves | internal/reisearch/underwriting.go:386-398 | In particular exactly the leaves elsewhere stay |
| JsonTree.StripKeepsSections | internal/reisearch/underwriting.go:386-398 | Sections stay even when emptied, and stripping twice is stripping once |
| JsonHeap.PruneEmptyObjects | internal/reisearch/property_update.go:106-115 | In-place deletion over aliased children computes the pruned tree for every iteration order, within the tree's own maps |
| JsonHeap.DeleteBookkeeping | internal/reisearch/underwriting.go:393-395 | Deletes the four keys from one section, in place |
| JsonHeap.StripAll | internal/reisearch/underwriting.go:386-398 | Every entry of the list ends as its stripped tree, null and malformed entries included, in any iteration order |
| JsonHeap.Load | internal/reisearch/property_update.go:95-98 | Decoding builds fresh maps, one for each object |
| PropertyPatch.PatchBody | internal/reisearch/property_update.go:90-104 | Fails; or returns nil, exactly when all fields are zero; or returns fresh maps that have at every path what the patch's field there says, as the following lemmas characterise it |
| PropertyPatch.FailsIff | internal/reisearch/property_update.go:91-94 | Fails exactly when the listing price or a set HOA due is not a finite number |
| PropertyPatch.NothingIff | internal/reisearch/property_update.go:87-102 | Nil exactly when every text is empty, every number 0, every list empty, every pointer to a number nil and every struct absent or one of such fields |
| PropertyPatch.BodyExact | internal/reisearch/property_update.go:87-103 | Otherwise the body has, at every path, the value of the field that belongs there if it is not zero, and nothing else: no empty text, list or object, and no zero except the one a pointer points to |
| PropertyPatch.SameBodyIff | internal/reisearch/property_update.go:90-104 | Two patches give the same body exactly when their fields say the same at every path |
| PropertyPatch.ReadBack | internal/reisearch/property_update.go:26-104 | Whoever reads the body by its JSON names recovers every field of the patch, up to zero values and number rounding |
| PropertyPatch.HoaDuesSent | internal/reisearch/property_update.go:23-44 | A pointer to a number is sent whatever the number, 0 included |
| PropertyPatch.RoomTypesUntouched | internal/reisearch/property_update.go:39-85 | Each object inside customRoomTypes arrives with its id and label, empty strings included |
| PropertyPatch.IntSurvivesIff | internal/reisearch/property_update.go:95-98 | An integer survives decoding exactly when the float64 spacing around it divides it, as all up to 2^53 do; the sign makes no difference |
| PropertyPatch.SignificandHas53Bits | internal/reisearch/property_update.go:95-98 | The spacing used is that of float64: it gives every larger integer a significand of exactly 53 bits |
| PropertyPatch.RoundToIsNear | internal/reisearch/property_update.go:95-98 | The decoded value is the nearest multiple of that spacing, and of two the even one |
| PropertyPatch.IntLost | internal/reisearch/property_update.go:95-98 | 2^53 + 1 is decoded as 2^53 |
| PropertyPatch.SizeArrivesIff | internal/reisearch/property_update.go:31 | A set propertySize arrives unchanged exactly under that condition |
| PropertyPatch.Surface | internal/reisearch/property_update.go:163-172 | The result shows exactly the attributes that some patch can send, that the response has and that are not null, with their values |
| PropertyPatch.SentIsShown | internal/reisearch/property_update.go:117-124 | Every attribute a patch sends is among the editable ones, so it is shown if the response has it |
| PropertyPatch.EditableIffSettable | internal/reisearch/property_update.go:117-124 | The editable attributes are exactly those that some patch can send |
| Routes.RoomReadBack | internal/reisearch/underwriting.go:501-506 | Splitting the room route on `/` and percent-decoding recovers property, area and tag, for all byte strings |
| Routes.RouteRoundTrip | internal/reisearch/underwriting.go:181-183 | So it is for the section and field routes, with one reader for all three |
| Routes.RouteInjective | internal/reisearch/underwriting.go:442 | Two routes have the same path exactly when they are the same: no two rooms share one, and no room's is a section's or a field's |
| Routes.TagSegmentDecodes | internal/reisearch/underwriting.go:501-504 | The tag's segment has no `:` and no `/`, and decodes to the tag |
| Routes.ReplaceColonsTransparent | internal/reisearch/underwriting.go:504 | Replacing colons changes neither what any segment decodes to nor whether it decodes |
| Routes.RoomPathSegments | internal/reisearch/underwriting.go:505 | Whatever the arguments, the room route has nine segments with the fixed ones in their places |
| Registry.StrategiesHaveSections | internal/reisearch/underwriting.go:22-48 | The accepted strategies are exactly those with sections, coLiving and fixFlip |
| Registry.FixedSectionsSupported | internal/reisearch/underwriting.go:266-276 | Every strategy has the section hard-coded for clone and the one that holds the rooms |
| Registry.SharedSectionsAgree | internal/reisearch/underwriting.go:27-51 | A section of both strategies takes the same paths in both |
| Underwriting.CreateIffUpdates | internal/tools/underwriting.go:223-304 | For values update can store, create accepts data exactly when there is some, update accepts each field of it for the same strategy, section and version, and the version name is short enough |
| Underwriting.OnlyTheValueDiffers | internal/tools/underwriting.go:285-290 | Where create accepts a field and update does not, the reason is a null or empty-object value |
| Underwriting.CreateOnTheWire | internal/reisearch/underwriting.go:413-416 | As the API parses it, an accepted create sends exactly one of versionId and createNew, and a name only with createNew |
| Underwriting.UpdateOnTheWire | internal/reisearch/underwriting.go:438-443 | The same for update, which never sends a name |
| Underwriting.UpsertOnTheWire | internal/reisearch/underwriting.go:511-514 | The same for a room upsert, whose new versions have a name that is not blank |
| Underwriting.UpsertTarget | internal/reisearch/underwriting.go:118-122 | From the whole request target the API recovers the room and the query |
| Underwriting.SectionRoutes | internal/reisearch/underwriting.go:416-442 | The paths of create and update decode to the property, section and field they were given |
| Underwriting.CloneRoute | internal/reisearch/underwriting.go:266-276 | The hard-coded section of a clone's path is one that its strategy has |
| Underwriting.CloneOnTheWire | internal/reisearch/underwriting.go:269-276 | An accepted clone names its source and never sends createNew |
| Underwriting.Apply | internal/reisearch/underwriting.go:97-107 | Each of the three parameters reads back as the selector says, or as before when the selector is silent; every other parameter keeps its values |
| Underwriting.SelectedSays | internal/reisearch/underwriting.go:97-107 | A write's query says the strategy and the selected version and nothing else |
| Underwriting.CheckData | internal/tools/underwriting.go:233-241 | The loop over the data keys refuses exactly when there are none or the table does not list some key for the strategy and section, in any order |
| Underwriting.CreateSection | internal/tools/underwriting.go:223-250 | Accepted exactly when nothing is wrong with the input, and otherwise refused for its earliest fault, an unknown field being one the table does not list for the strategy and section; an accepted request carries the data, its path decodes to the section and its query says the strategy and the selected version and nothing else |
| Underwriting.UpdateSection | internal/tools/underwriting.go:272-296 | Accepted exactly when nothing is wrong with the input, and otherwise refused for its earliest fault, an invalid path being one the table does not list for the strategy and section; an accepted request carries the value, its path decodes to the field, and its query says the strategy and the selected version, never a name |
| Underwriting.CheckLineItems | internal/tools/underwriting.go:332-336 | Reports the first line item whose name is nothing but white space, if there is one |
| Underwriting.UpsertRoom | internal/tools/underwriting.go:319-345 | Accepted exactly when nothing is wrong with the input, line by line of the room, and otherwise refused for its earliest fault; an accepted request carries the room, its path decodes to it, and its query says the strategy and the selected version |
| Underwriting.CloneVersion | internal/tools/underwriting.go:392-406 | Accepted exactly when nothing is wrong with the input, and otherwise refused for its earliest fault; an accepted request has no body, its path decodes to a section and its query says the strategy, the source and no createNew |
| Text.TrimSpaceParts | internal/tools/media.go:82 | Trimming removes Unicode white space at both ends and nothing else |
| Text.TrimSpaceIdempotent | internal/tools/media.go:82 | Trimmed text starts and ends without white space |
| Text.SpaceIff | internal/tools/media.go:82 | What counts as white space are the UTF-8 forms of the code points with Unicode's White_Space property |
| Invitations.InviteUsers | internal/tools/invitations.go:41-84 | Refused with the first problem in the order of the checks, or each person is sent in order with the trimmed first name, last name and addresses and the trimmed non-blank numbers. The input's address arrays are shared and only ever trimmed, also where people share them |
| Invitations.TrimEmails | internal/tools/invitations.go:60-69 | One person's addresses are trimmed in place up to the first that is refused |
| Invitations.CleanPhones | internal/tools/invitations.go:71-77 | Phone numbers are trimmed and blank ones dropped, in order |
| Invitations.NonBlankJoins | internal/tools/invitations.go:71-76 | Dropping blank numbers leaves each other number where it is, repeated ones included |
| Invitations.TrimmedFields | internal/tools/invitations.go:50-73 | Trimming a list of people trims each name, address and number in its own place |
| Invitations.AcceptedIff | internal/tools/invitations.go:42-82 | Accepted exactly when there are 1 to 100 people, each with a first name and addresses without `<`, `>` and spaces, and at most 100 addresses in all |
| Invitations.RefusedFor | internal/tools/invitations.go:42-82 | A refusal names the first thing that is wrong: everyone before that person is addressable, and the person's earlier addresses are usable |
| Invitations.TotalAdds | internal/tools/invitations.go:48-70 | Addresses are counted person by person, duplicates included |
| Invitations.AcceptedAgain | internal/tools/invitations.go:49-82 | What is sent would be accepted again exactly when the input was, and sent again unchanged |
| Invitations.PeopleAtMostEmails | internal/tools/invitations.go:45-82 | The people of an accepted list are no more than its addresses |
| ImageKeys.CleanKeys | internal/tools/media.go:79-88 | The loop leaves exactly the trimmed keys that are not blank, each once; when none is left that is an error |
| ImageKeys.DistinctMembers | internal/tools/media.go:80-85 | They are exactly the non-blank trimmed keys |
| ImageKeys.DistinctInOrder | internal/tools/media.go:80-85 | They come in the order of their first occurrences |
| ImageKeys.NoDuplicates | internal/tools/media.go:80-85 | No key comes twice |
| ImageKeys.CleaningIdempotent | internal/tools/media.go:79-85 | Cleaning what was cleaned changes nothing |

## Left out

* Sending requests and decoding responses (`internal/reisearch/client.go` and the other client files): one HTTP call each.
* The remaining tools (search, properties, renovation, documents, media upload, deal score, rename, list, delete):
  required-field checks and pass-through.
* Relay.Follow: tells the server's own /callback by its exact spelling, because browsers resolve relative and
  differently spelled URLs outside this code; such a redirect counts as leaving.
* Error texts and hints; errors are modelled by kind and position.
* `internal/oauth/metadata.go`, `register.go`, `middleware.go` and `cmd/`: constant documents, proxying, token
  verification in a library, startup.
* Cryptography and randomness: state, verifier and challenge are arbitrary inputs; that a state was saved once is a
  hypothesis where a result needs it.
* The internals of `net/http` and `encoding/json`: the URL handed to `http.Redirect` is the output, requests arrive
  whole, a lost response is one that never arrives, and the bytes the proxy managed to read are the response.
* The sorted key order of `url.Values.Encode`: results hold for every order.
* The limit on the number of parameters in newer versions of `net/url`.
* The authorization server reads the first value of a repeated parameter; how it authenticates clients and checks
  the PKCE verifier is not modelled, so it may refuse any exchange for any reason.
* The replacement of invalid UTF-8 in JSON text, and the sign of a negative zero.
* The order in which fields are encoded: a JSON object is a map.
* `UnderwritingSectionsFor`, used in error texts only; `isEmptyData`; `msToISO`.
* `json.Marshal` of a room fails only for numbers that JSON input cannot contain; that a room is empty is compared
  with the empty struct.
* The base URL of the API and the request bodies' encoding in `Underwriting`.
