# TwitchLib.Api EventSub and undocumented endpoints in Dafny

This project models the client-side logic of two sections of the TwitchLib
.NET API client:

- **EventSub** (`TwitchLib.Api.Helix/EventSub.cs`). It creates, lists and
  deletes EventSub subscriptions. It also creates, updates and deletes
  conduits, and lists and updates conduit shards. Each operation validates its
  arguments, throwing `BadParameterException`, and otherwise builds one HTTP
  request: a verb, a path, query parameters and a JSON body.
- **Undocumented** (`TwitchLib.Api/Sections/Undocumented.cs`). This covers the
  helpers that compute something around their fetches:
  - the VOD offset arithmetic of the clip-chat lookup;
  - the comments page query, and the cursor-following loop that fetches every
    page;
  - the chatters list with its role tags and broadcaster relabelling;
  - the username-availability status check.

The HTTP layer is not modelled. A built `Request` or `Query` is what would be
sent. What a fetch returns enters as an input: the clip record, the sequence of
comment pages the server answers with, the chatters groups, and a status code.
C# `null` is `None` of an `Option` for the arguments the code tests for null.
Arguments it passes on without a test are plain strings (see "Left out").
A .NET string's `Length` counts UTF-16 code units, so `Text.Utf16Length`
counts a character outside the Basic Multilingual Plane twice. A thrown exception is the `Failure` of a
`Result`, carrying the exception kind and its message.

Files:

- `wrappers.dfy`: `Option` and `Result`.
- `text.dfy`: the .NET string operations the code relies on. These are:
  - `string.IsNullOrWhiteSpace`, using the exact `char.IsWhiteSpace` set;
  - `string.IsNullOrEmpty`;
  - `string.Length`, in UTF-16 code units;
  - `Split(c)[0]`;
  - `Replace(p, "")`, removing left to right without overlap;
  - `int.Parse` and `ToString()` of integers;
  - a case-insensitive comparison.
- `http.dfy`: query parameters, lookup by key, and the "optional parameters in
  a fixed order" shape that most request builders share, with its
  specification `Carries`.
- `eventsub.dfy`: module `EventSub`.
- `undocumented.dfy`: module `Undocumented`.

`UpdateConduitShardsAsync` checks each shard's transport method with
`List<string>.Contains`. That is an ordinal, case-sensitive comparison against
`"webhook"` and `"websocket"`, so `"Webhook"` is refused.
`ShardMethodsAgainstSubscriptionMethods` states the consequence.

## Model

| member | source | states |
|---|---|---|
| EventSub.BuildTransport | TwitchLib.Api.Helix/EventSub.cs:56-111 | Per transport method, the call succeeds exactly when that method's own arguments pass. Webhook needs a callback that is not null or white space, and a secret of 10 to 100 UTF-16 code units; Websocket needs a session id and Conduit a conduit id, each not null or white space. A failure carries that method's message. A webhook failure reports the callback before the secret. A success carries the lower-cased method name and only that method's fields, with the given values. |
| EventSub.CreateSubscription | TwitchLib.Api.Helix/EventSub.cs:44-113 | The checks run in this order: the type must not be null or empty, then the version, then the condition must be present and non-empty, then the transport. The first three failures carry their own messages, and a transport failure carries the error `BuildTransport` gives. The call succeeds exactly when all checks pass. On success it sends a POST to `/eventsub/subscriptions` with no query and a body that carries the type, version, condition and transport unchanged. |
| EventSub.MethodNameLowered | TwitchLib.Api.Helix/EventSub.cs:72 | `method.ToString().ToLowerInvariant()` yields "webhook", "websocket" and "conduit". |
| EventSub.WebhookSecretBoundaries | TwitchLib.Api.Helix/EventSub.cs:62-63 | Secret lengths of 10 and 100 UTF-16 code units are accepted. Lengths of 9 and 101, and a null secret, fail with the secret message. |
| EventSub.SurrogatePairsCountTwice | TwitchLib.Api.Helix/EventSub.cs:62-63 | The secret bound counts UTF-16 code units. A secret of five U+1F600 characters (10 code units) is accepted. One of sixty such characters (120 code units) is rejected, although it has fewer than 100 characters. |
| EventSub.OtherArgumentsIgnored | TwitchLib.Api.Helix/EventSub.cs:56-109 | The result depends only on the chosen method's own arguments. |
| EventSub.NoFieldsOfOtherMethods | TwitchLib.Api.Helix/EventSub.cs:70-107 | A built transport object never carries a property that belongs to another method. |
| EventSub.SubscriptionParamsCarried | TwitchLib.Api.Helix/EventSub.cs:130-142 | The listing query carries exactly the filters that are not null or white space, each with its own value. The keys appear in the order status, type, user_id, after, each at most once. |
| EventSub.GetSubscriptions | TwitchLib.Api.Helix/EventSub.cs:128-145 | The method is a GET of `/eventsub/subscriptions` with no body. Its parameters are the four filters in order, each sent only when it is not null or white space; see `SubscriptionParamsCarried` for what that means. |
| EventSub.DeleteSubscription | TwitchLib.Api.Helix/EventSub.cs:157-167 | It sends a DELETE of `/eventsub/subscriptions` with the single parameter `id`. It answers true exactly when the status is 204. |
| EventSub.CreateConduits | TwitchLib.Api.Helix/EventSub.cs:195-203 | It succeeds exactly when 1 <= shard count <= 20000, and otherwise fails with the shard-count message. On success it sends a POST of `/eventsub/conduits` carrying the request. |
| EventSub.UpdateConduits | TwitchLib.Api.Helix/EventSub.cs:215-223 | This is the same bound as CreateConduits, with a PATCH of `/eventsub/conduits`. |
| EventSub.ShardCountBoundaries | TwitchLib.Api.Helix/EventSub.cs:198-199 | Shard counts 0 and 20001 are refused, and 1 and 20000 are accepted, by both operations. |
| EventSub.DeleteConduit | TwitchLib.Api.Helix/EventSub.cs:235-245 | It sends a DELETE of `/eventsub/conduits` with `id`. It answers true exactly when the status is 204. |
| EventSub.GetConduitShards | TwitchLib.Api.Helix/EventSub.cs:259-273 | It sends a GET of `/eventsub/conduits/shards`. `conduit_id` comes first, then status and after in that order, each only when it is not null or white space, each carrying its own value. |
| EventSub.UpdateConduitShards | TwitchLib.Api.Helix/EventSub.cs:285-306 | It succeeds exactly when every shard has a method in {"webhook", "websocket"} and either no secret or a secret of 10 to 100 UTF-16 code units. On success it sends a PATCH carrying the request. Otherwise it fails with the error of the first rejected shard, and the method check comes before the secret check. |
| EventSub.ShardMethodsAgainstSubscriptionMethods | TwitchLib.Api.Helix/EventSub.cs:288-298 | Among the lower-cased subscription method names, the shard check accepts exactly those other than "conduit". It refuses the enum's own capitalised spelling of every method. |
| Undocumented.OffsetSeconds | TwitchLib.Api/Sections/Undocumented.cs:26-39 | For every well-formed offset `<h>h<m>m<s>s` (each part optional), the result is 2 + 3600·h + 60·m + s. The decomposition is unique, so the value is well defined. An offset without markers gives 2. Any success is at least 2. |
| Undocumented.RenderInjective | TwitchLib.Api/Sections/Undocumented.cs:28-39 | Two well-formed decompositions of the same offset text are equal. |
| Undocumented.HoursStep | TwitchLib.Api/Sections/Undocumented.cs:28-32 | On a well-formed offset, 'h' occurs exactly when an hours part is present. `Split('h')[0]` is that part, and removing it together with its 'h' leaves the rest of the offset. |
| Undocumented.MinutesStep | TwitchLib.Api/Sections/Undocumented.cs:33-37 | Once the hours are gone, the same holds for the minutes and 'm'. |
| Undocumented.SecondsStep | TwitchLib.Api/Sections/Undocumented.cs:38-39 | Once hours and minutes are gone, the text before 's' is the seconds part. |
| Undocumented.HoursTermWraps | TwitchLib.Api/Sections/Undocumented.cs:30 | The source's `int` arithmetic turns an hours part of 596524 into a negative term, although the offset stands for a positive time. |
| Undocumented.GetClipChat | TwitchLib.Api/Sections/Undocumented.cs:18-48 | No clip gives no query. Otherwise, for a well-formed offset, the query is the rechat resource with `video_id` = "v" + VOD id and `offset_seconds` = the decimal text of the offset's value. Any query built has these two parameters, and the second parses back to a number of at least 2. |
| Undocumented.CommentsParamsCarried | TwitchLib.Api/Sections/Undocumented.cs:58-65 | The comments query carries `content_offset_seconds` exactly when an offset is given, and `cursor` exactly when a cursor is given, in that order. Each carries its value. The offset is sent as its decimal text, and a non-negative offset's text parses back to it. |
| Undocumented.GetCommentsPage | TwitchLib.Api/Sections/Undocumented.cs:51-67 | It fails exactly when the video id is null, empty or white space, with that message. Otherwise it queries the video's comments URL with the optional parameters described by `CommentsParamsCarried`. |
| Undocumented.GetAllComments | TwitchLib.Api/Sections/Undocumented.cs:69-77 | It fails exactly when the video id is blank. Otherwise the pages are a prefix of the server's answers, and the last page has no `next` while every earlier page has one. The first query has no parameter, and query i sends page i−1's `next` as `cursor`. |
| Undocumented.GroupedChatters | TwitchLib.Api/Sections/Undocumented.cs:133-137 | The list is the staff, then the admins, global moderators, moderators and viewers, each group's names in order under its role. Entry i is therefore the i-th username of the response, tagged with the role of the group it falls in. |
| Undocumented.TaggedRoles | TwitchLib.Api/Sections/Undocumented.cs:133-137 | In the list built group by group, entry i is the i-th username of the response, under the role of the group it falls in, and no entry is added or lost. |
| Undocumented.GetChatters | TwitchLib.Api/Sections/Undocumented.cs:129-144 | It is that list with every entry whose username equals the channel name up to case relabelled Broadcaster. Every other entry keeps its group's role, and usernames and order are unchanged. |
| Undocumented.AddRange | TwitchLib.Api/Sections/Undocumented.cs:134 | It appends the names, in order and each under the given role, after the existing list, which is left unchanged. |
| Undocumented.IsUsernameAvailable | TwitchLib.Api/Sections/Undocumented.cs:162-176 | Status 200 answers false and 204 answers true. Any other status fails with the unexpected-response message followed by the status. |
| Text.Utf16Length | TwitchLib.Api.Helix/EventSub.cs:299 | `string.Length` is between the number of characters and twice that. It equals the number of characters when all of them are in the Basic Multilingual Plane, and twice that when none are. |
| Text.NonBlank | TwitchLib.Api.Helix/EventSub.cs:132-142 | A filter is kept exactly when it is not null or white space, and then unchanged. |
| Text.EmptyImpliesWhiteSpace | TwitchLib.Api.Helix/EventSub.cs:47-60 | Every null-or-empty string is null-or-white-space, but " " is only the latter. So the type and version checks let white space through, while the transport checks do not. |
| Text.Before | TwitchLib.Api/Sections/Undocumented.cs:30 | `Split(c)[0]` is the longest prefix without `c`. It is all of the text when `c` is absent; otherwise `c` follows it. |
| Text.RemoveAllAbsent | TwitchLib.Api/Sections/Undocumented.cs:31 | `Replace(p, "")` leaves a text unchanged when the text lacks one of `p`'s characters. |
| Text.NatStringRoundTrip | TwitchLib.Api/Sections/Undocumented.cs:44 | `ToString()` of a non-negative number is a digit run that `int.Parse` reads back as the same number. |
| Text.IntStringRoundTrip | TwitchLib.Api/Sections/Undocumented.cs:60 | Non-negative numbers round-trip through `ToString()` and parsing; negative ones do not parse here. |
| Text.ParseInt | TwitchLib.Api/Sections/Undocumented.cs:30 | It parses exactly the non-empty runs of decimal digits, to a non-negative value. |
| Http.LookupAppend | TwitchLib.Api.Helix/EventSub.cs:130-142 | Looking a key up in two parameter lists joined finds the first list's entry when it has one. |
| Http.FilteredSpec | TwitchLib.Api.Helix/EventSub.cs:130-142 | A run of optional parameters with distinct keys carries each value under its key, with keys in the given order. |

## Left out

- HTTP dispatch, `async`/`await`, the rate limiter, the client id and access token overrides, API versions and base URLs are left out. Nothing is sent; the request is the result.
- JSON serialisation: a body is the object that would be serialised, and the response models (DTOs) are not part of this model.
- `GetConduitsAsync` (`EventSub.cs:179-183`) is a GET of `/eventsub/conduits` with no arguments and no checks, so there is nothing to state about it beyond the request itself.
- The forwarding endpoints of `Undocumented.cs` only build a URL and forward it. These are prime offers, channel hosts, chat properties, panels, CS maps and streams, recent messages, recent events, chat user and extension data.
- URL building is left out: the chatters URL (with `channelName.ToLower()`) and the username-probe URL.
- Reading the VOD URL of a clip is left out: `clip.VOD.Url.Split('=')[1]` and the clip lookup itself. The clip record enters with its offset text already extracted.
- The `default` branch of the transport-method switch (`ArgumentOutOfRangeException`) is left out: the method datatype has only the three enum members.
- Text.ParseInt: does not model `int.Parse`'s leading sign, surrounding white space or `OverflowException`. Only digit runs parse, and anything else is a format error.
- Undocumented.OffsetSeconds: computes in unbounded integers, the corrected form of the source's 32-bit products (see Findings). Offsets that are not of the `<h>h<m>m<s>s` shape are only bounded below when they succeed; their exact value is not stated.
- Text.EqualsIgnoreCase: compares by ASCII case folding, not the current culture's rules.
- Undocumented.GetAllComments: requires that some page the server returns has no `next`. The loop in the source does not end otherwise, and a server that keeps returning cursors is not modelled.
- EventSub.UpdateConduitShards: does not model the `NullReferenceException` thrown for a null `request.Shards`, a null shard or a null shard transport. The shard list, each shard and its transport are always present here.
- EventSub.DeleteSubscription: takes the id as a string that is never null. The source passes a null `id` into the query unchecked, and what is then sent depends on the HTTP layer.
- EventSub.DeleteConduit: takes the id as a string that is never null, for the same reason as `DeleteSubscription`.
- EventSub.GetConduitShards: takes `conduitId` as a string that is never null, for the same reason as `DeleteSubscription`.
- What the server does with a request is left out: remote shard disabling, the per-shard results of a batch update, and subscription costs.

## Findings

| source | as written | input that shows it | evidently intended | confidence | as-written member | corrected member |
|---|---|---|---|---|---|---|
| TwitchLib.Api/Sections/Undocumented.cs:30 | `int.Parse(...) * 60 * 60` is computed in 32-bit `int` and wraps before it is added to the `long` total | offset text `596524h` | the hours term computed in `long` (2 + 596524·3600 seconds) | low, not executed | Undocumented.HoursTermWraps | Undocumented.OffsetSeconds |
