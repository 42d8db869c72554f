# A verified model of the demisto Slack client and its example programs

This project models the core of a Go client library for the Slack Web and
Real Time Messaging (RTM) APIs, together with the example programs built on
it. The model covers:

- **Event normalisation in the RTM reader.** Each WebSocket frame becomes one
  flat `Message` record. Channel-like and user-like events are flattened. A
  frame that does not parse, or a read that fails, becomes an `error` event.
- **RTM connection state.** `RTMStart`, `RTMSend` and `RTMStop` keep a
  connection flag and the message-id counter.
- **Client configuration.** The options of `New` and the URL normalisation.
- **The request layer.** The 2xx status check, the `ok` flag of a Slack
  reply, and the `token` parameter.
- **The Web API wrappers.** The id-routed channel, group and IM methods.
  Message posting with HTML-style escaping. Reaction and upload validation,
  and the parameters each call sends.
- **The terminal client** (`scli`): roster lookups, channel switching,
  `history` argument parsing, upload file-name parsing, command dispatch,
  prefix completion, and the read-marker loop.
- **The web viewer** (`frame`) and its browser code. Mention rewriting, the
  channel filter, the recent-message buffer, colour parsing and invite
  handling. The WebSocket client list. The page's clock text, bounded
  message list and date separators.
- **The archiver** (`archive`): sortable database keys, name caches that
  consult the server on a miss, the event filter, the reconnect loop, and
  the save queue.
- **The security bot** (`rtm` example): map joining, URL extraction,
  VirusTotal colour thresholds and the event filter.

Each Go or JavaScript source file has a Dafny module of its own:

| file | module |
|---|---|
| rtm.go | `Rtm` |
| slack.go | `Slack` |
| chan-gr-im.go | `ChanGrIm` |
| chat.go | `Chat` |
| reaction.go | `Reaction` |
| file.go | `File` |
| examples/scli/scli.go | `Scli` |
| examples/scli/commands.go | `Commands` |
| examples/scli/completer.go | `Completer` |
| examples/frame/frame.go | `Frame` |
| examples/frame/ws.go | `Ws` |
| examples/frame/static/src/main.js | `MainJs` |
| examples/archive/archive.go | `Archive` |
| examples/rtm/rtm.go | `RtmExample` |

Two modules hold shared code:

- `Common` (common.dfy) models the Go library helpers the code relies on:
  `strings.Split`, `Join`, `Fields`, `TrimSpace`, `ToLower`, `EqualFold`,
  `Index`, `strconv.Itoa` and `Atoi`, and `url.Values`, a class whose `Add`
  appends and whose `Set` replaces.
- `Mentions` (mentions.dfy) holds the mention-rewriting loop, the channel
  filter and the reconnect loop. `frame.go` and `archive.go` carry identical
  copies of these; here they are written once, parameterised by how names
  are looked up.

Two kinds of state are modelled differently:

- State the source mutates in place is a Dafny `class` whose methods carry
  `modifies` clauses: the client, the WebSocket handler, the viewer, the
  archiver, the save handler, the read-marker loop and the browser page.
- The network, JSON, goroutines and channels are replaced by values the
  caller passes in. Examples are a reply already classified as
  `HttpReply`, a frame already decoded as `Frame`, the outcome of each
  reconnect attempt, and a remote lookup given as one fixed function of the
  id for the whole run.

Where the source crashes or hangs, the model states this as a precondition
rather than fixing it:

- The frame and archive loops dereference a nil event, so `msg.Some?` is
  required.
- The mention loop never ends on some texts, so termination is required as
  `exists n :: Run(...).Some?`. The loops rewrite only messages whose
  channel passes the filter, so the requirement is made for those
  messages alone.
- The archiver reads the first byte of an empty channel id, so a non-empty
  id is required.
- The mention loop also panics on a mention with an empty id, such as
  "<@|x>", because it reads the first byte of the id (frame.go:98). The
  termination precondition `exists n :: Run(...).Some?` excludes this case
  as well as the texts on which the loop runs forever.
- The completer dereferences a missing user when it completes IM names
  (completer.go:84), so `Completer.Complete` requires `PartnersKnown` in
  that case. It also indexes the first field past the command prefix, so
  it requires that field to exist and to be at least as long as the
  prefix. With an empty prefix, a blank line is the case this excludes.
- `Archive.Handler.Handle` requires the queue to be open. After `Stop`
  (archive.go:154-160) the channel is nil, and the send at archive.go:70
  then blocks forever.

Quirks of the source are modelled as written:

- `Leave` calls `join`.
- The read-marker map is never cleared.
- At capacity the viewer's buffer collapses to the single newest message.
  The history loader can leave the buffer above capacity; it collapses
  the same way at the first live message.
- The browser page shifts out one message per push, so a history reply
  longer than the limit keeps the page at that length.
- A URL report with response code other than 1 leaves the colour "good".

Where the model follows the code over the written specification of the
system:

- rtm.go:111 sets an `Unmarshall` flag on the event's error record, while
  message.go declares only a code and a message. The model's
  `Rtm.ErrorInfo` carries all three, as rtm.go and the examples use them.
- scli.go and commands.go both define `channelName` and `switchChannel`.
  They differ: commands.go names a direct-message channel by the partner's
  user name, scli.go by the IM's own name. Each file's version is modelled
  in its own module (`Scli.ChannelName`, `Commands.ChannelName`).

## Model

| member | source | states |
|---|---|---|
| Rtm.ParseFailure | rtm.go:98-101 | a decoding failure is never reported as a bare "EOF": the end of input becomes "unexpected EOF" |
| Rtm.ErrorEvent | rtm.go:98-112 | an error event has type "error", code 0, the failure text, the given parse-failure flag and the caller's context |
| Rtm.Decode | rtm.go:62-114 | a channel-family frame is flattened to type, channel id, creator and name. A user-family frame is flattened to type, user id and name. Any other tag is decoded field by field. Each failing decode becomes an error event with the parse flag set; a read failure becomes one with the flag clear. The context is always the caller's |
| Rtm.ReadLoop | rtm.go:62-119 | one event per frame, in read order, each equal to `Decode` of its frame. Only a read failure stops the loop, right after its error event is delivered. Every delivered event carries the caller's context |
| Rtm.IndexByID | examples/archive/archive.go:169-173 | the index of the first record with the id at or after k, or -1 exactly when none has it |
| Slack.Render | slack.go:38-40 | the rendering is the id, then ": ", then the detail |
| Slack.RenderInjective | slack.go:38-40 | two errors whose ids contain no ':' render differently unless they are equal |
| Slack.RenderColon | slack.go:38-40 | when the id has no ':', the first ':' of the rendering ends the id |
| Slack.URLError | slack.go:184-194 | the URL is rejected with "bad_url" exactly when it does not parse or its scheme is neither http nor https |
| Slack.BeforeFragment | slack.go:184 | the part of the URL that is parsed: the longest prefix without '#', ending where the first '#' stands |
| Slack.ParseScheme | slack.go:184-190 | a control character before the first '#' fails with url.Error's "invalid control character" text for that part; every failure reads `parse "…": ` and its cause; a non-empty scheme is followed by ':' in the URL |
| Slack.ParseIgnoresFragment | slack.go:184-190 | whatever follows the first '#', control characters included, changes neither the scheme nor the error |
| Slack.ParseErrorText | slack.go:186 | the detail starts with `parse "`, ends with the quote, ": " and the cause, and the quoted URL holds no control character |
| Slack.QuoteBody | slack.go:186 | the quoted form of a URL holds no control character and is no shorter than it |
| Slack.NormalizeURL | slack.go:181-198 | "" is stored as `DefaultURL`. A non-empty URL that already ends with "/" is stored as it is; one that does not gets exactly one "/" appended. The stored URL always ends with "/" |
| Slack.ApplyOption | slack.go:142-201 | `SetToken("")` fails with ErrBadToken and changes nothing; a non-empty token is stored verbatim. `SetOAuthCredentials` fails with ErrBadOAuth exactly when id, secret or code is empty, and stores all four otherwise. `SetURL` of "" or of a URL checks `DefaultURL` or that URL: it fails exactly when `URLError` gives an error, and then with that error; it succeeds exactly when the parsed scheme is http or https, and then stores the normalised URL |
| Slack.ApplyAllFirstFailure | slack.go:111-115 | when the options fail, some option fails on the state the options before it built, with the error the whole run returns |
| Slack.ApplyAllSnoc | slack.go:111-115 | running one more option after a successful run is that option applied to the result |
| Slack.ApplyAllPrefixFailure | slack.go:111-115 | once a prefix of the options fails, the whole run fails with the same error |
| Slack.NewSettings | slack.go:103-125 | the first failing option's error aborts. No token and no client id yields exactly ErrNoToken. When the options succeed and give a token or a client id, the result is exactly their settings, with an unset URL replaced by DefaultURL |
| Slack.ApplyAll | slack.go:111-115 | a successful run keeps the stored URL unset or ending in "/", and never loses a token; only a non-empty list can fail |
| Slack.SetURLIdempotent | slack.go:195-198 | applying `SetURL` again to the URL it stored succeeds and changes nothing |
| Slack.NormalizeAccepted | slack.go:195-198 | the stored form of an accepted URL, with its trailing slash, is accepted too |
| Slack.SchemeAppend | slack.go:190-198 | appending the trailing "/" keeps the URL's scheme |
| Slack.HandleError | slack.go:243-256 | no error exactly for status 200 to 299 (the 2xx class, section 15.3 of RFC 9110); otherwise an "http_error" |
| Slack.ReplyError | slack.go:260-304 | a call succeeds exactly when a 2xx reply carries `ok` = true. A transport failure is passed on. A non-2xx reply gives "http_error". `ok` = false gives the server's error text |
| Slack.WithNotEmpty | slack.go:308-312 | an empty value leaves the parameters as they were; otherwise the value is appended under the name and every other key keeps its values |
| Slack.AppendNotEmpty | slack.go:308-312 | the caller's parameter object becomes `WithNotEmpty` of its old contents |
| Slack.Client.constructor | slack.go:105-108 | a new client has the initial settings, no connection and message id 0 |
| Slack.Client.Apply | slack.go:112-114 | a failing option leaves the configuration as it was and returns its error; a succeeding one stores `ApplyOption`'s result |
| Slack.Client.ApplyURL | slack.go:180-200 | the `SetURL` closure: a bad URL or scheme leaves the configuration as it was and returns that error; otherwise the stored URL is the normalised one, and the connection state is untouched |
| Slack.Client.ApplyEach | slack.go:111-115 | the configuration after running the options in order is `ApplyAll` of them, and the error is the first failure's |
| Slack.ApplyEachStep | slack.go:111-115 | a failing option decides the whole list's error; a succeeding one extends the applied prefix |
| Slack.Client.Do | slack.go:260-304 | the token is added to the caller's parameters only when set, the request goes to url + path, and the error is `ReplyError` of the reply |
| Slack.Client.New | slack.go:103-137 | a failing option list returns no client and the option's error. With a token, a fresh client holds `NewSettings`. Without one, the OAuth outcome decides: its error is returned with no client, or its token is stored in a fresh client. A returned client is unconnected, with message id 0 |
| Slack.Client.RTMStart | rtm.go:44-54 | a failing `rtm.start` call returns its error without touching the connection. A failing dial clears the connection. Otherwise the connection is open |
| Slack.Client.RTMSend | rtm.go:133-147 | with no connection: id 0, nothing sent, an error, and the counter unchanged. Otherwise the counter grows by exactly one and the sent frame carries the new id |
| Slack.Client.RTMStop | rtm.go:150-157 | the connection is cleared. Only closing an open connection can fail, so a second stop returns no error |
| ChanGrIm.PrefixByID | chan-gr-im.go:124-133 | 'G' routes to "groups.", 'D' to "im.", anything else to "channels." |
| ChanGrIm.RoutedFamily | chan-gr-im.go:124-133 | every routed method name starts with the family of the id's first character |
| ChanGrIm.Call | chan-gr-im.go:139-143 | a wrapper sends the given parameters plus the token, and reports `ReplyError` of the reply as its error |
| ChanGrIm.Archive | chan-gr-im.go:136-144 | sends `PrefixByID(channel)` + "archive" with the channel |
| ChanGrIm.Unarchive | chan-gr-im.go:147-155 | sends `PrefixByID(channel)` + "unarchive" with the channel |
| ChanGrIm.HistoryParams | chan-gr-im.go:158-167 | channel always; latest and oldest only when non-empty; inclusive="1" only when true; count only when non-zero, in decimal |
| ChanGrIm.History | chan-gr-im.go:158-174 | sends `PrefixByID(channel)` + "history" with `HistoryParams` |
| ChanGrIm.BuildHistoryParams | chan-gr-im.go:159-167 | the `url.Values` object built step by step holds exactly `HistoryParams` |
| ChanGrIm.Kick | chan-gr-im.go:177-185 | sends `PrefixByID(channel)` + "kick" with channel and user |
| ChanGrIm.Leave | chan-gr-im.go:188-196 | sends `PrefixByID(channel)` + "join", as written, with the channel |
| ChanGrIm.Mark | chan-gr-im.go:199-208 | sends `PrefixByID(channel)` + "mark" with channel and ts, and returns only the error |
| ChanGrIm.Rename | chan-gr-im.go:211-219 | sends `PrefixByID(channel)` + "rename" with channel and name |
| ChanGrIm.SetPurpose | chan-gr-im.go:222-230 | sends `PrefixByID(channel)` + "setPurpose" with channel and purpose |
| ChanGrIm.SetTopic | chan-gr-im.go:233-241 | sends `PrefixByID(channel)` + "setTopic" with channel and topic |
| ChanGrIm.CloseGroupOrIM | chan-gr-im.go:244-252 | sends `PrefixByID(id)` + "close" with the id as channel |
| ChanGrIm.OpenGroupOrIM | chan-gr-im.go:255-263 | sends `PrefixByID(id)` + "open" with the id as channel |
| ChanGrIm.ListParams | chan-gr-im.go:300-303 | exclude_archived="1" is sent exactly when the flag is true, and nothing else |
| ChanGrIm.ChannelList | chan-gr-im.go:299-310 | sends "channels.list" with `ListParams` |
| ChanGrIm.GroupList | chan-gr-im.go:368-379 | sends "groups.list" with `ListParams` |
| ChanGrIm.IMList | chan-gr-im.go:382-390 | sends "ims.list" with no parameter but the token |
| Chat.EscapeChar | chat.go:66-68 | an escaped character contains no '<' and no '>' |
| Chat.Escape | chat.go:66-68 | the escaped text contains no '<' and no '>' and is no shorter than the input |
| Chat.UnescapeEscape | chat.go:66-68 | undoing the three replacements restores the input, so a produced '&' is never escaped twice |
| Chat.PostText | chat.go:65-71 | with escaping, the text has no '<' or '>' and unescapes to the message text; without, it is the message text |
| Chat.HeadParams | chat.go:72-78 | channel and text always; username only when non-empty |
| Chat.FixedParams | chat.go:79-82 | as_user as "true"/"false", parse, link_names in decimal and thread_id are set; no other key changes |
| Chat.TailParams | chat.go:83-91 | attachments only when the list is non-empty, as a JSON array; unfurl_links and unfurl_media as "true"/"false"; no other key changes |
| Chat.IconParams | chat.go:92-97 | icon_url and icon_emoji only when non-empty; no other key changes |
| Chat.PostParamsContent | chat.go:72-75 | the sent parameters carry the channel and the (escaped) text |
| Chat.PostParamsFixed | chat.go:79-82 | the sent parameters always carry as_user, parse, link_names and thread_id |
| Chat.PostParamsUnfurl | chat.go:90-91 | the sent parameters always carry unfurl_links and unfurl_media |
| Chat.PostParamsOptional | chat.go:76-89 | username and attachments are sent exactly when given |
| Chat.PostParamsIcons | chat.go:92-97 | icon_url and icon_emoji are sent exactly when non-empty |
| Chat.BuildPostParams | chat.go:72-97 | the `url.Values` object built step by step holds exactly `PostParams` |
| Chat.SetTail | chat.go:83-91 | the builder's attachments and unfurl steps leave exactly `TailParams` of the earlier parameters |
| Chat.SetIcons | chat.go:92-97 | the builder's icon steps leave exactly `IconParams` of the earlier parameters |
| Chat.SetFixed | chat.go:79-82 | the four `Set` calls leave the object holding `FixedParams` of its old contents |
| Chat.PostMessage | chat.go:63-104 | sends "chat.postMessage" with `PostParams` plus the token; the error is `ReplyError` |
| Reaction.ReactionCheck | reaction.go:33-38 | passes exactly when the name is set and a file, a file comment, or both channel and timestamp are given. An empty name is reported first |
| Reaction.TargetParams | reaction.go:39-43 | file, file_comment, channel and timestamp are each sent exactly when non-empty |
| Reaction.ReactionParams | reaction.go:39-43 | name is always sent, then the target parameters |
| Reaction.ReactionTargetSent | reaction.go:36-43 | a request that passes the check names at least one complete target |
| Reaction.ReactionsAction | reaction.go:32-50 | a failing check returns its error and sends nothing; otherwise the request carries `ReactionParams` and the token |
| Reaction.ReactionsAdd | reaction.go:53-55 | `ReactionsAction` with "reactions.add" |
| Reaction.ReactionsRemove | reaction.go:58-60 | `ReactionsAction` with "reactions.remove" |
| Reaction.GetParams | reaction.go:63-72 | no validation; full="true" only when requested; the target parameters only when non-empty |
| Reaction.ReactionsGet | reaction.go:63-78 | sends "reactions.get" with `GetParams` |
| Reaction.ListParams | reaction.go:82-87 | only user (when non-empty) and full (when requested) |
| Reaction.ReactionsList | reaction.go:81-93 | sends "reactions.list" with `ListParams`; count and page are ignored |
| File.FieldKeys | file.go:104-108 | the keys written are exactly the keys of the fields |
| File.FormFields | file.go:104-108 | one field per parameter key, each carrying that key's first value, with no key written twice |
| File.WrittenStep | file.go:104-108 | writing one more pending key keeps every written field equal to its key's first value |
| File.FieldKeysSnoc | file.go:104-108 | the keys of the fields grow by exactly the key of the field written |
| File.UploadParams | file.go:160-167 | title, filetype, filename and initial_comment only when non-empty; channels only for a non-empty list, joined by "," |
| File.WithChannels | file.go:165-167 | channels is added, joined by ",", exactly for a non-empty list, and nothing else changes |
| File.UploadError | file.go:125-150 | a stream error comes first; otherwise success exactly for a 2xx reply with `ok` = true |
| File.DoUpload | file.go:78-153 | the token is added only when set; the form goes to url + path with the file name, one field per key carrying its first value |
| File.Upload | file.go:156-174 | an empty file name is an error and sends nothing. Otherwise the form to "files.upload" carries exactly `UploadParams` plus the token |
| Scli.IMIndexByName | examples/scli/scli.go:115-120 | the first IM whose name matches ignoring case, or -1 exactly when none does |
| Scli.ChannelName | examples/scli/scli.go:75-100 | "" for an empty id or another first character. 'C', 'G' and 'D' look up channels, groups and IMs, naming an IM by its own Name. "" when there is no match |
| Scli.SwitchTarget | examples/scli/scli.go:102-122 | the first channel matching ignoring case, else the first such group, else the first such IM, else nothing |
| Scli.SwitchTargetNone | examples/scli/scli.go:102-122 | there is no target exactly when no channel, group or IM name matches |
| Scli.SwitchChannel | examples/scli/scli.go:102-122 | reports a match exactly when there is a target; the current channel becomes the target, or stays as it was |
| Scli.Pending | examples/scli/scli.go:136-140 | the pending map only ever gains keys |
| Scli.PendingGrows | examples/scli/scli.go:127-140 | every channel pending after a prefix of the events stays pending, since the map is never cleared |
| Scli.PendingLastWrite | examples/scli/scli.go:137-139 | a channel's pending timestamp is that of its last message from someone else |
| Scli.PendingUntouched | examples/scli/scli.go:137 | a channel no counted message mentions keeps its starting entry, or stays absent |
| Scli.MarkedStep | examples/scli/scli.go:133-135 | marking one more pending channel keeps every mark equal to the stored timestamp |
| Scli.ReadMarker.constructor | examples/scli/scli.go:127 | the pending map starts empty |
| Scli.ReadMarker.OnMessage | examples/scli/scli.go:136-140 | a message from someone else shows "channel: text" and sets the channel's pending timestamp; anything else changes nothing |
| Scli.ReadMarker.OnTick | examples/scli/scli.go:132-135 | one mark per pending channel, each with the stored timestamp; the map is kept |
| Scli.ReadMarker.OnEvent | examples/scli/scli.go:129-141 | a tick marks every pending channel with its timestamp; a message moves the map as `Pending` does and marks nothing |
| Scli.ReadMarker.Receive | examples/scli/scli.go:124-143 | over a run of events the map follows `Pending`, and each tick marks every channel pending at that moment |
| Commands.FindNamed | examples/scli/commands.go:17-33 | the first roster entry with exactly that id, or nothing exactly when there is none |
| Commands.IMIndexByID | examples/scli/commands.go:35-42 | the first IM with the id, or -1 exactly when none has it |
| Commands.FindIM | examples/scli/commands.go:35-42 | the first IM with the id, or nothing exactly when none has it |
| Commands.UserNameByID | examples/scli/commands.go:54-61 | the user's name when the id is found, otherwise the id itself |
| Commands.IndexByName | examples/scli/commands.go:69-78 | the first entry whose name matches ignoring case, or -1 exactly when none does |
| Commands.FindByName | examples/scli/commands.go:69-78 | the first entry whose name matches ignoring case, or nothing exactly when none does |
| Commands.IMIndexByPartner | examples/scli/commands.go:79-83 | the first IM whose partner's user name matches ignoring case, or -1 exactly when none does |
| Commands.FindIMByPartner | examples/scli/commands.go:79-83 | an IM whose partner's name matches, or nothing exactly when none does |
| Commands.ChannelName | examples/scli/commands.go:100-125 | as in scli.go, except that a 'D' id is named by the IM partner's user name |
| Commands.ChannelID | examples/scli/commands.go:63-85 | an id that already names something is returned unchanged. Otherwise the id of the first match ignoring case among channels, then groups, then IM partners, else "" |
| Commands.UserID | examples/scli/commands.go:87-98 | a known user id unchanged, otherwise the id of the first user whose name matches, else "" |
| Commands.FindNamedUnique | examples/scli/commands.go:17-51 | with distinct ids, looking up an entry's id finds that entry |
| Commands.ChannelNameOfChannelID | examples/scli/commands.go:63-125 | a name resolved to an id names that id back, up to case |
| Commands.UserNameOfUserID | examples/scli/commands.go:54-98 | a user name resolved to an id names that id back, up to case |
| Commands.Session.constructor | examples/scli/commands.go:127 | a session holds the roster and the current channel |
| Commands.Session.SwitchChannel | examples/scli/commands.go:127-134 | succeeds exactly when `ChannelID` is non-empty, and only then changes the current channel, to that id |
| Commands.Longs | examples/scli/commands.go:214-227 | the long arguments, in order |
| Commands.Shorts | examples/scli/commands.go:214-227 | the short arguments, in order |
| Commands.AtoiOrZero | examples/scli/commands.go:217-218 | the number a numeric argument denotes, and 0 for anything else |
| Commands.HistoryArgs | examples/scli/commands.go:214-227 | latest is the first long argument. oldest is the last long argument when there are two or more. count is the last short argument's number, 0 when not numeric |
| Commands.HistoryFoldArgs | examples/scli/commands.go:214-227 | the values the loop leaves are the first and last long arguments and the last short one read as a number |
| Commands.ArgsStep | examples/scli/commands.go:214-227 | one more argument extends exactly one of the two lists |
| Commands.HandleHistory | examples/scli/commands.go:204-240 | a call is made exactly when the channel resolves (the current one by default), with `HistoryArgs` of the rest |
| Commands.LeadingSpaces | examples/scli/commands.go:540-542 | the length of the leading whitespace |
| Commands.NameEnd | examples/scli/commands.go:545-549 | the first whitespace not preceded by '\', or the end |
| Commands.ParseUpload | examples/scli/commands.go:537-560 | leading whitespace is skipped. The name runs to the first whitespace not after '\', with backslashes turned into spaces. The comment is everything after that one separator |
| Commands.UploadName | examples/scli/commands.go:550 | the file name is the text up to `NameEnd` with every '\' replaced by a space |
| Commands.EscapeSpacesShape | examples/scli/completer.go:142 | a name escaped by the completer has every space after a '\' and every '\' before a space |
| Commands.UnescapeEscapeSpaces | examples/scli/completer.go:142 | removing the completer's escapes restores the name |
| Commands.NameEndEscaped | examples/scli/commands.go:545-549 | an escaped name followed by whitespace or the end is cut exactly at its end |
| Commands.UploadNameDoublesSpace | examples/scli/commands.go:550 | the name "a b", escaped by the completer as "a\ b", is read back as "a  b" |
| Commands.UploadNameCorrectedRoundTrip | examples/scli/commands.go:550 | with each "\ " read as one space, every completed name is read back exactly |
| Commands.LeadingSpacesUnique | examples/scli/commands.go:540-542 | the leading whitespace is determined by where it stops |
| Commands.CommandOf | examples/scli/commands.go:614-615 | the command word is as long as the first field less the prefix and equals that text up to case. It holds no upper-case letter and no white space, so no case label with an upper-case letter can match it |
| Commands.Dispatch | examples/scli/commands.go:616-650 | only "exit" selects the exit handler; the create handler is selected by its three listed names |
| Commands.HandleCommand | examples/scli/commands.go:613-652 | true exactly for the command "exit", in any case |
| Commands.CreateChildUnreachable | examples/scli/commands.go:615-624 | the mixed-case "g-createChild" label can never be selected, since the command is lower-cased first |
| Commands.LowerNotUpper | examples/scli/commands.go:615 | a lower-cased character is never an upper-case letter |
| Completer.In | examples/scli/completer.go:38-46 | true exactly when the value occurs in the list |
| Completer.Offer | examples/scli/completer.go:52-60 | at most one completion per name, and it extends the line |
| Completer.Completions | examples/scli/completer.go:48-63 | no more completions than names |
| Completer.CompletionsExtendLine | examples/scli/completer.go:50-62 | every completion starts with the line |
| Completer.CompletionsMember | examples/scli/completer.go:50-62 | a completion is exactly an offer of one of the names |
| Completer.CompletionsAfterSpace | examples/scli/completer.go:52-55 | after a space, line + name is offered exactly when the name is not already among the parts |
| Completer.FindCompletions | examples/scli/completer.go:48-63 | the loop returns `Completions`, in the order of the names |
| Completer.CommandCompletions | examples/scli/completer.go:161-167 | each completion is prefix + command and starts with the token, in table order |
| Completer.CommandCompletionsMember | examples/scli/completer.go:161-167 | prefix + c is offered exactly when it starts with the token |
| Completer.SourceOf | examples/scli/completer.go:170-204 | channel, group, IM and file names complete the first argument; user names complete the second argument of invite and kick |
| Completer.NamesOf | examples/scli/completer.go:65-103 | the roster's names, one per entry, in order |
| Completer.PartnerNames | examples/scli/completer.go:81-87 | the partner's user name of each IM, in order |
| Completer.PrefixedFirstField | examples/scli/completer.go:154-157 | a line starting with the prefix has a first field starting with it |
| Completer.Complete | examples/scli/completer.go:152-207 | nothing for a line without the prefix. Command completions for a single unfinished token. Otherwise the source's names, completed by `FindCompletions` |
| Completer.CompleteCommand | examples/scli/completer.go:162-167 | the loop yields exactly the prefixed commands that start with the typed word, in table order |
| Mentions.InterestedIn | examples/frame/frame.go:72-83 | true when no filter is set; otherwise true exactly when the name matches some comma-separated item ignoring case (archive.go:209-220 is the same) |
| Mentions.AnyFold | examples/frame/frame.go:77-82 | true exactly when some item matches ignoring case |
| Mentions.InterestedInListed | examples/frame/frame.go:72-83 | a listed channel passes the filter, in any case |
| Mentions.ToLowerIdempotent | examples/frame/frame.go:78 | lower-casing twice is lower-casing once |
| Mentions.MentionAt | examples/frame/frame.go:88-95 | the first "<@" and the first '>' after it, with no '>' in between; nothing exactly when either is missing |
| Common.IndexChar | examples/frame/frame.go:92 | the index of a character is its first occurrence, or -1 exactly when it is absent |
| Mentions.StepOf | examples/frame/frame.go:88-111 | a turn of the loop finishes exactly when no mention remains |
| Mentions.Rewrite | examples/frame/frame.go:96-111 | an empty id before a bar panics. A mention rewrites exactly when it has a non-empty id and either one bar or, without a bar, an id starting with 'U' or 'C'; every other mention is left as it is. A rewritten text starts with '@' exactly for a user id, '#' otherwise, and keeps the text after the '>' |
| Mentions.StepKeepsRest | examples/frame/frame.go:96-108 | one rewriting turn replaces everything up to the mention's '>' (so the text before "<@" is dropped). A mention holding an id X, a bar and a name becomes "@name" when X starts with 'U' and "#name" otherwise. A bare user id becomes '@' and the user's name; a bare channel id becomes '#' and the channel's name. The text after the '>' follows unchanged |
| Mentions.RunSteps | examples/frame/frame.go:87-112 | a finished run ends on a text with no mention left |
| Mentions.RunMonotone | examples/frame/frame.go:87-112 | more fuel does not change a finished run |
| Mentions.RunNoMention | examples/frame/frame.go:88-95 | a text with no mention is returned unchanged |
| Mentions.StuckExample | examples/frame/frame.go:103-111 | "<@B1>" (an id starting with neither 'U' nor 'C') never finishes, with any fuel |
| Mentions.RunStuckSteps | examples/frame/frame.go:97-111 | a text that the loop leaves unchanged never finishes |
| Mentions.TraceSteps | examples/frame/frame.go:87-112 | a finished run is a chain of rewriting turns from the text to the result |
| Mentions.TraceAt | examples/frame/frame.go:87-112 | inside the chain each turn rewrites to the next text, and only the last text has no mention |
| Mentions.Finished | examples/frame/frame.go:87-112 | the text the loop ends on has no mention left and is what every finished run yields |
| Mentions.RunUnique | examples/frame/frame.go:87-112 | all finished runs agree |
| Mentions.Translate | examples/frame/frame.go:86-112 | the loop ends on `Finished` of the text |
| Mentions.RewriteFirst | examples/frame/frame.go:96-111 | one turn of the loop's body yields the rewriting step's text |
| Mentions.FirstStart | examples/frame/frame.go:138-144 | the first successful reconnect attempt |
| Mentions.Reconnect | examples/frame/frame.go:136-144 | retries until the first success, which it returns along with how many attempts it took |
| Ws.LessStrictWeakOrder | examples/frame/ws.go:37-39 | comparing timestamps is a strict weak order, as `sort.Sort` needs |
| Ws.SortedAdjacent | examples/frame/ws.go:37-39 | timestamps non-decreasing between neighbours means no message is `Less` than an earlier one |
| Ws.Less | examples/frame/ws.go:37-39 | no message is Less than itself, and messages with the same timestamp are unordered |
| Ws.Swap | examples/frame/ws.go:33-35 | exactly positions i and j are exchanged, and the contents stay a permutation |
| Ws.IndexOf | examples/frame/ws.go:97-103 | the first position of the connection, or -1 exactly when it is absent |
| Ws.RemoveFirst | examples/frame/ws.go:97-106 | an absent connection leaves the list as it was; a present one loses exactly one copy, as multisets count |
| Ws.RemoveFirstSpec | examples/frame/ws.go:97-106 | the copy removed is the first occurrence, and the rest keep their order around it |
| Ws.Kept | examples/frame/ws.go:133-145 | a ping round never adds clients: at most the old number remain |
| Ws.KeptMembers | examples/frame/ws.go:133-145 | a client remains exactly when it was listed and its ping succeeded |
| Ws.Dropped | examples/frame/ws.go:135-139 | only clients whose ping failed are closed |
| Ws.KeptAll | examples/frame/ws.go:143-145 | the list keeps its length exactly when every ping succeeded, and is then unchanged |
| Ws.KeptDroppedSplit | examples/frame/ws.go:133-145 | the kept and the closed clients together are the old clients |
| Ws.Fanout | examples/frame/ws.go:128-130 | one write of the message per client, in order |
| Ws.Handler.constructor | examples/frame/ws.go:47-49 | a new handler has no clients |
| Ws.Handler.ServeHTTP | examples/frame/ws.go:72 | the new connection is appended last |
| Ws.Handler.ReadLoopExit | examples/frame/ws.go:85-106 | the connection is closed and its first occurrence removed from the clients |
| Ws.Handler.Broadcast | examples/frame/ws.go:127-131 | each current client is sent the message once |
| Ws.Handler.PingTick | examples/frame/ws.go:132-146 | the clients become `Kept` of the old ones, in order, and the failed ones are closed |
| Ws.Ping | examples/frame/ws.go:135-142 | the ping loop splits the clients into `Kept` and `Dropped`, each in order |
| Ws.Handler.Teardown | examples/frame/ws.go:112-119 | every client is closed and the list becomes empty |
| Frame.TranslateName | examples/frame/frame.go:44-62 | the name of the first cached entry with the id, or the id itself when none has it |
| Frame.TranslateNameAppend | examples/frame/frame.go:165-168 | appending an entry whose id was already known changes no name |
| Frame.TranslateMessage | examples/frame/frame.go:85-114 | the record carries the sender's name, the channel, the loop's `Finished` text (which has no mention left) and the time |
| Frame.ColorEntry | examples/frame/frame.go:204-212 | an item without exactly one ':' gives no entry. An item with one ':' gives an entry exactly when each side holds something other than white space. The entry's field and colour are those sides lower-cased, with the white space at their ends cut off, so they are non-empty, lower-case and trimmed |
| Common.TrimSpaceTrims | examples/frame/frame.go:207-208 | trimming cuts white space from the two ends and nothing else |
| Common.TrimSpaceEmpty | examples/frame/frame.go:209 | trimming leaves nothing exactly when the text is white space only |
| Common.LowerAllSpace | examples/frame/frame.go:207-208 | lower-casing keeps a text white space only exactly when it was |
| Frame.ColorMap | examples/frame/frame.go:203-213 | every field and every colour in the map is non-empty and starts with a non-space |
| Frame.OverwriteLastWins | examples/frame/frame.go:203-213 | a field is in the map exactly when some item sets it, and its colour is the one the last such item sets |
| Frame.OverwriteSets | examples/frame/frame.go:203-213 | a field is in the map exactly when some item sets it |
| Frame.OverwriteLast | examples/frame/frame.go:203-213 | a field in the map holds the value of the last item that sets it |
| Frame.ColorMapLastWins | examples/frame/frame.go:201-217 | each comma item with exactly one ':' and a non-empty lower-cased, trimmed field and colour sets an entry; later items overwrite earlier ones |
| Frame.HandleState | examples/frame/frame.go:201-217 | the loop builds `ColorMap` of the comma items |
| Frame.ChosenAdd | examples/frame/frame.go:252-256 | adding a matching channel not yet chosen keeps the choice correct and free of duplicates |
| Frame.ChosenWiden | examples/frame/frame.go:250-258 | a choice correct for the first i channels stays correct when the next one does not match |
| Frame.InviteChannels | examples/frame/frame.go:250-258 | exactly the ids of the channels whose name matches a configured name ignoring case, without duplicates |
| Frame.HandleInvite | examples/frame/frame.go:234-267 | missing fname, lname or email gives 400 before the secret is checked. A wrong secret gives 400. Otherwise the invite carries `InviteChannels`, and success, "already_in_team" and "already_invited" give 200 |
| Frame.Viewer.constructor | examples/frame/frame.go:31-34 | the viewer starts from the roster with an empty buffer |
| Frame.Viewer.Remember | examples/frame/frame.go:151-158 | below capacity the message is appended; at or above capacity the buffer becomes exactly [message]; afterwards it holds at most 1000, whatever it held before |
| Frame.Viewer.Receive | examples/frame/frame.go:116-173 | parse errors are skipped. Other errors reconnect and take the new roster. A message whose channel the filter rejects changes nothing and need not be rewritable. A message that passes the filter is translated and, when its text is non-empty, buffered and sent. A buffer within 1000 stays within. channel_created and team_join extend the roster. Anything else changes nothing |
| Archive.Pad2Order | examples/archive/archive.go:59 | two-digit fields compare as text as they do as numbers |
| Archive.Pad4Order | examples/archive/archive.go:59 | four-digit years compare as text as they do as numbers |
| Archive.FormatOrder | examples/archive/archive.go:59 | in one time zone, an earlier time renders as smaller RFC 3339 (section 5.6) text |
| Archive.ClockOrder | examples/archive/archive.go:59 | in one time zone, an earlier time of day renders as smaller text from the hour on |
| Archive.Key | examples/archive/archive.go:57-60 | the key is the time text, a bar and the user; the time text holds no bar, so the first bar splits the key back into the time and the user |
| Archive.KeyOrder | examples/archive/archive.go:57-60 | in one zone, keys sort by time first and then, at the same time, by user |
| Archive.LexPrefix | examples/archive/archive.go:57-60 | a common prefix does not change the order of two keys |
| Archive.LexLonger | examples/archive/archive.go:57-60 | a strict order between equal-length heads decides the order of the whole keys |
| Archive.Format | examples/archive/archive.go:59 | a valid time before year 10000 renders as 19 characters plus its zone |
| Archive.Resolve | examples/archive/archive.go:168-181 | the first cached name, else the remote answer, else the id |
| Archive.CacheAfter | examples/archive/archive.go:168-181 | the cache grows by the remote answer only on a miss that the server answers |
| Archive.ResolveStable | examples/archive/archive.go:168-181 | a lookup's caching changes no later lookup's answer |
| Archive.GrowsSameNames | examples/archive/archive.go:168-199 | once the caches have only grown by confirmed entries, every name resolves as it did before |
| Archive.GrowsAfter | examples/archive/archive.go:168-199 | a lookup keeps the caches growing only by confirmed entries |
| Archive.Handler.constructor | examples/archive/archive.go:135-151 | a new handler has an open, empty queue and nothing closed |
| Archive.Handler.Handle | examples/archive/archive.go:69-71 | the message joins the end of the queue |
| Archive.Handler.SaveNext | examples/archive/archive.go:74-89 | the oldest queued message is stored under its key, replacing that key's value |
| Archive.Handler.Stop | examples/archive/archive.go:154-160 | the queue is closed only while it is open, so at most once; the database is closed on every call |
| Archive.Archiver.constructor | examples/archive/archive.go:339 | the caches start from the roster, with no reconnects |
| Archive.Archiver.TranslateUser | examples/archive/archive.go:168-181 | returns `Resolve` of the old cache and leaves `CacheAfter` |
| Archive.Archiver.TranslateChannel | examples/archive/archive.go:183-199 | an id not starting with 'C' is returned as it is with no lookup; otherwise as `TranslateUser` over the channel cache |
| Archive.Archiver.TranslateMessage | examples/archive/archive.go:222-251 | the record carries the sender's resolved name, the channel, the `Finished` text and the time, and the caches grow only by confirmed entries |
| Archive.Archiver.RewriteFirst | examples/archive/archive.go:233-248 | one turn of the loop with live lookups yields the same text as with the names at arrival |
| Archive.Archiver.Receive | examples/archive/archive.go:253-305 | parse errors are skipped. Other errors reconnect and take the new roster. A message outside a 'C' channel is skipped. One in a 'C' channel whose name the filter rejects queues nothing and need not be rewritable. One that passes the filter is translated and queued when its text is non-empty. channel_created and team_join extend the caches. Anything else changes nothing |
| RtmExample.TrueKeys | examples/rtm/rtm.go:28-32 | exactly the keys whose value is true |
| RtmExample.TrailSnoc | examples/rtm/rtm.go:30-31 | each kept key adds itself and a comma |
| RtmExample.TrailJoin | examples/rtm/rtm.go:33-36 | dropping the trailing comma leaves the keys joined by "," |
| RtmExample.JoinMap | examples/rtm/rtm.go:26-37 | the true keys, each once, in some order, joined by "," with no trailing comma; "" when there are none |
| RtmExample.Entries | examples/rtm/rtm.go:42-43 | one "k (v)" entry per key |
| RtmExample.JoinMapInt | examples/rtm/rtm.go:39-48 | every entry as "k (v)", each key once, joined by "," with no trailing comma |
| RtmExample.ExtractURL | examples/rtm/rtm.go:51-59 | nothing without a '>' after the first "<http". Otherwise the text from just after its '<' to the first '>' or '|', which starts with "http" |
| RtmExample.URLFrom | examples/rtm/rtm.go:52-59 | nothing without a '>' after the "<http" at the given start; otherwise the text up to the first '>' or '|', which starts with "http" |
| RtmExample.URLCut | examples/rtm/rtm.go:52-58 | the cut is found exactly when a '>' follows, and then lands on the first '>' or an earlier '|' |
| RtmExample.DetectedSome | examples/rtm/rtm.go:99-105 | at least one scan detected exactly when some scan did |
| RtmExample.ColorsMonotone | examples/rtm/rtm.go:99-109 | more detections or positives never lower the severity; one detection already warns; fewer than 5 positives stay "good" |
| RtmExample.UrlVtColor | examples/rtm/rtm.go:89-112 | a failed lookup warns; a response code other than 1 leaves "good"; otherwise ≥5 detected is "danger", ≥1 "warning", else "good" |
| RtmExample.IpVtColor | examples/rtm/rtm.go:173-197 | a failed lookup or a response code other than 1 warns; otherwise summed positives ≥10 is "danger", ≥5 "warning", else "good" |
| RtmExample.Actions | examples/rtm/rtm.go:322-337 | only messages not from bots are acted on: a URL check when the text has "<http", an IP or MD5 check when one was found |
| MainJs.ShownHour | examples/frame/static/src/main.js:18-28 | the shown hour is always in 1..12 |
| MainJs.TwoDigits | examples/frame/static/src/main.js:29-31 | two digits that read back as the number |
| MainJs.FormattedTime | examples/frame/static/src/main.js:18-33 | "HH:MM AM" or "HH:MM PM", eight characters |
| MainJs.FormattedTimeReadsBack | examples/frame/static/src/main.js:18-33 | the text determines the time: the shown hour is 1..12, the minutes read back, and the hour modulo 12, plus 12 for PM, is the hour of the day |
| MainJs.Pushed | examples/frame/static/src/main.js:106-114 | the new message is last. A page within the limit stays within it; a page at or above the limit keeps its length, since one message is shifted out per push |
| MainJs.PushedBounded | examples/frame/static/src/main.js:106-114 | from a page within the limit, the page holds at most 1000 messages, the new one last, and the older ones it keeps in order |
| MainJs.Frame.constructor | examples/frame/static/src/main.js:6 | the page starts empty |
| MainJs.Frame.Handler | examples/frame/static/src/main.js:106-114 | a fresh array holds `Pushed` of the old messages, of any length; a page within the limit stays within it; the previous array is left as it was |
| MainJs.Frame.LoadHistory | examples/frame/static/src/main.js:89-98 | the history reply becomes the page as it is, and the page is within the limit exactly when the reply is |
| MainJs.Appended | examples/frame/static/src/main.js:108-109 | a fresh array holding the old messages followed by the new one |
| MainJs.Shifted | examples/frame/static/src/main.js:110-112 | a fresh array without the oldest message |
| MainJs.LinesAppend | examples/frame/static/src/main.js:125-130 | the lines of two element lists are the lines of each, in order |
| MainJs.RenderedLines | examples/frame/static/src/main.js:125-130 | rendering emits exactly one line per message, in order |
| MainJs.GroupLines | examples/frame/static/src/main.js:125-130 | the elements of one message contain its line and no other |
| MainJs.RenderedPrefix | examples/frame/static/src/main.js:125-130 | the elements of the first i messages come before those of message i |
| MainJs.SeparatorPlacement | examples/frame/static/src/main.js:126-129 | a separator precedes a message's line exactly when it is the first message or its day differs from the previous one's |
| MainJs.Render | examples/frame/static/src/main.js:122-136 | the loop builds `Rendered` of the messages |

## Left out

- Network and WebSocket I/O: the dial, the reads and writes, `PostForm`, the multipart pipe of `doUpload`. Their outcomes are parameters (`HttpReply`, `Frame`, an error string).
- JSON encoding and decoding. A frame arrives as the outcome of unmarshalling it into each target shape, and a reply as its status and `ok`/`error` fields.
- Rtm.Decode: an error event is built from a blank record. Go's `json.Unmarshal` may already have filled some fields of the record before it failed.
- Goroutines, channels, mutexes, tickers and `time.Sleep`. Each locked section is one method. Each loop over a channel is a method applied to one event, or to a sequence of events.
- Ws.Handler.PingTick: the failed connections are closed right after the ping loop, in the loop's order, rather than during it. The mutex is held throughout, so nothing can observe the difference.
- The `break` inside `select` at scli.go:131, frame.go:120 and archive.go:257 leaves only the `select`, so those loops never stop. The model covers single events, where the stop signal plays no part.
- Logging (`errorf`, `tracef`, the request and response dumps) and printed output.
- Slack.URLError: of url.Parse only the fragment cut at the first '#', the control-character check and the scheme scan (with its leading-':' error) are modelled. Its host, port and percent-escape checks, the fragment's included, are not, so the model accepts URLs that `SetURL` rejects, such as "https://some.url.com:port/" (a non-numeric port), "http://a/%zz" (a bad escape), "http://a/#%zz" (a bad escape in the fragment) and "http://[::1" (a missing ']'). The error text follows url.Error as Go 1.14 and later print it; its %q quoting is modelled for ASCII, and non-ASCII characters are kept as they are (Go writes the non-printable ones as \u escapes). `Slack.ApplyOption`, `Slack.Client.New`, `Slack.SetURLIdempotent` and `Slack.NormalizeAccepted` inherit this.
- Common.Atoi: the value is unbounded, so the range error for values outside 64 bits is not modelled. Its callers pass arguments shorter than five characters (commands.go:217-218) or the text `Itoa` writes.
- Slack.Client.Apply: `SetHTTPClient`, `SetErrorLog` and `SetTraceLog` change only the HTTP client and the loggers, which are not modelled.
- Slack.NewSettings: the OAuth exchange in `New` (slack.go:128-134) is a network call; a client id without a token is accepted as configured.
- Slack.Client.RTMStart: the reader goroutine is the separate `Rtm.ReadLoop`.
- Unicode: case folding and `ToLower` are ASCII-only. `unicode.IsSpace` is ASCII whitespace plus U+0085 and U+00A0. Strings are sequences of characters, not UTF-8 bytes.
- The types-only files (message.go, user.go, emoji.go, auth.go), the other example programs (oauth, invite, upload), configuration loading (conf.go), and terminal output (output.go). The browser's WebSocket code (ws.js) and build configuration are not part of this model either.
- The `main` functions of the examples and the scli prompt loop, which are driven by flags, the terminal and the network.
- `osFileCompletions` (filesystem listing) and `toIntf` (reflection). File names are a parameter, and `in` is sequence membership.
- `populateInitialMessages` (frame.go:175-199) fetches history over the network. It appends up to 100 messages per channel that passes the filter, with no cap, so the buffer may start above 1000. `Frame.Viewer.Remember` and `Frame.Viewer.Receive` therefore do not require the buffer to be within 1000; the first buffered live message collapses it to one. Its final `sort.Sort` is covered only through `Ws.Less`, `Ws.Swap` and `Ws.LessStrictWeakOrder`; the sort algorithm itself is the Go library's.
- `handleHist` in frame.go and archive.go, and `Hist` (archive.go:91-132): they need JSON encoding, `time.Parse` and the database cursor.
- `Bytify` and the bolt database itself. The database is a map from key to record.
- Archive.Archiver.Receive: the message time is a parameter. `TimestampToTime` and the `time.Now` fallback are not modelled.
- Archive.Format: years are non-negative, and a zone offset is whole minutes. Go's formatting of negative years and of offsets with seconds is not modelled.
- Archive.Handler.SaveNext: `Loop` skips nil messages, but the queue here only ever holds records, so that branch is absent.
- Archive.Archiver.TranslateUser: a remote lookup that succeeds is taken to name the id it was asked about.
- Archive.ResolveStable, Archive.GrowsSameNames, Archive.Archiver.RewriteFirst and Archive.Archiver.Receive: the remote lookups `users.info` and `channels.info` (archive.go:174, 192) are one fixed function of the id for the whole run. A lookup that fails and later succeeds, or a user renamed on the server, is not modelled, and these members' "names as at arrival" promises rely on the fixed function.
- Frame.Viewer.Receive and Archive.Archiver.Receive: a reconnect is the sequence of `RTMStart` outcomes. The `RTMStop` call and the channel replacement are not modelled.
- The X-Force lookups and their floating-point scores, the MD5 branch and its thresholds (rtm.go:153-300 outside the VirusTotal colours), and the attachment texts posted back. The IP and MD5 regular expressions are parameters: their first matches are passed in.
- MainJs: JavaScript `Date`. The hour, the minute and a day function are parameters, standing for `getHours`, `getMinutes` and `toDateString`. React keys, styles, `componentDidMount` and the `/state` fetch are not modelled. Of the `/hist` fetch only its effect is modelled, as `MainJs.Frame.LoadHistory`: the reply may be longer than 1000, and `MainJs.Frame.Handler` then keeps the page at that length rather than within 1000.
- Mentions.Run: termination of the mention loop is a precondition (an existing fuel bound), since the source loops forever on some texts.

## Findings

| source | as written | input that shows it | evidently intended | confidence | as-written member | corrected member |
|---|---|---|---|---|---|---|
| examples/scli/commands.go:550 | every '\' of the file name is replaced by a space, so the escaped space "\ " that the completer writes (completer.go:142) becomes two spaces | the completed name "a\ b" for the file "a b" opens "a  b" | each "\ " is read back as a single space, so a completed name opens the file it names | not executed | Commands.UploadNameDoublesSpace | Commands.UploadNameCorrectedRoundTrip |
