# Midpilot call widget, modelled in Dafny

Midpilot is an embeddable widget that puts a "call the AI agent" button and a help panel
on a host page. In this model:

- The call button comes in four copies:
  - the `useCallAI` hook, used by the React help panel;
  - the plain-script widget `src/index.js`;
  - the React `ChatButton`;
  - the older script `midpilot.js`.
- Each copy is a class whose fields are its flags: `isCalling`, `isConnecting` and, in the hook, `isMuted`.
- Each handler is one atomic method. An async handler is split at its `await` or `.then` into two
  methods, the request and the continuation. The reply of the register-call endpoint and the
  voice SDK's events are arguments or method calls.
- A ghost effect log records what each widget does to the world: credential requests, alerts,
  and SDK start, stop, mute and unmute.
- The SDK client slot (`ClientHolder`) keeps a ghost count of clients that were started and not
  yet told to stop.

The help panel (`draggable-chat.tsx`) keeps a consent record in `localStorage`, under three keys.
The model treats `localStorage` as a `map<string, string>`. Pure functions `Consent.Load`,
`Consent.Store` and `Consent.SharingOff` state what the mount effect reads and what the handlers
write. The component's methods update the map key by key, and their contracts tie them to those
functions.

The helpers are modelled with JavaScript's semantics written out:

- `String.prototype.trim`, using the ECMA-262 whitespace and line-terminator set;
- `split` on a one-character separator;
- truthiness of optional strings;
- the one regular expression used by `extractEmail`, as a hand-written scanner proved equal to a
  declarative statement of the pattern;
- `formatTime`, with `Math.floor`, a remainder that takes the sign of the dividend, and
  `padStart`.

Modules:

- `Wrappers` holds `Option`.
- `JsString` holds the string helpers.
- `Call` holds what all call widgets share: the credential reply, effects, icons and the client slot.
- `UseCallAI`, `IndexWidget`, `ChatButton`, `Midpilot`, `DraggableChat`, `Consent`, `PlaaceUtils`,
  `TextModal` and `CallingModal` follow the source files.
- `Variants` compares the button copies.

Three behaviours of the code, modelled as written:

- The register-call reply is not checked against the request that caused it. A stale reply is
  handled like a fresh one.
- `toggleMute` forwards to the service and flips `isMuted` in every state, not only during a call.
- The calling panel's mute button toggles a local flag only.

## Model

| member | source | states |
|---|---|---|
| JsString.TrimStart | src/utils/plaaceUtils.tsx:11 | leading-whitespace removal never lengthens the string |
| JsString.TrimEnd | src/utils/plaaceUtils.tsx:11 | trailing-whitespace removal never lengthens the string |
| JsString.Trim | src/utils/plaaceUtils.tsx:11 | `trim` never lengthens the string |
| JsString.TrimStartSpec | src/utils/plaaceUtils.tsx:11 | trimStart leaves a suffix, drops only whitespace, and a non-empty result starts with a non-whitespace character |
| JsString.TrimEndSpec | src/utils/plaaceUtils.tsx:11 | trimEnd leaves a prefix, drops only whitespace, and a non-empty result ends with a non-whitespace character |
| JsString.TrimEmptyIff | src/components/TextModal.tsx:131 | a string trims to "" exactly when it is all whitespace |
| JsString.TrimEnds | src/utils/plaaceUtils.tsx:11 | a non-empty trimmed string begins and ends with non-whitespace |
| JsString.TrimIsInfix | src/utils/plaaceUtils.tsx:11 | the trimmed string sits between a whitespace-only prefix and a whitespace-only suffix of the original |
| JsString.Split | src/utils/plaaceUtils.tsx:9 | `split(';')` yields at least one piece, and no piece contains the separator |
| JsString.JoinSplit | src/utils/plaaceUtils.tsx:9 | joining the pieces with the separator gives back the original string |
| PlaaceUtils.FirstPrefixed | src/utils/plaaceUtils.tsx:10-16 | the index of the first segment whose trimmed form starts with the prefix: no earlier segment matches, and None exactly when none matches |
| PlaaceUtils.PrefixedValue | src/utils/plaaceUtils.tsx:12-13 | a value exists exactly when a segment matches, and prefix + value equals that trimmed segment |
| PlaaceUtils.PrefixThenRest | src/utils/plaaceUtils.tsx:13 | for a string starting with the prefix, prefix + `substring(prefix.length)` is the string |
| PlaaceUtils.GetCookieValue | src/utils/plaaceUtils.tsx:7-17 | the loop with its early return computes the first-match cookie value, or null |
| PlaaceUtils.SkipWhitespace | src/utils/plaaceUtils.tsx:38 | `\s*` stops at the first non-whitespace character and skips only whitespace |
| PlaaceUtils.QuoteFrom | src/utils/plaaceUtils.tsx:38 | `[^"]*` stops at the first `"` and contains none |
| PlaaceUtils.MatchAt | src/utils/plaaceUtils.tsx:38 | the match at one position yields a non-empty group without `"` |
| PlaaceUtils.SkipWhitespaceLands | src/utils/plaaceUtils.tsx:38 | a whitespace run followed by non-whitespace is exactly what `\s*` consumes |
| PlaaceUtils.QuoteFromLands | src/utils/plaaceUtils.tsx:38 | a `"`-free run followed by `"` is exactly what `[^"]*` consumes |
| PlaaceUtils.MatchAtComplete | src/utils/plaaceUtils.tsx:38 | wherever the declarative pattern holds, the scanner returns its group |
| PlaaceUtils.MatchAtSound | src/utils/plaaceUtils.tsx:38 | whatever the scanner returns is the group of a declarative match |
| PlaaceUtils.FindMatch | src/utils/plaaceUtils.tsx:39 | `match` finds the leftmost matching position, and None exactly when no position matches |
| PlaaceUtils.ExtractEmail | src/utils/plaaceUtils.tsx:37-44 | `extractEmail` returns a non-empty address without `"`, or null |
| PlaaceUtils.ExtractEmailSound | src/utils/plaaceUtils.tsx:37-44 | the returned address is the group of a match, and the pattern matches nowhere further left |
| PlaaceUtils.ExtractEmailComplete | src/utils/plaaceUtils.tsx:37-44 | if the pattern matches anywhere, an address is returned, from that match or one further left |
| PlaaceUtils.ExtractEmailAtStart | src/utils/plaaceUtils.tsx:38-41 | a document that starts with `"email"`, optional spaces, `:`, optional spaces and a quoted address yields that address |
| PlaaceUtils.EmptyGroupFails | src/utils/plaaceUtils.tsx:38-43 | where the literal, optional spaces, the colon, optional spaces and two adjacent quotes follow each other, there is no match, because the group needs one character |
| PlaaceUtils.IsEmailWhitelisted | src/utils/plaaceUtils.tsx:47-67 | true only for an ok response whose `whitelisted` is exactly `true`; it throws exactly when the fetch or the JSON parse fails, or the body is JSON `null` and reading `whitelisted` fails |
| PlaaceUtils.CheckUserAccess | src/utils/plaaceUtils.tsx:70-92 | `allowAll` grants access; otherwise access needs a token, an ok account page, an address in it and a whitelist answer of exactly true, and any error denies |
| Consent.Load | src/components/draggable-chat.tsx:108-139 | the storage is kept, or loses exactly the three keys when a stored address differs, and consent is then undefined. A defined consent is `status == "true"`. It is defined exactly when status and timestamp are present, plus a matching address when bound to an e-mail |
| Consent.BoolString | src/components/consentModal.tsx:32 | `consent.toString()` is "true" exactly for true |
| Consent.Store | src/components/draggable-chat.tsx:176-192 | no other key changes. Consent writes status "true" and the timestamp, and writes the address exactly when bound to one, else deletes it. A refusal deletes all three keys |
| Consent.SharingOff | src/components/draggable-chat.tsx:230-233 | status becomes "false" and every other key keeps its value |
| Consent.ConsentReadBack | src/components/draggable-chat.tsx:108-139 | consent stored and read back in the same setting reads as true, and the storage is kept |
| Consent.DeclineForgets | src/components/draggable-chat.tsx:187-192 | after a refusal every later load finds consent undefined |
| Consent.ConsentNotCarriedOver | src/components/draggable-chat.tsx:120-126 | consent bound to one address is cleared when another address loads, and stays cleared |
| Consent.ConsentBeforeEmailIgnored | src/components/draggable-chat.tsx:113-130 | consent given before the address is known does not count once the address is known |
| Consent.BoundConsentReadUnbound | src/components/draggable-chat.tsx:131-137 | consent bound to an address still counts where no address is known |
| Consent.LoadIdempotent | src/components/draggable-chat.tsx:108-139 | running the load effect twice changes nothing more |
| Consent.SharingOffReadBack | src/components/draggable-chat.tsx:229-234 | after sharing is turned off, a readable consent reads as false |
| DraggableChat.Visible | src/components/draggable-chat.tsx:244-292 | the calling modal shows exactly while connecting or calling; the help button shows exactly when neither it nor the text modal does; the command dialog shows exactly when open and the text modal is hidden |
| DraggableChat.AccountToken | src/components/draggable-chat.tsx:92 | the token is the cookie value when truthy, else "" |
| DraggableChat.ResolvedEmail | src/components/draggable-chat.tsx:89-105 | off Plaace the address is null; on Plaace it is the extracted address exactly when the account page answers ok and contains one |
| DraggableChat.AccessGrantedResolvesEmail | src/utils/plaaceUtils.tsx:76-87 | if the widget's account-page fetch gets the same answer as the access check's, then whenever access would be granted without `allowAll` the widget resolves an address, so consent is bound to it |
| DraggableChat.MissingTokenStillFetches | src/components/draggable-chat.tsx:92 | with no token cookie the account page is still asked, with an empty token |
| DraggableChat.Chat.Rendered | src/components/draggable-chat.tsx:252 | the help button shows exactly when not connecting, not calling and the text modal is hidden |
| DraggableChat.Chat.constructor | src/components/draggable-chat.tsx:53-68 | initial state: closed, no modal, empty question, consent undefined, no queued action, no address, an idle call hook, the given storage |
| DraggableChat.Chat.LoadConsent | src/components/draggable-chat.tsx:108-139 | the key-by-key effect leaves exactly `Consent.Load` of the old storage |
| DraggableChat.Chat.UserEmailResolved | src/components/draggable-chat.tsx:89-105 | a new address re-runs the load; the same address changes nothing; the dialog, modals, question and queue are kept |
| DraggableChat.Chat.ProceedWithCall | src/components/draggable-chat.tsx:150-156 | with consent: nothing while connecting, end the call while calling, otherwise start one |
| DraggableChat.Chat.HandleCallAI | src/components/draggable-chat.tsx:148-162 | without consent `true`, no call is started or ended; a call action is queued and the modal shown. With it, the call is started or ended as in ProceedWithCall. The text modal, question, storage and address are kept |
| DraggableChat.Chat.WriteConsent | src/components/draggable-chat.tsx:176-192 | the key-by-key writes leave exactly `Consent.Store` of the old storage and set consent to the answer |
| DraggableChat.Chat.HandleConsent | src/components/draggable-chat.tsx:174-222 | the storage becomes `Consent.Store` of the old one; a queued action runs only on consent; the queue is cleared in every branch |
| DraggableChat.Chat.Back | src/components/draggable-chat.tsx:224-227 | hides the modal and clears the queued action |
| DraggableChat.Chat.ToggleDataSharingSwitch | src/components/draggable-chat.tsx:229-239 | while consented: `Consent.SharingOff` and consent false; otherwise the consent modal opens for a queued toggle |
| DraggableChat.Chat.KeyDown | src/components/draggable-chat.tsx:71-82 | Cmd/Ctrl-J toggles the dialog. Escape closes it, ends the call (the service is stopped and one stop logged when there is one; mute and connecting are kept), hides the text modal and clears the question |
| DraggableChat.Chat.Close | src/components/draggable-chat.tsx:141-146 | ends the call (the service is stopped and one stop logged when there is one; mute and connecting are kept), closes the dialog and the text modal, and clears the question; consent, queue and address are kept |
| DraggableChat.Chat.CloseTextModal | src/components/draggable-chat.tsx:389-392 | hides the text modal and clears the question, nothing else |
| DraggableChat.Chat.ToggleTextModal | src/components/draggable-chat.tsx:164-172 | sets the question, shows the text modal, closes the dialog; nothing else changes |
| DraggableChat.CallAfterConsent | src/components/draggable-chat.tsx:148-222 | asking for a call without consent queues it; consenting runs it once with one credential request, clears the queue, and the stored record reads back as consent |
| DraggableChat.DeclinedCallNeverStarts | src/components/draggable-chat.tsx:148-222 | declining a queued call starts nothing, clears the queue and removes the consent keys, keeping every other key |
| UseCallAI.CallAI.constructor | src/hooks/useCallAI.ts:6-25 | all flags false; there is a service exactly when the mount found an agent id |
| UseCallAI.CallAI.StartCall | src/hooks/useCallAI.ts:27-45 | while connecting nothing changes and nothing is fetched; a missing agent id leaves connecting false with no fetch; otherwise exactly one request |
| UseCallAI.CallAI.CredentialsSettled | src/hooks/useCallAI.ts:46-72 | credentials plus a service start exactly one conversation and keep connecting; otherwise one alert, connecting false, no start |
| UseCallAI.CallAI.OnCallStarted | src/hooks/useCallAI.ts:50-53 | calling true, connecting false |
| UseCallAI.CallAI.OnCallEnded | src/hooks/useCallAI.ts:54-57 | both flags false |
| UseCallAI.CallAI.OnError | src/hooks/useCallAI.ts:58-63 | both flags false, one alert |
| UseCallAI.CallAI.EndCall | src/hooks/useCallAI.ts:75-79 | calling false in any state; connecting unchanged; stops the service if there is one |
| UseCallAI.CallAI.ToggleMute | src/hooks/useCallAI.ts:81-89 | flips isMuted once in every state, forwarding unmute if it was muted, else mute |
| UseCallAI.ConnectingDuringCall | src/hooks/useCallAI.ts:28 | the guard on connecting alone lets a call in progress issue a second request, with both flags true |
| UseCallAI.CallThenToggleMuteTwice | src/hooks/useCallAI.ts:46-89 | the happy path and two mute toggles give exactly one start, one mute and one unmute |
| UseCallAI.MissingFieldsReply | src/hooks/useCallAI.ts:65-72 | a reply without credentials alerts once and creates no client |
| IndexWidget.ButtonLook | src/index.js:74-86 | calling takes precedence for icon and colour, then connecting, else the phone icon; pointer-events are "none" when connecting, "auto" otherwise |
| IndexWidget.Widget.constructor | src/index.js:47-67 | idle flags, phone icon, black button |
| IndexWidget.Widget.Click | src/index.js:93-115 | no-op while connecting; while calling it only stops the client; when idle it sets connecting and issues one request |
| IndexWidget.Widget.StartConversation | src/index.js:132-173 | any previous client is stopped before the new one starts, so at most one is live |
| IndexWidget.Widget.CredentialsSettled | src/index.js:116-129 | credentials start a conversation; a missing field or a failed fetch clears connecting, alerts once and starts nothing |
| IndexWidget.Widget.OnCallStarted | src/index.js:138-142 | (calling, connecting) becomes (true, false) |
| IndexWidget.Widget.OnCallEnded | src/index.js:144-148 | both flags false |
| IndexWidget.Widget.OnError | src/index.js:150-156 | both flags false, one alert |
| IndexWidget.Widget.OnStartRejected | src/index.js:167-172 | only connecting is cleared |
| IndexWidget.Widget.MouseEnter | src/index.js:176-180 | hover colour only when not connecting |
| IndexWidget.Widget.MouseLeave | src/index.js:182-184 | restores the colour the flags give |
| IndexWidget.HangUpWaitsForCallEnded | src/index.js:96-102 | a hang-up click changes no flag until `call_ended` arrives |
| ChatButton.ButtonIcon | src/components/ChatButton.tsx:116-124 | the loader exactly when connecting, the hang-up icon exactly when calling and not connecting |
| ChatButton.ButtonStyle | src/components/ChatButton.tsx:83-100 | red exactly when calling, else "#000"; cursor "not-allowed" and pointer-events "none" exactly when connecting, else "pointer" and "auto" |
| ChatButton.Button.RenderedStyle | src/components/ChatButton.tsx:83-102 | the hover colour state overrides the style's background |
| ChatButton.Button.constructor | src/components/ChatButton.tsx:6-24 | idle flags; black background |
| ChatButton.Button.Click | src/components/ChatButton.tsx:26-52 | no-op while connecting; while calling it stops and sets calling false at once; an idle click without an agent id ends not connecting and fetches nothing |
| ChatButton.Button.CredentialsSettled | src/components/ChatButton.tsx:53-79 | credentials with a service start exactly one conversation; otherwise one alert and connecting false |
| ChatButton.Button.OnCallStarted | src/components/ChatButton.tsx:57-60 | (true, false) |
| ChatButton.Button.OnCallEnded | src/components/ChatButton.tsx:61-64 | (false, false) |
| ChatButton.Button.OnError | src/components/ChatButton.tsx:65-70 | (false, false), one alert |
| ChatButton.Button.MouseEnter | src/components/ChatButton.tsx:104-108 | the background changes only when not connecting |
| ChatButton.Button.MouseLeave | src/components/ChatButton.tsx:110-114 | the background changes only when not connecting |
| ChatButton.HangUpIsImmediate | src/components/ChatButton.tsx:29-34 | a hang-up click clears calling before the SDK reports the end |
| Midpilot.ButtonLook | midpilot.js:113-124 | calling takes precedence over connecting, which takes precedence over idle, which shows the phone icon |
| Midpilot.Widget.constructor | midpilot.js:10-38 | idle flags, phone icon |
| Midpilot.Widget.Click | midpilot.js:40-58 | no-op while connecting; while calling it stops, sets calling false and refreshes; an idle click sets connecting and issues one request |
| Midpilot.Widget.StartConversation | midpilot.js:77-111 | a new client is created without stopping the previous one |
| Midpilot.Widget.CredentialsSettled | midpilot.js:59-73 | connecting is cleared first without refreshing the button; a malformed reply alerts and never starts |
| Midpilot.Widget.OnConversationStarted | midpilot.js:80-83 | calling true, connecting left as it is, the button refreshed |
| Midpilot.Widget.OnConversationEnded | midpilot.js:85-88 | calling false, connecting left as it is, the button refreshed |
| Midpilot.Widget.OnError | midpilot.js:90-95 | calling false, connecting left as it is, one alert |
| Midpilot.Widget.OnStartRejected | midpilot.js:105-110 | only connecting is cleared; the button is refreshed; one alert |
| Midpilot.LoaderOutlivesBadReply | midpilot.js:61-72 | after a bad reply the flags are idle but the button still shows the loader |
| Midpilot.SecondClientWithoutStop | midpilot.js:61-78 | a click between the reply and `conversationStarted` leaves two live clients |
| Midpilot.CallingWhileConnecting | midpilot.js:61-83 | the first client's start can arrive during the second request, giving both flags true |
| Variants.IconsAgreeOffOverlap | src/index.js:74-86 | while at most one flag is set, all three buttons show the same icon |
| Variants.PrecedenceDiffers | src/components/ChatButton.tsx:116-124 | with both flags set, the scripts show hang-up and the React button shows the loader |
| TextModal.FollowUp | src/components/TextModal.tsx:130-136 | whitespace input leaves the conversation unchanged; otherwise exactly one user message with the trimmed, non-empty input is appended and the prefix kept |
| TextModal.WithReply | src/components/TextModal.tsx:117-121 | a reply appends exactly one message, its role forced to "assistant" |
| TextModal.ClampHeight | src/components/TextModal.tsx:328-334 | at most maxHeight; at least 200 whenever maxHeight >= 200; the drag height itself when within bounds, else the nearer bound; maxHeight whenever maxHeight < 200 |
| TextModal.ClampIdempotent | src/components/TextModal.tsx:328-334 | clamping a clamped height changes nothing |
| TextModal.DragBounds | src/components/TextModal.tsx:160-169 | right edge 0, left = -(viewport width - 300) |
| TextModal.Panel.constructor | src/components/TextModal.tsx:30-70 | initial conversation, heights and drag bounds |
| TextModal.Panel.FetchGuide | src/components/TextModal.tsx:106-116 | a missing agent id ends not loading with no request; otherwise one request is in flight |
| TextModal.Panel.GuideSettled | src/components/TextModal.tsx:117-127 | success sets the conversation sent plus the reply; failure keeps the conversation and sets the error text; not loading either way |
| TextModal.Panel.QuestionChanged | src/components/TextModal.tsx:88-97 | an empty question changes nothing; a non-empty one resets the conversation to exactly one user message and fetches as FetchGuide does; input, heights, bounds and resize state are kept |
| TextModal.Panel.FollowUpChanged | src/components/TextModal.tsx:130-140 | sets the input text; nothing else changes |
| TextModal.Panel.AskFollowUp | src/components/TextModal.tsx:130-140 | the conversation becomes `FollowUp`; whitespace changes nothing; otherwise the input is cleared and one request is issued; heights, bounds and resize state are kept |
| TextModal.Panel.UpdateDragConstraints | src/components/TextModal.tsx:160-169 | the bounds become `DragBounds` of the viewport width |
| TextModal.Panel.ToggleMinimize | src/components/TextModal.tsx:142-154 | minimising saves the height; restoring brings it back |
| TextModal.Panel.BeginResize | src/components/TextModal.tsx:321-325 | captures the pointer, the height and the maximum; the conversation, input, heights and bounds are kept |
| TextModal.Panel.ResizeMove | src/components/TextModal.tsx:327-335 | the height becomes the clamped drag height; everything else is kept |
| TextModal.Panel.EndResize | src/components/TextModal.tsx:337-341 | resizing stops; everything else is kept |
| TextModal.Panel.WindowResized | src/components/TextModal.tsx:74-77 | the maximum height and the drag bounds follow the window; everything else is kept |
| TextModal.MinimizeResizeRestore | src/components/TextModal.tsx:142-151 | minimise then restore gives back the height at minimise time |
| TextModal.FollowUpLostToEarlierReply | src/components/TextModal.tsx:117-121 | a reply to an earlier request replaces a conversation that a later follow-up extended |
| CallingModal.DigitChar | src/components/CallingModal.tsx:26-28 | a digit character of the given value |
| CallingModal.NatToString | src/components/CallingModal.tsx:28 | `toString` gives decimal digits, one character exactly below 10, and no leading zero |
| CallingModal.IntToString | src/components/CallingModal.tsx:28 | negative numbers print with a leading "-" |
| CallingModal.PadStart2 | src/components/CallingModal.tsx:28 | `padStart(2, '0')` only pads: short strings get leading zeros up to length 2, longer ones are kept |
| CallingModal.JsRemainder | src/components/CallingModal.tsx:27 | `%` in [0, b) for a non-negative dividend, in (-b, 0] for a negative one |
| CallingModal.TruncQuotient | src/components/CallingModal.tsx:27 | the quotient rounded toward zero has the sign of the dividend |
| CallingModal.JsRemainderDivides | src/components/CallingModal.tsx:27 | dividend = truncated quotient times divisor + remainder |
| CallingModal.FormatTime | src/components/CallingModal.tsx:25-29 | `formatTime` never gives fewer than five characters |
| CallingModal.DecimalOfNatToString | src/components/CallingModal.tsx:28 | reading a printed number gives it back |
| CallingModal.DecimalLeadingZero | src/components/CallingModal.tsx:28 | a leading zero does not change a field's value |
| CallingModal.PaddedField | src/components/CallingModal.tsx:28 | a padded field below 100 is two digits with the right value |
| CallingModal.ParseClock | src/components/CallingModal.tsx:25-29 | reads a clock string back into a non-negative count of seconds |
| CallingModal.MinutesField | src/components/CallingModal.tsx:26-28 | a padded field is at least two digits and reads back as its number |
| CallingModal.ParseClockParts | src/components/CallingModal.tsx:28 | ParseClock of minutes, a colon and two seconds digits gives 60 times the minutes plus the seconds |
| CallingModal.FormatTimeFields | src/components/CallingModal.tsx:26-28 | for s >= 0 the clock is a minutes field of at least two digits reading as floor(s/60), a colon, and a two-digit seconds field reading as s mod 60, below 60 |
| CallingModal.ParseFormatTime | src/components/CallingModal.tsx:26-27 | round trip: 60 times minutes plus seconds gives s back, for every s >= 0 |
| CallingModal.FormatTimeLength | src/components/CallingModal.tsx:28 | exactly five characters for 0 <= s < 6000, more from 100 minutes on |
| CallingModal.FormatTimeZero | src/components/CallingModal.tsx:13 | no time elapsed shows as "00:00" |
| CallingModal.FormatTimeNegative | src/components/CallingModal.tsx:25-29 | under JavaScript semantics, -5 seconds shows as "-1:-5" |
| CallingModal.Panel.constructor | src/components/CallingModal.tsx:12-14 | loading, zero seconds shown as "00:00", not muted |
| CallingModal.Panel.Clock | src/components/CallingModal.tsx:25-29 | the shown clock reads back as the elapsed seconds |
| CallingModal.Panel.Tick | src/components/CallingModal.tsx:18 | elapsed time grows by exactly one, nothing else changes |
| CallingModal.Panel.LoadingTimeout | src/components/CallingModal.tsx:16-17 | loading ends, nothing else changes |
| CallingModal.Panel.ToggleMute | src/components/CallingModal.tsx:72 | flips the local mute flag only |

## Left out

- Network, `alert`, `console` and the DOM are left out. Fetch results and SDK events are parameters or method calls. An alert, a request or an SDK call is an entry in a ghost log.
- `src/services/retellClient.ts` sits over the voice SDK, which is not part of this model. It becomes the client slot `Call.ClientHolder`, with a ghost count of live clients. The service has no `mute`/`unmute`, although `useCallAI` calls them; the model records those calls as effects.
- UseCallAI.CallAI.ToggleMute: flips `isMuted` in every state. In the code, `retellService?.mute()` on a non-null service does not type-check, and at run time it would throw a TypeError before `setIsMuted`, so the flag would not flip. No caller reaches `toggleMute` anyway: the calling modal ignores its `onToggleMute` prop.
- `src/services/getGuide.ts` is an HTTP call; its result is an input, a message or a failure.
- The consent modal is dialog markup. Its one storage write is folded into `Consent.Store`.
- `src/components/ChatHistory.tsx` compares wall-clock dates over mock data, and is not modelled.
- Rendering plumbing is not modelled: `src/ShadowRootContext.tsx`, `src/components/ShadowPortal.tsx`, `src/index.tsx`, `src/containers/App.tsx` and the webpack setup.
- Timers are left out. Only their callbacks are methods (`CallingModal.Panel.Tick`, `CallingModal.Panel.LoadingTimeout`).
- `window.innerHeight * 0.66` becomes an integer constructor argument, since floating point is left out.
- React's asynchronous `setState` and stale closures are left out. Every handler is an atomic step on the current state.
- The general regular-expression engine is left out; the one `extractEmail` pattern is a hand-written scanner.
- DraggableChat.AccessGrantedResolvesEmail: `checkUserAccess` has no caller in the repository, and it fetches the account page separately from the widget; the lemma holds only under its stated precondition that both fetches get the same answer.
- `isScriptHostedOn("plaace")` and the value of `getAgentId()` depend on the page, so they are parameters.
- The agent-id check `src/index.js` makes at start-up is not modelled. The widget model assumes the button was created.
- Hover colours are modelled as state only, not CSS. The settings dialog markup and the framer-motion drag are markup, and are not modelled.
- CallingModal.Panel: the props that draggable-chat passes (`isConnecting`, `isMuted`, `onToggleMute`) are ignored by the component, and therefore by the model.
- CallingModal.FormatTime: its own contract states only the length bound. The field values and the round trip are in FormatTimeFields and ParseFormatTime.
- JsString.Trim: its own contract states only the length bound. What it keeps is in TrimStartSpec, TrimEndSpec and TrimIsInfix.
- TextModal.Panel: the invariant that every pending request was once issued is not stated. The model keeps the two ghost collections side by side.
