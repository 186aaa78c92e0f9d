# Nutrition assistant — a Dafny model of its request handling and forms

The nutrition assistant is a Next.js web application. A signed-in user keeps a
dietary profile and chats with a language-model assistant that answers with that
profile in mind. This project models the parts of the application that hold its
logic:

- the chat API route, with its in-memory fixed-window rate limiter and the message list it sends upstream;
- the chat window's conversation state and the formatter that renders assistant replies;
- the tag editor;
- the request guard (middleware) and the sign-in callback;
- the settings form and the three-step onboarding wizard, with their comma-separated list fields.

Every piece of code that changes state step by step is a class:
`RateLimit.RateLimiter`, `ChatSession.ChatWindow` and `Onboarding.Wizard`.
The pure logic (parsing, rendering, routing decisions) is written as functions,
with lemmas about them. Each module is in a file of its own:

| file | module | models |
|---|---|---|
| common.dfy | Common | `Option`, thrown values, JavaScript truthiness and `a \|\| b` on strings |
| strings.dfy | Strings | `trim`, `split`, `join`, `startsWith`, `indexOf`, `substring` |
| profile.dfy | Profile | the `UserProfile` record and its string unions, keyed access to its fields |
| rate_limit.dfy | RateLimit | `getRateLimitInfo` and the periodic sweep |
| chat_route.dfy | ChatRoute | the chat `POST` handler up to the upstream call |
| chat_session.dfy | ChatSession | the chat window's state and `handleSubmit` |
| reply_format.dfy | ReplyFormat | `formatAssistantMessage` |
| tag_input.dfy | TagInput | the tag editor's handlers |
| middleware.dfy | Middleware | the request guard |
| auth_callback.dfy | AuthCallback | the sign-in callback route |
| comma_list.dfy | CommaList | the comma-separated list text fields |
| settings.dfy | Settings | the settings form handlers and selects |
| onboarding.dfy | Onboarding | the onboarding wizard |

Several points of behaviour in the code are easy to misread:

- **Rate limiter.** A window is over only once strictly more than 60 000 ms
  have passed. So a key at its cap that asks again exactly 60 000 ms after its
  window began is refused with a wait of 0 ms, and the route reports it as 0
  seconds. The wait is positive only before that instant.
  `RateLimit.ExpiredWindowRestarts` states this boundary.
- **Clock.** The clock is not read: `now` is a parameter of every limiter
  operation. The wait of a refusal is at most 60 000 ms only when the window
  began no later than `now`. A clock that moved back gives a longer wait: a full
  window that began at 1000 and a request at 500 wait 60 500 ms, which the route
  reports as 61 seconds.
- **Numbered lines.** For a numbered line, the reply formatter cuts the trimmed
  line at the first space of the *untrimmed* line. A line whose indent starts
  with a space, such as `"  1. Step"`, therefore keeps a stray `". "`
  (`ReplyFormat.IndentedNumberKeepsDot`). A line indented without any space,
  such as `"\t1. Step"`, loses the start of its text and renders as `"tep"`
  (`ReplyFormat.SpacelessIndentCutsText`). A numbered line with no space at
  all, such as `"1.\tStep"`, keeps its marker and becomes an item of the whole
  trimmed line (`ReplyFormat.SpacelessNumberKeepsMarker`).
- **Select options.** The onboarding wizard's selects offer `extra_active` and
  `keto`, which are outside the profile's type unions. They also cannot store
  `active`. For this reason the select-backed profile fields are modelled as
  strings, and `Onboarding.OptionsOutsideUnions` states the mismatch.
- **Sign-in callback.** The callback does not inspect what the session exchange
  returns. Only an exception sends the visitor back to sign in.
- **Middleware.** The guard fails open: an exception during the session lookup
  lets the request through.

## Model

| member | source | states |
|---|---|---|
| Profile.Get | src/types/database.ts:6-23 | reading a profile key gives a value of that key's type (list, number or string, each possibly undefined) |
| Profile.Set | src/app/settings/page.tsx:87-90 | `{ ...profile, [field]: value }`: the key takes the new value and every other key is unchanged |
| Profile.AllFieldsListed | src/types/database.ts:6-23 | the sixteen keys of `UserProfile` are all listed |
| RateLimit.Consume | src/app/api/chat/route.ts:20-42 | only the requesting key's entry can change; an allowed request waits 0; a refusal leaves the log unchanged, and when the window began no later than `now` its wait lies between 0 and the window length |
| RateLimit.RateLimiter.Check | src/app/api/chat/route.ts:20-42 | the decision and the new log are those of `Consume`; stored counts stay in 1..20 |
| RateLimit.RateLimiter.Sweep | src/app/api/chat/route.ts:45-52 | the loop deletes exactly the entries whose window is over and keeps the rest unchanged |
| RateLimit.Swept | src/app/api/chat/route.ts:45-52 | the swept log holds exactly the keys whose window is still open, with their entries |
| RateLimit.ConsumeKeepsCountsBounded | src/app/api/chat/route.ts:24-41 | every stored count stays between 1 and 20 whatever request arrives |
| RateLimit.FirstRequestOpensWindow | src/app/api/chat/route.ts:24-27 | a key's first request is allowed and opens a window with count 1 at `now` |
| RateLimit.ExpiredWindowRestarts | src/app/api/chat/route.ts:29-38 | after more than 60 000 ms the window restarts with count 1; at exactly 60 000 ms a full window still refuses with a wait of 0 |
| RateLimit.OpenWindowCounts | src/app/api/chat/route.ts:40-41 | in an open window below the cap the request is allowed and the count goes up by one, keeping the window start |
| RateLimit.RefusalWaitShrinks | src/app/api/chat/route.ts:35-38 | a full window refuses, with the wait equal to the window length minus the elapsed time, strictly decreasing as time advances and never above 60 000 ms |
| RateLimit.KeysIndependent | src/app/api/chat/route.ts:22-40 | one key's requests never change the decision for another key |
| RateLimit.DecisionsInWindow | src/app/api/chat/route.ts:29-41 | within one open window that starts at count c, the i-th further request is allowed exactly when c + i < 20 |
| RateLimit.BurstFromNewKey | src/app/api/chat/route.ts:16-41 | a burst from a new key inside one window has its first 20 requests allowed and every later one refused |
| RateLimit.SweepKeepsDecisions | src/app/api/chat/route.ts:45-52 | a sweep at or before a request changes neither its decision nor the key's resulting entry |
| RateLimit.SweepKeepsFreshEntry | src/app/api/chat/route.ts:45-52 | the entry an allowed request just wrote survives a sweep at the same time |
| RateLimit.SweptKeepsCountsBounded | src/app/api/chat/route.ts:45-52 | sweeping keeps every stored count within 1..20 |
| ChatRoute.ClientKey | src/app/api/chat/route.ts:63-64 | the key is `"unknown"` without the header; otherwise it is the header's comma-free prefix, ending at the first comma or at the end |
| ChatRoute.CeilSeconds | src/app/api/chat/route.ts:71 | `Math.ceil(ms / 1000)`: the least whole number of seconds covering `ms` |
| ChatRoute.RefusalSecondsInRange | src/app/api/chat/route.ts:68-75 | when the window began no later than `now`, the wait a 429 answer reports lies between 0 and 60 seconds |
| ChatRoute.ListText | src/app/api/chat/route.ts:95-100 | a list shows as its items joined by `", "`, or `"None specified"` when it is absent or joins to empty text |
| ChatRoute.ProfileLines | src/app/api/chat/route.ts:95-103 | nine profile lines in the prompt's order, each its label then the field's text: a list field its items joined by `", "` or `"None specified"`, a select field its value or `"Not specified"` |
| ChatRoute.SystemPrompt | src/app/api/chat/route.ts:94-122 | the system message is the introduction, then the profile lines joined by line feeds, then the formatting rules: it begins and ends with those texts and holds exactly the profile lines between them |
| ChatRoute.HistoryItems | src/app/api/chat/route.ts:126-129 | an array history is forwarded as given; anything else as no history |
| ChatRoute.MessageBlank | src/app/api/chat/route.ts:79 | `!message?.trim()`: the message is blank exactly when it is missing or all white space |
| ChatRoute.UpstreamMessages | src/app/api/chat/route.ts:124-131 | the system message first, then the history in order (an array only), then the user's message |
| ChatRoute.Respond | src/app/api/chat/route.ts:77-91 | an unreadable body gives 500; a blank message gives 400 `Message is required`, else a missing profile gives 400 `User profile is required` (both directions); the request is forwarded exactly when neither holds, with the upstream list built from the body |
| ChatRoute.HandleChat | src/app/api/chat/route.ts:60-91 | the rate check runs first and is recorded whatever the body; a refusal answers 429 with the wait rounded up; otherwise the answer is `Respond`'s |
| ChatSession.RoleName | src/components/ChatInterface.tsx:90-93 | each role goes on the wire as `"user"` or `"assistant"`, and only that role has that name |
| ChatSession.Wire | src/components/ChatInterface.tsx:90-93 | the sent history has one entry per message, with the same content and the role's name, in order |
| ChatSession.FailureText | src/components/ChatInterface.tsx:97-110 | a non-OK answer shows its `error` text or `"Failed to get response"`; a thrown `Error` shows its message; anything else thrown shows the fixed retry text |
| ChatSession.AskKeepsConversation | src/components/ChatInterface.tsx:68-78 | appending the trimmed, non-empty user message to a resting conversation leaves it alternating and waiting |
| ChatSession.ReplyKeepsConversation | src/components/ChatInterface.tsx:103-108 | appending the assistant's reply to a waiting conversation leaves it alternating and at rest |
| ChatSession.DropKeepsConversation | src/components/ChatInterface.tsx:112-113 | dropping the waiting message leaves the conversation alternating and at rest |
| ChatSession.ChatWindow.constructor | src/components/ChatInterface.tsx:50-53 | an empty conversation, empty input, not loading, no error |
| ChatSession.ChatWindow.SetInput | src/components/ChatInterface.tsx:181 | the input takes the typed text and nothing else changes |
| ChatSession.ChatWindow.Submit | src/components/ChatInterface.tsx:64-95 | blank input or a pending reply changes nothing and sends nothing; otherwise the trimmed input is appended as a user message, the input and error are cleared, loading starts, and the request carries the trimmed text and the earlier messages; the conversation stays alternating |
| ChatSession.ChatWindow.Complete | src/components/ChatInterface.tsx:97-116 | a reply is appended as an assistant message; a failure removes the pending user message and shows `FailureText`; loading ends either way and the conversation stays alternating |
| ChatSession.Body | src/components/ChatInterface.tsx:86-94 | the request body carries the message, the user's profile and the history in wire form |
| ChatSession.SentRequestIsForwarded | src/components/ChatInterface.tsx:86-94 | whatever the window sends is forwarded by the route: the system message, the window's own history, then the user's message |
| ReplyFormat.CloseFrom | src/components/ChatInterface.tsx:16 | the lazy `.+?` closes at the nearest `###` past the title's first character, with no line terminator in the title; `None` exactly when no `###` closes a one-line title from there |
| ReplyFormat.MatchAt | src/components/ChatInterface.tsx:16 | the pattern matches at a position exactly when this is `Some`, and the closing `###` found is the earliest of all that match there |
| ReplyFormat.FirstMatch | src/components/ChatInterface.tsx:16 | the match found is the leftmost at or after the start: no earlier position matches; `None` exactly when no position matches |
| ReplyFormat.SplitTitles | src/components/ChatInterface.tsx:16 | `split` with a capturing group gives an odd number of pieces |
| ReplyFormat.SplitTitlesTitles | src/components/ChatInterface.tsx:16 | every odd-position piece of the split is a non-empty one-line title |
| ReplyFormat.RejoinSplitTitles | src/components/ChatInterface.tsx:16 | putting the markers back around the titles gives back the reply exactly |
| ReplyFormat.NonEmpty | src/components/ChatInterface.tsx:16 | `.filter(Boolean)` keeps only non-empty pieces taken from the input, and keeps everything when nothing is empty |
| ReplyFormat.NonEmptyCounts | src/components/ChatInterface.tsx:16 | filtering keeps each non-empty piece exactly as often as it occurs and drops every empty one |
| ReplyFormat.NonEmptyAppend | src/components/ChatInterface.tsx:16 | filtering a concatenation is filtering each part, so order is kept |
| ReplyFormat.LeadingDigits | src/components/ChatInterface.tsx:30 | counts exactly the digits at the start of the line |
| ReplyFormat.RenderLine | src/components/ChatInterface.tsx:25-34 | a line that is neither a bullet nor numbered once trimmed is kept as it is |
| ReplyFormat.RenderLineOneLine | src/components/ChatInterface.tsx:25-34 | rendering a line never introduces a line break |
| ReplyFormat.MapLines | src/components/ChatInterface.tsx:25-34 | each line is rendered on its own, in order |
| ReplyFormat.FormatReply | src/components/ChatInterface.tsx:16-46 | one block per non-empty piece |
| ReplyFormat.Blocks | src/components/ChatInterface.tsx:18-45 | block i comes from piece i: a body of the rendered piece at even i, a heading of the piece at odd i |
| ReplyFormat.ProcessBody | src/components/ChatInterface.tsx:22-35 | a body piece of a single line renders as that line rendered |
| ReplyFormat.BodyKeepsLines | src/components/ChatInterface.tsx:22-35 | a rendered body has as many lines as the source piece, line i being line i rendered |
| ReplyFormat.BlocksByPosition | src/components/ChatInterface.tsx:18-45 | a block is a heading exactly when its position is odd, and a heading's text is a non-empty piece of the split |
| ReplyFormat.HeadingsAreTitlesWhenNoPieceEmpty | src/components/ChatInterface.tsx:16-45 | when no piece is empty, block i is piece i of the split: text between titles rendered as a body at even positions, a captured title as a heading at odd ones |
| ReplyFormat.NoMarkerOneBody | src/components/ChatInterface.tsx:16-37 | a reply without `###` renders as one body block, or as nothing when it is empty |
| ReplyFormat.FirstMatchIs | src/components/ChatInterface.tsx:16 | a match with no match before it is the one the split uses |
| ReplyFormat.MatchAtTitle | src/components/ChatInterface.tsx:16 | a one-line title without `#` between two markers is matched up to exactly its closing marker |
| ReplyFormat.SplitLeadingTitle | src/components/ChatInterface.tsx:16 | a reply that opens with a marked title splits into an empty piece, the title, then the split of the rest |
| ReplyFormat.SplitMiddleTitle | src/components/ChatInterface.tsx:16 | text without `#`, a marked title, then anything splits into that text, the title, then the split of the rest |
| ReplyFormat.SplitOneTitle | src/components/ChatInterface.tsx:16 | `a###t###b` with no `#` in `a`, `t` or `b` splits into exactly `[a, t, b]`, such as `"Intro\n###Tips###\n- a"` into `"Intro\n"`, `"Tips"`, `"\n- a"` |
| ReplyFormat.SplitAdjacentTitles | src/components/ChatInterface.tsx:16 | two marked titles with nothing between them split with empty pieces before, between and after them |
| ReplyFormat.NonEmptyBetweenGaps | src/components/ChatInterface.tsx:16 | filtering drops those empty pieces and keeps the two titles in order |
| ReplyFormat.FormatTwoSections | src/components/ChatInterface.tsx:18-45 | two non-empty pieces render as a body followed by a heading |
| ReplyFormat.AdjacentTitles | src/components/ChatInterface.tsx:16-20 | `###A######B###` renders `A` as body text and `B` as a heading, because the dropped empty pieces shift the positions |
| ReplyFormat.LeadingTitleRendersAsBody | src/components/ChatInterface.tsx:16-20 | a reply opening with `###Title###` shows that title as body text, because the empty first piece is dropped and the positions shift |
| ReplyFormat.FirstSpaceAfterNumber | src/components/ChatInterface.tsx:31 | in `N. text` the first space follows the dot |
| ReplyFormat.SpacelessNumberKeepsMarker | src/components/ChatInterface.tsx:30-32 | a numbered line with no space at all, such as `"1.\tStep"`, becomes an item of the whole trimmed line, its marker kept |
| ReplyFormat.NumberedLineDropsMarker | src/components/ChatInterface.tsx:30-32 | an unindented `N. text` line becomes an item of `text` alone |
| ReplyFormat.IndentedNumberKeepsDot | src/components/ChatInterface.tsx:30-32 | a `N. text` line whose indent starts with a space loses only N's first digit and keeps the `". "` in the item |
| ReplyFormat.SpacelessIndentCutsText | src/components/ChatInterface.tsx:30-32 | a `N. text` line indented without any space (tabs, say) loses its number, the `". "` and as many characters of the text as the indent is long, so `"\t1. Step"` gives `"tep"` |
| ReplyFormat.BulletLineDropsMarker | src/components/ChatInterface.tsx:27-29 | a bullet line, indented or not, becomes an item of the text after `- ` |
| ReplyFormat.BulletWinsOverNumber | src/components/ChatInterface.tsx:27-32 | the bullet test runs first: a bullet whose text is numbered, such as `- 1. eggs`, becomes an item that keeps `1. eggs` |
| TagInput.AddTag | src/components/TagInput.tsx:29-35 | the input is always cleared; the trimmed input is appended exactly when it is non-empty and not already a tag |
| TagInput.RemoveTag | src/components/TagInput.tsx:37-39 | removes the tag at the index, keeping the others in order; an index out of range changes nothing |
| TagInput.KeyDown | src/components/TagInput.tsx:20-27 | Enter or a comma adds the tag; Backspace on empty input removes the last tag; any other key does nothing |
| TagInput.MouseDown | src/components/TagInput.tsx:46-59 | a press outside the editor with non-blank input adds the tag to the list captured when the input last changed; anything else does nothing |
| TagInput.AddTagKeepsShape | src/components/TagInput.tsx:29-35 | adding keeps the tags distinct, non-empty and trimmed |
| TagInput.RemoveTagKeepsShape | src/components/TagInput.tsx:37-39 | removing keeps the tags distinct, non-empty and trimmed |
| TagInput.BackspaceUndoesAdd | src/components/TagInput.tsx:20-35 | Backspace right after adding a tag gives back the previous tags |
| Middleware.Guard | src/middleware.ts:8-46 | a failed lookup or a public page passes; the sign-in redirect happens exactly without a session off `/auth`, recording the path; the agent redirect happens exactly with a session on `/auth` |
| Middleware.Target | src/middleware.ts:30-37 | the sign-in redirect goes to `/auth/signin`, the other to `/agent` |
| Middleware.RedirectsSettle | src/middleware.ts:29-37 | following a redirect with the same session state reaches a page that passes, so redirects never loop |
| Middleware.AuthorsCountsAsAuthPage | src/middleware.ts:29-36 | the prefix test counts `/authors` as an auth page |
| AuthCallback.Callback | src/app/auth/callback/route.ts:5-37 | a provider error goes back to sign-in with its text; no code goes to sign-in; a code is exchanged once and leads to the dashboard, or to sign-in with `Authentication failed` when the exchange throws |
| AuthCallback.DashboardOnlyAfterExchange | src/app/auth/callback/route.ts:13-29 | the dashboard is reached only after one exchange of the query's own code, with no provider error |
| AuthCallback.ReportedErrorIsProviders | src/app/auth/callback/route.ts:13-17 | the sign-in page shows the description if non-empty, else the error; the `Unknown error` fallback is unreachable |
| CommaList.CleanItems | src/app/settings/page.tsx:147 | trimming and dropping empty pieces gives non-empty trimmed items, never more than the pieces |
| CommaList.CleanItemsNoComma | src/app/settings/page.tsx:147 | comma-free pieces give comma-free items |
| CommaList.CleanItemsAppend | src/app/settings/page.tsx:147 | cleaning works piece by piece: the items of two runs of pieces are the items of each, in order |
| CommaList.Parse | src/app/settings/page.tsx:147 | every parsed item is non-empty, trimmed and comma-free |
| CommaList.ParseNoComma | src/app/settings/page.tsx:147 | text without a comma reads as its trimmed self, or as nothing when blank |
| CommaList.ParseAtComma | src/app/settings/page.tsx:147 | the text before the first comma gives the first item, none when blank, and the rest is read on its own, so `" x ,, y"` reads as `x`, `y` |
| CommaList.Render | src/app/settings/page.tsx:144 | an absent list shows as empty text; a list as its items joined by `", "` |
| CommaList.ParsePaddedRender | src/app/settings/page.tsx:144-147 | leading white space before a shown list does not change what is read back |
| CommaList.ParseRender | src/app/settings/page.tsx:144-147 | reading back a shown list gives the list, for items parsing can produce |
| CommaList.ParseRenderParse | src/components/OnboardingModal.tsx:131-133 | showing what was parsed and parsing it again gives the same list |
| CommaList.AbsentShowsEmpty | src/app/settings/page.tsx:144 | an absent list shows as empty text, which reads back as the empty list |
| Settings.ShownList | src/app/settings/page.tsx:144 | an absent list field shows as empty text |
| Settings.EditList | src/app/settings/page.tsx:145-148 | typing into a list field stores the parsed text in that field and changes no other key |
| Settings.SetNumber | src/app/settings/page.tsx:85-91 | empty text stores undefined, other text the parsed number, and no other key changes |
| Settings.SetSelect | src/app/settings/page.tsx:93-123 | the placeholder stores undefined, any other option itself, and no other key changes |
| Settings.AsOption | src/app/settings/page.tsx:97 | `value \|\| undefined`: undefined exactly for empty text |
| Settings.ShownSelect | src/app/settings/page.tsx:259 | an undefined select shows the placeholder |
| Settings.InitialFormIsBlank | src/app/settings/page.tsx:13-26 | before the stored profile arrives, each list field holds an empty list and shows empty text, each number field is undefined, and each select is undefined and shows its placeholder |
| Settings.SelectShowsChoice | src/app/settings/page.tsx:259-260 | a select shows the option just chosen, the placeholder included |
| Settings.ReEditIsStable | src/app/settings/page.tsx:144-148 | re-submitting the text a list field shows leaves the profile unchanged |
| Settings.SelectsOfferTheUnions | src/app/settings/page.tsx:263-318 | each settings select offers exactly its type union, besides the placeholder |
| Onboarding.CopyKeys | src/components/OnboardingModal.tsx:85 | keys of the update that are in the listed keys take the update's values; the others keep theirs |
| Onboarding.Merge | src/components/OnboardingModal.tsx:85 | `{ ...prev, ...updates }`: keys of the update take its values, every other key keeps its own |
| Onboarding.MergeEmpty | src/components/OnboardingModal.tsx:85 | an empty update changes nothing |
| Onboarding.MergeTwice | src/components/OnboardingModal.tsx:85 | two updates in a row equal one update with the keys combined, the later winning |
| Onboarding.MergeIdempotent | src/components/OnboardingModal.tsx:85 | repeating an update changes nothing more |
| Onboarding.Payload | src/components/OnboardingModal.tsx:60-72 | the saved object copies the eleven listed keys and leaves every other key undefined |
| Onboarding.PayloadOmitsCookingTime | src/components/OnboardingModal.tsx:60-72 | the saved object never carries a cooking time, an id, an owner or timestamps |
| Onboarding.OptionsOutsideUnions | src/components/OnboardingModal.tsx:169-206 | the activity select offers `extra_active` and not `active`, and the meal-plan select offers `keto`, all against the type unions; the experience select matches its union |
| Onboarding.ChoicePatch | src/components/OnboardingModal.tsx:167 | a single-choice select updates only its key, with the chosen option |
| Onboarding.ListPatch | src/components/OnboardingModal.tsx:111-113 | a multiple-choice select or the allergies field updates only its key, with the given list |
| Onboarding.Wizard.constructor | src/components/OnboardingModal.tsx:20-35 | step 1, no error, not saving, the default answers |
| Onboarding.Wizard.Next | src/components/OnboardingModal.tsx:39-57 | clears the error; below step 3 it moves one step on; on step 3 it starts saving and hands over the payload of the current answers |
| Onboarding.Wizard.SaveFinished | src/components/OnboardingModal.tsx:73-79 | a successful save closes the wizard; a failed one shows the exception's message or the fixed text; saving ends either way |
| Onboarding.Wizard.Back | src/components/OnboardingModal.tsx:48-53 | clears the error and moves one step back, never below step 1 |
| Onboarding.Wizard.Update | src/components/OnboardingModal.tsx:82-86 | clears the error and merges the update into the answers, leaving the step alone |
| Onboarding.UpdatedAnswersAreSaved | src/components/OnboardingModal.tsx:60-86 | after an update, the saved payload carries the updated value of each saved key and the earlier value of the others |

## Left out

- The language-model call and its reply check (src/app/api/chat/route.ts:133-146) are not modelled. The route stops at `Forwarded` with the message list it would send.
- Logging (`console.error`, `console.log`) is not modelled.
- The settings page's profile loading and saving through the database (src/app/settings/page.tsx:28-83) is not modelled, and neither is the page's navigation. Database and network calls are outside the model.
- Rendering (JSX, focus, scrolling, the loading spinner) is not modelled. The reply formatter yields `Body` and `Heading` blocks instead of React elements.
- Message timestamps are not modelled: they come from the clock and nothing reads them.
- `Date.now()` is not modelled. Every limiter operation takes `now` as a parameter.
- Settings.SetNumber: the result of `Number(text)` is a parameter. JavaScript number parsing, NaN included, is not modelled, because it is floating-point conversion.
- The number inputs' `value || ''` display is not modelled.
- The middleware's `matcher` pattern (which paths the guard runs on) is not modelled, because it is a regular expression over URLs interpreted by the framework.
- URL building and `encodeURIComponent` in the redirects are not modelled: the query values and the redirect's error text are modelled as decoded strings.
- The environment-variable validation and the upstream client set-up are not part of this model.
- The sweep's timer and the concurrency between overlapping requests are not modelled: each `Check` and `Sweep` is one atomic step.
- The onboarding allergies field has no lemma of its own. Its handler is `ListPatch(Allergies, CommaList.Parse(text))`, and the list-field lemmas of `CommaList` apply to it.
- The onboarding wizard's `isOpen` prop and its rendering of each step are not modelled.
- The onboarding wizard's error `field` is not modelled: the wizard never sets it.
- Onboarding.Wizard.Next: the save callback is not called from the method. It hands the payload back, and `SaveFinished` takes the callback's outcome.
- ChatSession.ChatWindow.Complete: the network round trip is not modelled. Its outcome is a parameter: a reply, a non-OK answer with its `error` field, or a thrown value.
- TagInput.MouseDown: the model takes the captured list as a parameter. The React effect that re-registers the listener when the input changes is not modelled, so which list is captured is up to the caller.
- The chat route's body is assumed to have the `ChatRequest` shape once parsed: `message` a string or absent, list fields arrays or absent, history items objects. The TypeScript casts check none of this, so a non-string message (src/app/api/chat/route.ts:79), a non-array list field (src/app/api/chat/route.ts:95-100) or a `null` history item (src/app/api/chat/route.ts:126-128) throws and answers 500; those paths are not modelled.
- Strings are sequences of Unicode characters, while JavaScript's `indexOf`, `substring` and `length` count UTF-16 code units. The two differ only when a character outside the Basic Multilingual Plane comes before the first space of a numbered line, where the model cuts at a different place.
- AuthCallback.Callback: creating the database client (src/app/auth/callback/route.ts:25) and the exchange (route.ts:26) share one `try`. The model records the exchange call even when creating the client would throw first. The redirect is the same either way: sign-in with `Authentication failed`.
- Regular-expression `.` is modelled as any character except `\n`, `\r`, U+2028 and U+2029. This matches JavaScript without the `s` flag.
