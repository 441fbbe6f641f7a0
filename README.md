# Script-to-storyboard front-end, modelled in Dafny

The application takes a script, asks a language model to split it into
scenes with image prompts, asks an image model for one picture per scene,
and shows the storyboard next to a chat panel. This project models the
parts of that front-end that are real logic once the AI services are
abstracted:

- **Storyboard generation** (`App.tsx`). A file upload resets the state.
  A generation run is refused when there is no script. Otherwise it shows
  one loading placeholder per extracted scene, maps each scene's image
  outcome to a data URI or to the `"error"` sentinel, and merges the
  settled results into the storyboard by scene number. The merge follows
  `findIndex`, so only the first item with a given number is updated.
  Modules `Storyboard` (pure steps, the merge loop, its lemmas) and `App`
  (state transitions, the `StoryboardApp` class, the lazily created chat
  session).
- **Chat log** (`components/ChatBot.tsx`). Module `Chat`: the send guard
  (JavaScript `trim`), and the append-only log. Each accepted send adds the
  user's text and then exactly one model message, either the reply or the
  fixed fallback. The `ChatBot` class gets its session from
  `StoryboardApp.GetChat`.
- **Storyboard panel** (`components/StoryboardPanel.tsx`). Module `Panel`:
  which view the panel shows (error, empty state, grid) and which media each
  card shows (placeholder, error card, image).
- **Records** (`types.ts`). Module `Types`: `Scene`, `StoryboardItem` with a
  three-way `ImageUrl` (`NoImage` for `null`, `ErrorSentinel`, `Url`), and
  `ChatMessage`.

The external services enter only as outcomes passed as inputs. Extraction
is an `Extraction` (`Extracted(scenes)` or `ExtractionFailed`). The image
request for the i-th scene is `outcomes(i)`, an `ImageResult`
(`Generated(bytes)` or `GenerationFailed`). A chat reply is a `Reply`
(`Replied(text)` or `ReplyFailed`).

A generation run is modelled as one step: all image requests settle, and
then the merge runs once against the storyboard the run itself built.
Each state-changing handler is proved against a function on the state
(`App.Generate`, `App.Upload`, `Chat.AfterSend`, `Chat.Typed`). The properties are proved as lemmas
about those functions.

Scene numbers come from the extraction service and nothing makes them
distinct. When a number repeats, the merge puts the LATER scene's result
into the EARLIER scene's item, and leaves the later scene's item loading
(`Storyboard.FirstDuplicateShowsLastScene`,
`Storyboard.LaterDuplicateStaysLoading`). So a failed image request for
one scene leaves every other scene's item unchanged only when scene numbers
are distinct (`Storyboard.DistinctOutcomeAffectsOnlyItsItem`).

## Model

| member | source | states |
|---|---|---|
| Storyboard.InitialStoryboard | App.tsx:36-40 | one item per extracted scene, in scene order, each with that scene, `imageUrl` null and loading |
| Storyboard.ImageUrlFor | App.tsx:43-51 | a failed image request gives exactly the sentinel; a successful one gives `data:image/jpeg;base64,` followed by the bytes (the prefix the image service adds at services/geminiService.ts:91-93), which is never null, empty or the sentinel string |
| Storyboard.Settle | App.tsx:43-53 | one settled result per scene, in scene order, each carrying its own scene and the URL of its own request's outcome |
| Storyboard.FindIndex | App.tsx:58 | the result is -1 exactly when no item has the scene number; otherwise it is the first item with that number |
| Storyboard.MergeOne | App.tsx:57-61 | one `forEach` step: the first item with the result's scene number becomes `{scene, imageUrl, isLoading: false}`, all other items are unchanged, and the scene numbers at every position are kept |
| Storyboard.Merge | App.tsx:55-64 | merging keeps the length and the scene number at every position, so no item is added, removed or reordered |
| Storyboard.MergeSettled | App.tsx:55-64 | the array copy patched in place inside the loop ends equal to the merge of all settled results in order |
| Storyboard.MergeAt | App.tsx:55-64 | each position ends as the settled form of the LAST result with its scene number, if it is the first position with that number and such a result exists; otherwise it is unchanged |
| Storyboard.MergeKeepsUnmatched | App.tsx:58-61 | an item whose scene number no result carries is left untouched |
| Storyboard.MergeSettlesFirstMatch | App.tsx:58-60 | the first item with a scene number that some result carries ends not loading, holding the last such result |
| Storyboard.MergeSkipsLaterDuplicate | App.tsx:58-60 | an item that repeats an earlier item's scene number is never updated |
| Storyboard.AllSettledWhenDistinct | App.tsx:36-64 | with distinct scene numbers, the final storyboard has one item per scene, in scene order, each not loading and holding the URL of its own request's outcome |
| Storyboard.LaterDuplicateStaysLoading | App.tsx:58-60 | with a repeated scene number, the later scene's item remains a loading placeholder after the merge |
| Storyboard.FirstDuplicateShowsLastScene | App.tsx:57-61 | with a repeated scene number, the first item with that number ends showing the scene and image outcome of the last scene with that number |
| Storyboard.FinalStoryboard | App.tsx:36-64 | the storyboard a run ends with has one item per extracted scene, each at its scene's position with its scene number |
| Storyboard.OutcomeAffectsOnlyItsItem | App.tsx:43-64 | changing one scene's image outcome changes at most one item: the first item carrying that scene's number |
| Storyboard.DistinctOutcomeAffectsOnlyItsItem | App.tsx:43-64 | with distinct scene numbers, changing one scene's image outcome leaves every other scene's item unchanged |
| App.Upload | App.tsx:19-23 | an upload sets the script to the content, empties the storyboard, clears the error and leaves loading alone |
| App.Generate | App.tsx:25-72 | a run never changes the script; without a script only the error changes, to the validation message; with one, loading ends off, a failed extraction leaves no storyboard and the processing error, and a successful one leaves no error and the final storyboard of its scenes and outcomes |
| App.View | App.tsx:123 | the panel receives the app's storyboard, loading flag and error: it shows the error view exactly when the error is truthy, and otherwise one card per item of a non-empty storyboard |
| App.UploadResets | App.tsx:19-23 | after an upload the panel shows no earlier storyboard or error: the empty state with nothing loading, an empty grid while a run is loading |
| App.EmptyScriptRefused | App.tsx:26-29 | with an empty script only the error changes, to "Please upload a script first."; neither service outcome plays any part, and the panel shows that error |
| App.PendingShowsPlaceholders | App.tsx:30-41 | after extraction returns N scenes, the state is loading with no error and N placeholders in scene order, and the panel shows N placeholder cards |
| App.FailedExtractionShowsError | App.tsx:66-71 | a failed extraction leaves an empty storyboard, the error "Failed to process the script. Please try again." and loading off; the panel shows that error |
| App.RunEndsNotLoading | App.tsx:25-71 | once a run with a script ends, the panel never shows the empty grid of a run in progress: a grid has one card per extracted scene, and the empty state means extraction returned no scenes |
| App.DistinctRunSettlesEveryScene | App.tsx:30-71 | a successful run with distinct scene numbers ends with no error, not loading, one settled item per scene in order; each card shows its own data URI image, or the error card if its own request failed |
| App.DuplicateRunLeavesPlaceholder | App.tsx:55-70 | with a repeated scene number, the run ends with loading off while the later duplicate's item is still loading and its card shows a placeholder |
| App.StoryboardApp.constructor | App.tsx:13-17 | the initial state: empty script, empty storyboard, not loading, no error, no chat |
| App.StoryboardApp.HandleFileUpload | App.tsx:19-23 | the new state is the upload transition of the old one; the chat session is untouched |
| App.StoryboardApp.HandleGenerateStoryboard | App.tsx:25-72 | the new state is the generation transition of the old one; it runs the merge as the array loop; the chat session is untouched |
| App.StoryboardApp.GetChat | App.tsx:74-84 | an existing session is returned unchanged and nothing is created; with none, a fresh session for `gemini-2.5-flash` is created, stored and returned |
| Panel.ItemMedia | components/StoryboardPanel.tsx:56-58 | a loading item shows a placeholder whatever its URL; a settled item shows the error card exactly when its URL is the string "error", an image with exactly its URL when the URL is any other non-empty string, and a placeholder for null or "" |
| Panel.CardFor | components/StoryboardPanel.tsx:53-65 | a card is headed by its item's scene number, carries its scene's description and shows the item's media |
| Panel.Render | components/StoryboardPanel.tsx:25-53 | a truthy error selects the error view showing that error, whatever else holds; otherwise an empty storyboard with nothing loading selects the empty state; otherwise the grid, with one card per item in storyboard order, which is no cards while loading has just begun |
| Chat.TrimStart | components/ChatBot.tsx:25 | the result is a suffix of the input, the part cut off is all whitespace, the result does not start with ECMAScript whitespace, and it is empty exactly when the input is all whitespace |
| Chat.TrimEnd | components/ChatBot.tsx:25 | the result is a prefix of the input, the part cut off is all whitespace, the result does not end with ECMAScript whitespace, and it is empty exactly when the input is all whitespace |
| Chat.Trim | components/ChatBot.tsx:25 | `trim` yields a slice of the input with only whitespace cut off before and after it, and which neither starts nor ends with whitespace |
| Chat.TrimEmptyIffBlank | components/ChatBot.tsx:25 | `input.trim()` is empty exactly when every character of the input is whitespace |
| Chat.AcceptsIffNonBlank | components/ChatBot.tsx:25 | a send goes ahead exactly when no reply is pending and the input has a non-whitespace character |
| Chat.Typed | components/ChatBot.tsx:63-68 | typing replaces the input unless a reply is pending (the box is disabled), and never touches the messages or loading |
| Chat.AfterSend | components/ChatBot.tsx:24-45 | a send keeps the old messages as a prefix; an accepted send adds exactly two messages, clears the input and ends not loading; a refused send changes nothing |
| Chat.RefusedSendIsNoOp | components/ChatBot.tsx:25 | with a blank input or a pending reply, a send changes neither messages, input nor loading, and sends nothing |
| Chat.AcceptedSendAppendsTwo | components/ChatBot.tsx:27-44 | an accepted send keeps the old messages, appends a user message with the untrimmed input and then one model message, clears the input and ends not loading; the text sent is that input; the model message is the reply text, or the fixed fallback on failure |
| Chat.StepIsAppendOnly | components/ChatBot.tsx:24-45 | typing or sending keeps the old log as a prefix and adds only user/model pairs |
| Chat.RunIsAppendOnly | components/ChatBot.tsx:27-44 | over any sequence of typing and sends, earlier messages are never modified or reordered, and the log grows only by user/model pairs |
| Chat.ChatBot.constructor | components/ChatBot.tsx:13-15 | a new panel has no messages, an empty input and nothing loading |
| Chat.ChatBot.SetInput | components/ChatBot.tsx:63-68 | typing replaces the input, except while loading, when the input box is disabled |
| Chat.ChatBot.HandleSend | components/ChatBot.tsx:24-45 | the new state is the send transition of the old one; the text returned as sent is the input when the send is accepted; an accepted send obtains the session from the application (creating it if none exists); a refused send does not touch it |

## Left out

- The network calls of the services (scene extraction, image generation, chat messages) and the construction of their client. Their results are inputs to the model. Creating the chat session is modelled as always succeeding: in the source, a `getChat()` that threw inside the send's `try` would log the fallback message and leave no session, and the model does not capture that case.
- The response handling in `services/geminiService.ts`: JSON parsing, the array check and the missing-image check. Every failure there becomes `ExtractionFailed` or `GenerationFailed`. A success becomes `Extracted(scenes)` with well-typed scenes, or the data URI built from the returned bytes.
- The startup check for the API key. It is process environment, read once at start.
- The asynchronous fan-out of image requests and the `Promise.all` join. A run computes all outcomes and merges once. Interleavings are not modelled: a second run, or an upload, landing while a run awaits its images. The merge's reading of the then-current storyboard therefore always sees the placeholders the same run built.
- App.StoryboardApp.GetChat: the model assumes the stored session is visible to the next call at once. In the source, a second call within the same render can create a second session before the state update lands.
- Chat.ChatBot.HandleSend: does not model a second send while a reply is awaited, which could read a stale `isLoading`. A send is atomic here, so loading is always false between events.
- A reply whose `text` is missing is not distinguished: `Replied(text)` carries whatever text the service returned.
- `console.error` logging, the scrolling of the chat panel, and all markup and styling beyond the choice of view and media. Also left out: React's warning about duplicate card keys when scene numbers repeat.
- `components/FileUpload.tsx` (the file read that produces the uploaded text) and `components/Header.tsx` (static markup) are not part of this model.
- The generate button is disabled while there is no script or a run is loading. The model leaves this out and lets the handler run in any state, so the empty-script refusal is still modelled.
