# Comix-AI client core in Dafny

Comix-AI is a browser client that drives the Google Gemini models. It has two parts:

- **Character studio.** Users create characters: a name, a description, a visual style and optionally a reference photo. The image model draws avatar drafts, and one draft is kept for the gallery.
- **Comic board.** Users write scenes. A text model turns each scene into a Romanian caption and an English image prompt, and the image model draws the panel. The caption bubble of each panel can then be dragged, resized and edited.

This project models that client's logic and proves what it promises.

The service layer (`services/geminiService.ts`):

- the style table;
- the character context sent with every scene;
- the text-stage prompts;
- the avatar request, with or without a reference photo, and the stripping of the photo's data-URL prefix;
- the fixed no-text suffix of panel prompts;
- the loop that takes the first inline image of an answer and wraps it as a `data:image/png;base64,` URL;
- how each answer becomes a result or an error.

The handlers of the three components, each as a class whose methods update its fields:

- the board (`components/ComicBoard.tsx`): generation guard, cast selection, generation, bubble drag, scale and caption edits;
- the studio (`components/CharacterCreator.tsx`): photo upload with auto-description, draft generation, save, draft removal;
- the application shell (`App.tsx`): key flag, gallery and panel list.

The SDK is never called. What a call answered, or that it threw, is a parameter of the operation that handles it:

- `ImageReply`, `TextReply`, `AnalysisReply`;
- the parsed JSON of the text stage;
- the result of a key check;
- each new id.

Each handler is one atomic step. The handlers that call the service also return what they sent, so that a contract can state it:

- the board returns the scene, characters and style it hands to the text stage, and the image prompt it hands to the image stage;
- the studio returns the parts of the avatar request, which its contract states in terms of the typed name and description, the chosen style and the reference photo.

Modules:

| file | module | what it holds |
|---|---|---|
| basics.dfy | `Basics` | `Option`, `Result` |
| js_strings.dfy | `JsStrings` | `trim`, `includes`, template literals, `join`, `split`, `indexOf` |
| js_arrays.dfy | `JsArrays` | `filter` and removal by id |
| types.dfy | `Types` | characters, panels, the twelve styles |
| gemini_service.dfy | `GeminiService` | request assembly and answer handling |
| comic_board.dfy | `ComicBoard` | the board's handlers (class `Board`) |
| character_creator.dfy | `CharacterCreator` | the studio's handlers (class `Creator`) |
| app.dfy | `App` | the shell's state and callbacks (class `AppState`) |

Two places where the model follows the code rather than its surroundings:

- **Panel shape.** `components/ComicBoard.tsx` imports the `ComicPanel` type of `types.ts:20-34` and annotates its props, its state and its new panel with it (lines 2, 9, 27 and 51). The panel it builds and reads, however, has another shape: id, image URL, caption, prompt and a `textPosition` of x, y and scale. It never sets or reads the declared `size`, `orderIndex` or `bubbles`. The model's `ComicPanel` has the shape the code builds.
- **No fallback to the whole cast.** With no cast member selected, `handleGenerate` sends no character at all. Line 39 of `components/ComicBoard.tsx` comments that everyone is then selected, and the selection counter shows "Toate" ("All"). The code, however, falls back to the empty list. `ComicBoard.SelectedCharactersSpec` proves the behaviour as written.

## Model

| member | source | states |
|---|---|---|
| JsStrings.WhitespaceIsEcmaScript | components/ComicBoard.tsx:35 | `IsWhitespace`, the test for the characters `trim` removes, holds exactly of the ECMAScript WhiteSpace and LineTerminator code points (section 12.2 and 12.3 of ECMA-262), listed independently as sets |
| JsStrings.TrimStart | components/ComicBoard.tsx:35 | the result is a suffix of the input that does not start with whitespace, and what was removed is all whitespace |
| JsStrings.TrimEnd | components/ComicBoard.tsx:35 | the result is a prefix of the input that does not end with whitespace, and what was removed is all whitespace |
| JsStrings.Trim | components/ComicBoard.tsx:35 | `trim` leaves a piece of the input lying between a blank prefix and a blank suffix, and that piece neither starts nor ends with whitespace |
| JsStrings.TrimEmptyIffBlank | components/ComicBoard.tsx:35 | `!s.trim()` holds exactly for strings made only of ECMAScript whitespace, the empty string included (both directions) |
| JsStrings.TrimsToEmpty | components/CharacterCreator.tsx:57 | the trim guard is true exactly when the string is blank |
| JsStrings.TemplateIncludes | services/geminiService.ts:64 | a template literal contains every one of its pieces as a substring |
| JsStrings.Split | services/geminiService.ts:77 | `split` gives at least one piece; no piece holds the separator; the first piece is exactly what precedes the first separator |
| JsStrings.SplitJoin | services/geminiService.ts:124 | splitting a join at a separator no piece contains gives the pieces back |
| JsStrings.SplitAtFirst | services/geminiService.ts:77 | splitting at the first separator gives the piece before it, then the pieces of the rest |
| JsStrings.IndexOf | services/geminiService.ts:77 | the helper that locates the first comma for `split(',')[1]`: the index of a contained character is its first occurrence |
| JsStrings.Join | services/geminiService.ts:124 | joining no piece gives the empty string, one piece gives that piece, and the first piece always opens the result; `SplitJoin` proves `split` undoes it |
| JsStrings.Utf16Length | components/ComicBoard.tsx:336 | `length` counts UTF-16 code units: between one and two per character, exactly one per character inside the Basic Multilingual Plane |
| JsArrays.Filter | App.tsx:36 | `filter` keeps only elements satisfying the test, never adds one, and keeps every element that satisfies it |
| JsArrays.FilterCounts | App.tsx:36 | a kept element keeps its multiplicity; a dropped one has none |
| JsArrays.FilterConcat | App.tsx:36 | filtering preserves order: it distributes over concatenation |
| JsArrays.WithoutId | App.tsx:36 | removal by id never lengthens the list, leaves no entry with the id, and keeps exactly the entries without it |
| JsArrays.WithoutIdSpec | App.tsx:35-37 | after removal by id every other entry keeps its multiplicity; a list without the id is unchanged |
| JsArrays.WithoutIdFilter | components/ComicBoard.tsx:37 | removal by id commutes with any other filter |
| JsArrays.WithoutIdUndoesAppend | App.tsx:26-37 | removing the id of a just-appended entry whose id was new gives back the list before the append |
| GeminiService.StylePrompt | services/geminiService.ts:210-219 | every style has non-empty prose; the six styles without their own case get exactly the comic-book prose |
| GeminiService.ContextLines | services/geminiService.ts:124 | one `name: description` line per character, in input order |
| GeminiService.CharContext | services/geminiService.ts:124 | the context is empty exactly when there is no character, and one character gives its own line alone |
| GeminiService.CharContextLines | services/geminiService.ts:124 | no characters gives the empty context; otherwise, with no newline in names or descriptions, the context splits at its newlines into exactly one line per character, in order |
| GeminiService.PanelTextRequest | services/geminiService.ts:127-144 | the system instruction contains the style keyword, the character context and the style prose; the user prompt contains the character context and the scene |
| GeminiService.PanelTextResult | services/geminiService.ts:164-167 | the text stage succeeds exactly when the call answered with non-empty text that parsed, and yields what parsed; an empty text fails with "No text response" |
| GeminiService.ImageDataUrl | services/geminiService.ts:104 | the URL starts with `data:image/png;base64,` and the rest is the payload |
| GeminiService.ImageFromParts | services/geminiService.ts:102-107 | an image is found exactly when some part carries inline data; otherwise the error is the given "No image data" message |
| GeminiService.ImageFromPartsIsFirst | services/geminiService.ts:102-105 | the image found is the data URL of the first part with inline data, and no earlier part has any |
| GeminiService.ImageResult | services/geminiService.ts:198-203 | a thrown call, a missing first candidate and a candidate without inline data are errors; success needs an inline part in the first candidate |
| GeminiService.ExtractImage | services/geminiService.ts:198-202 | the early-returning loop over the parts computes `ImageFromParts` |
| GeminiService.ReceiveImage | services/geminiService.ts:198-203 | the answer handling of an image call computes `ImageResult` |
| GeminiService.ReferenceImageData | services/geminiService.ts:76-78 | without a comma the reference is sent as is; with one, the payload is the comma-free segment that follows the first comma, up to the next comma or the end |
| GeminiService.ReferenceImageDataRoundTrip | services/geminiService.ts:76-78 | stripping a comma-free payload's `data:image/png;base64,` URL gives the payload back |
| GeminiService.HasReference | services/geminiService.ts:66 | a reference is used exactly when it is truthy: an absent value and the empty string are falsy, every other string truthy |
| GeminiService.OrUndefined | components/CharacterCreator.tsx:64 | handing on `referenceImage`, or `undefined` when it is falsy, passes a truthy reference on unchanged and turns a falsy one into an absent one, so whether a reference is sent never changes |
| GeminiService.AvatarPromptHead | services/geminiService.ts:64 | the prompt opens with "Create a character portrait. Name: " and carries the name, the style prose and the no-text instruction |
| GeminiService.ReferenceInstruction | services/geminiService.ts:67 | the reference instruction names the style keyword and carries the facial-resemblance line |
| GeminiService.DescriptionLine | services/geminiService.ts:69 | the description line opens with "\nDescription: " and carries the typed description |
| GeminiService.AvatarPrompt | services/geminiService.ts:64-70 | the prompt starts with the head for the name and style and carries both; with a reference it carries the resemblance line and the style keyword; without one it carries the description line and so the description |
| GeminiService.AvatarRequestParts | services/geminiService.ts:64-86 | the first part is the text of `AvatarPrompt` for the name, description, style and reference; with a reference image a second part follows, the inline PNG of the stripped payload; without one there is no other part |
| GeminiService.GenerateCharacterAvatar | services/geminiService.ts:52-112 | the avatar call sends the parts above for its arguments and yields the first inline image, or fails with "No image data returned" |
| GeminiService.PanelImagePrompt | services/geminiService.ts:182 | the caller's image prompt is a prefix of the sent prompt, followed by exactly the fixed no-bubbles suffix |
| GeminiService.GeneratePanelImage | services/geminiService.ts:177-208 | the panel-image call sends exactly one text part with the suffixed prompt, and yields the first inline image or fails with "No image data returned for panel" |
| GeminiService.AnalysisResult | services/geminiService.ts:41 | the analysis succeeds exactly when the call answered; it yields the text, or the empty string when there is none |
| ComicBoard.Clamp | components/ComicBoard.tsx:96-97 | the result lies in [0, 100]; values inside are kept; values below give 0 and values above give 100 |
| ComicBoard.ApplyEdit | components/ComicBoard.tsx:90-118 | a drag changes only the bubble's x and y, each clamped; a scale edit changes only the scale; a caption edit changes only the caption; id, image and prompt never change |
| ComicBoard.EditPanels | components/ComicBoard.tsx:90-103 | the list keeps its length, order and ids; the panels with the id are edited; all others are unchanged |
| ComicBoard.SelectedCharacters | components/ComicBoard.tsx:37 | the characters sent are exactly the cast members whose id is selected, never more than the cast |
| ComicBoard.SelectedCharactersSpec | components/ComicBoard.tsx:37-40 | the characters sent are exactly the cast members whose id is selected, each as often as listed, in cast order; with nothing selected none is sent; with everyone selected the whole cast is sent |
| ComicBoard.SelectedAfterRemoval | components/ComicBoard.tsx:37 | removing a character from the cast removes it from what a generation sends and changes nothing else there |
| ComicBoard.Toggled | components/ComicBoard.tsx:70-75 | a toggle flips the clicked id's membership and no other id's |
| ComicBoard.ToggledTwice | components/ComicBoard.tsx:70-75 | toggling the same id twice restores the selection |
| ComicBoard.CaptionRows | components/ComicBoard.tsx:336 | at least two rows; rows of 25 UTF-16 code units enough for the caption; no more rows than that needs |
| ComicBoard.Board.constructor | components/ComicBoard.tsx:18-27 | a new board: empty prompt, not generating, no status, comic-book style, nothing selected, no drag, the given panels |
| ComicBoard.Board.HandleGenerate | components/ComicBoard.tsx:33-68 | a blank prompt changes nothing and calls nothing; otherwise the text stage gets the prompt, the selected characters and the style, and the outcome follows `Board.Generate` |
| ComicBoard.Board.Generate | components/ComicBoard.tsx:37-67 | the image stage is asked exactly when the text stage succeeded, with its image prompt; one panel (new id, image URL, caption, typed prompt, bubble at 50/90/1) is added exactly when both succeed; the prompt is cleared only then; afterwards the board is not generating and shows no status |
| ComicBoard.Board.ToggleCharSelection | components/ComicBoard.tsx:70-75 | the selection becomes the toggled set |
| ComicBoard.Board.HandleMouseDown | components/ComicBoard.tsx:78-81 | the pressed panel's bubble is being dragged from the pointer position |
| ComicBoard.Board.HandleMouseMove | components/ComicBoard.tsx:83-105 | nothing changes unless that panel is being dragged; then only its bubble moves, clamped, and the drag continues from the new pointer position |
| ComicBoard.Board.HandleMouseUp | components/ComicBoard.tsx:107-109 | no drag is in progress |
| ComicBoard.Board.HandleScaleChange | components/ComicBoard.tsx:111-114 | only the scale of the panels with the id changes |
| ComicBoard.Board.HandleCaptionChange | components/ComicBoard.tsx:116-119 | only the caption of the panels with the id changes |
| CharacterCreator.SavedCharacter | components/CharacterCreator.tsx:80-85 | a saved character has the new id, the typed name and the draft's image; its description is the typed one, or "Personaj generat din imagine" when none was typed, so it is never empty |
| CharacterCreator.DraftsAfter | components/CharacterCreator.tsx:66-71 | a new avatar is prepended as a draft with the new id; a failure leaves the drafts as they were |
| CharacterCreator.DeleteUndoesNewDraft | components/CharacterCreator.tsx:94-96 | discarding the draft just generated under a fresh id gives back the drafts from before the generation |
| CharacterCreator.Creator.constructor | components/CharacterCreator.tsx:18-27 | an empty studio: no name, no description, comic-book style, no photo, no drafts, nothing running |
| CharacterCreator.Creator.HandleImageUpload | components/CharacterCreator.tsx:31-53 | no file changes nothing; a file becomes the reference; it is analysed only when no description was typed; a successful analysis fills the description and a failed one leaves it; afterwards no analysis is running |
| CharacterCreator.Creator.HandleGenerateDraft | components/CharacterCreator.tsx:55-77 | a blank name changes nothing and calls nothing; otherwise the avatar request for the studio's name, description, style and photo is sent and the outcome follows `Creator.GenerateDraft` |
| CharacterCreator.Creator.GenerateDraft | components/CharacterCreator.tsx:62-76 | the request sent is the avatar request (prompt text, then the stripped photo when there is one) for the studio's name, description, style and photo; a returned avatar is prepended as a draft; a failure leaves the drafts; afterwards the studio is not generating |
| CharacterCreator.Creator.HandleSaveCharacter | components/CharacterCreator.tsx:79-92 | the saved character is `SavedCharacter` of the typed name and description; drafts, name, description and photo are cleared |
| CharacterCreator.Creator.HandleDeleteDraft | components/CharacterCreator.tsx:94-96 | every draft with the id is removed and the others stay in order |
| App.AppState.constructor | App.tsx:9-12 | before any key check: no key, no characters, no panels |
| App.AppState.ReceiveKeyCheck | App.tsx:16-23 | the key flag is the result of the latest key check |
| App.AppState.AddCharacter | App.tsx:26-27 | the character is appended after the unchanged gallery |
| App.AppState.RemoveCharacter | App.tsx:35-37 | the gallery loses every character with the id and keeps the others in order |
| App.AppState.AddPanel | App.tsx:39-41 | the panel is appended after the unchanged list |
| App.AppState.RemovePanel | App.tsx:44-46 | the list loses every panel with the id and keeps the others in order |
| App.AppState.SaveDraft | App.tsx:119-123 | a saved draft is appended to the gallery as `SavedCharacter` and the studio is cleared |
| App.AppState.GeneratePanel | App.tsx:136-141 | the board generates from the gallery's selected characters; the panel it produces, if any, is appended; a blank prompt adds nothing |

## Left out

- The Gemini SDK calls themselves, and the model names, aspect ratios and image sizes passed to them, are not modelled. An answer or a thrown error enters as a reply parameter. The answer's shape is reduced to `candidates[0]`'s parts: a candidate without `content` is not distinguished.
- `JSON.parse` of the text stage's answer is left out: the reply carries the parsed value, or none when parsing throws. A parse that yields something other than `{caption, imagePrompt}` is not modelled.
- `analyzeCharacterImage` is modelled only through its answer, `AnalysisResult`. Its request assembly is left out: the fixed description prompt and the unchecked `split(',')[1]` of the photo.
- `checkApiKey` and `promptForApiKey` use the host's `window.aistudio`; only the boolean the check returns is modelled, by `ReceiveKeyCheck`. `getAIClient` is left out.
- Browser I/O is replaced by parameters or left out:
  - `FileReader` becomes the data URL it produces;
  - `crypto.randomUUID` becomes a new-id parameter;
  - `alert`, `console` and `window.print` are left out;
  - clearing the file input after a save is left out.
- ComicBoard.Board.HandleMouseMove: the pixel-to-percent conversion through `getBoundingClientRect` is left out. The percent deltas are parameters, reals are exact, and floating-point rounding is not modelled.
- React scheduling is not modelled. Each handler is one atomic step on the current state, so stale closures across `await` and the deferred application of `setState` are not captured. This includes the `useEffect` that copies `panels` into `localPanels` (components/ComicBoard.tsx:29-31).
- Other UI state is left out: the tab switches, the form fields' `onChange` setters (plain assignments) and all JSX rendering. `components/Footer.tsx` and `components/ManifestoModal.tsx` are not part of this model.
- ComicBoard.Board.HandleGenerate does not return the prompts it builds. It returns the scene, characters and style handed to the text stage and the image prompt handed to the image stage. What those prompts contain is stated separately, by `GeminiService.PanelTextRequest` and `GeminiService.PanelImagePrompt`.
- GeminiService.PanelTextRequest: its contract states which pieces each prompt contains, not the full Romanian text. The full text is the definition itself.
- JsStrings.Split: only a one-character separator is modelled, which is the only kind the code uses.
- Strings are modelled as sequences of Unicode code points, while JavaScript strings are sequences of UTF-16 code units. Only the caption's `length` depends on the difference, and `JsStrings.Utf16Length` models it. `trim`, `includes`, `join` and `split(',')` give the same strings either way, since every character they look for lies in the Basic Multilingual Plane.
