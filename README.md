# 3D mockup generator — a verified model

The application turns a text description of a product into a photorealistic 3D mockup image.
A React front end collects the prompt and generation settings, shows the result, keeps a
gallery of earlier mockups and has a sign-in page. A Supabase edge function (`generate-mockup`)
builds the instruction for the Gemini image model. It calls the model once and answers with
either a data URL of the generated image or a placeholder image plus an error.

This project models that edge function and the stateful parts of four React components in
Dafny:

- `wrappers.dfy`: `Option`.
- `js_text.dfy` (`JsText`): the JavaScript string built-ins the code relies on. These are
  truthiness, `trim`, ASCII `toLowerCase`, `includes`, `substring(0, n)`, `split` on one
  character, `String(n)` and `encodeURIComponent`.
- `json_value.dfy` (`JsonValue`): parsed JSON as the handler's JavaScript reads it. It covers
  member reads, truthiness and the text of `${v}`.
- `mockup_prompt.dfy` (`MockupPrompt`): how the enhanced prompt is composed from the prompt and
  the settings.
- `mockup_request.dfy` (`MockupRequest`): the request body sent to the model. This includes
  splitting a data-URL reference image into its MIME type and payload.
- `mockup_handler.dfy` (`MockupHandler`): the whole `serve` handler. It covers the preflight,
  the API-key check, the upstream error details, image extraction from the reply, and the choice
  of response body. It also covers every statement inside the `try` that can throw.
- `gallery.dfy` (`Gallery`): sorting by creation time, the case-insensitive prompt search, and
  the page state and panels.
- `prompt_input.dfy` (`PromptInput`): the prompt form, its default settings, the submit guard and
  the example labels.
- `mockup_display.dfy` (`MockupDisplay`): the viewer's rotation, error state, panel precedence,
  button enablement, and the download and share guards.
- `auth.dfy` (`Auth`): the sign-in / sign-up page. It covers the tab from the `mode` query value,
  the required fields, and the loading flag, toasts and navigation.

The modelling choices:

- Inputs from outside become parameters of the handler: the HTTP method, the API key, the
  parsed request, the upstream outcome, and the runtime's error for each throw site.
- Loops and state updates are methods with contracts. These are the prompt grown with `+=`, the
  `for…of` over the reply parts, and the component state. The expressions are functions.
- Some behaviour is kept exactly as the code has it, though it may look unintended. A
  `detailLevel` of 0 is falsy and produces no detail clause at all. Every non-2xx upstream status
  takes the same branch, and that answer carries the default HTTP status 200.

## Model

| member | source | states |
|---|---|---|
| JsText.TrimStart | src/components/PromptInput.tsx:38 | the result is a suffix of the input; everything dropped is whitespace; the result does not start with whitespace |
| JsText.TrimEnd | src/components/PromptInput.tsx:38 | the result is a prefix of the input; everything dropped is whitespace; the result does not end with whitespace |
| JsText.TrimEmptyIffAllWhitespace | src/components/PromptInput.tsx:38 | `trim()` gives the empty string exactly when every character is whitespace |
| JsText.ToLower | src/pages/Gallery.tsx:124 | same length; each character is lowered one for one (ASCII letters) |
| JsText.ToLowerIdempotent | src/pages/Gallery.tsx:124 | lowering twice equals lowering once |
| JsText.OccurrenceIncluded | src/pages/Gallery.tsx:124 | an occurrence of the query at any position makes `includes` true |
| JsText.IncludedOccurs | src/pages/Gallery.tsx:124 | when `includes` is true, the query starts at some position |
| JsText.Prefix | supabase/functions/generate-mockup/index.ts:145 | `substring(0, n)` is the prefix of exactly n characters, or the whole string when it is shorter |
| JsText.Split | supabase/functions/generate-mockup/index.ts:94-95 | `split` yields at least one field and no field contains the separator |
| JsText.JoinSplit | supabase/functions/generate-mockup/index.ts:94-95 | joining the fields with the separator gives back the string |
| JsText.SplitJoin | supabase/functions/generate-mockup/index.ts:94-95 | splitting a join of separator-free pieces gives back the pieces |
| JsText.SplitWithoutSeparator | supabase/functions/generate-mockup/index.ts:94-95 | a string without the separator is one field |
| JsText.SplitPrepend | supabase/functions/generate-mockup/index.ts:94-95 | separator-free text in front extends only the first field |
| JsText.SplitAtFirstSeparator | supabase/functions/generate-mockup/index.ts:94-95 | the text before the first separator is the first field and the rest splits on its own |
| JsText.NatToDecimal | supabase/functions/generate-mockup/index.ts:150-151 | the status text is non-empty digits with no leading zero |
| JsText.DecimalRoundTrip | supabase/functions/generate-mockup/index.ts:150-151 | reading the decimal text back gives the number |
| JsText.EncodeUriComponent | supabase/functions/generate-mockup/index.ts:25 | the encoding is at least as long as its input and uses only unreserved characters and `%` |
| JsText.EncodeKeepsUnreserved | supabase/functions/generate-mockup/index.ts:25 | text made only of unreserved characters is unchanged |
| MockupPrompt.ComposeEnhancedPrompt | supabase/functions/generate-mockup/index.ts:46-66 | the `+=` steps produce exactly the opening, the detail, style and colour clauses (each only when truthy) and the closing sentence |
| MockupPrompt.EnhancedPromptFrame | supabase/functions/generate-mockup/index.ts:46-66 | the prompt always starts with the opening naming the user prompt and ends with the fixed closing sentence |
| MockupPrompt.PromptRoundTrip | supabase/functions/generate-mockup/index.ts:46-66 | the user prompt can be read back verbatim from the enhanced prompt |
| MockupPrompt.EnhancedPromptInjective | supabase/functions/generate-mockup/index.ts:46-66 | with the same settings, different prompts give different enhanced prompts |
| MockupPrompt.DetailBoundaries | supabase/functions/generate-mockup/index.ts:49-54 | 0 or no level adds no clause; 1 and 25 are minimal, 26 and 50 somewhat, 51 and 75 moderately, 76 and 100 highly detailed |
| MockupPrompt.DetailBandMonotone | supabase/functions/generate-mockup/index.ts:50-52 | a higher level never gives a lower detail band |
| MockupPrompt.NoSettingsNoClauses | supabase/functions/generate-mockup/index.ts:49-64 | with every setting absent or falsy only the opening and the closing sentence remain |
| MockupRequest.BuildRequestBody | supabase/functions/generate-mockup/index.ts:71-104 | fixed generation config; one content entry whose first part is the prompt text; a second, inline-data part exactly when the reference image is truthy, cut from it by the two splits |
| MockupRequest.DataUrlRoundTrip | supabase/functions/generate-mockup/index.ts:94-95 | a data URL `data:{mime};base64,{data}` yields exactly its MIME type and payload |
| MockupRequest.ReferenceDataBetweenCommas | supabase/functions/generate-mockup/index.ts:94 | the payload is the text between the first comma and the next one or the end |
| MockupRequest.NoCommaNoData | supabase/functions/generate-mockup/index.ts:94 | without a comma the payload is `undefined` |
| MockupRequest.ReferenceMimeTypeAfterColon | supabase/functions/generate-mockup/index.ts:95 | the MIME type is the text after the first `:` up to the next `:` or `;` |
| MockupRequest.NoColonNoMimeType | supabase/functions/generate-mockup/index.ts:95 | without a `:` before the first `;` the MIME type is `undefined` |
| MockupHandler.PlaceholderUrl | supabase/functions/generate-mockup/index.ts:25 | every placeholder URL starts with the placehold.co base and its caption part is URL-safe |
| MockupHandler.ErrorDetails | supabase/functions/generate-mockup/index.ts:140-146 | the details are a truthy value taken from the error body or the body's first 200 characters |
| MockupHandler.ErrorMessagePreferred | supabase/functions/generate-mockup/index.ts:143 | any truthy `error.message` wins (a non-empty string, a non-zero number, an array or an object) |
| MockupHandler.ErrorMemberNext | supabase/functions/generate-mockup/index.ts:143 | without a truthy message, a truthy `error` member is the detail |
| MockupHandler.ErrorTextFallback | supabase/functions/generate-mockup/index.ts:141-146 | an unparsable body or one without a truthy `error` gives its first 200 characters, so at most 200 characters |
| MockupHandler.ExtractImage | supabase/functions/generate-mockup/index.ts:165-212 | the candidate checks, the part loop with its `break` and the logging copy give the image, no image, or the throw site |
| MockupHandler.FirstImagePartWins | supabase/functions/generate-mockup/index.ts:181-195 | the image is the data URL of the first part carrying `inlineData` when the parts before it are plain |
| MockupHandler.NoImagePart | supabase/functions/generate-mockup/index.ts:181-195 | plain parts only yield no image |
| MockupHandler.LaterPartsIgnored | supabase/functions/generate-mockup/index.ts:189-194 | once the loop stopped, parts after it make no difference |
| MockupHandler.StringPartsThrow | supabase/functions/generate-mockup/index.ts:181-206 | a string `parts` finds nothing in the loop, so it reaches the `map` |
| MockupHandler.WellFormedReply | supabase/functions/generate-mockup/index.ts:172-196 | for a reply with no null parts, including an empty `parts` array, the outcome is the loop's over the first candidate's parts; later candidates are ignored |
| MockupHandler.NullPartAfterImageThrows | supabase/functions/generate-mockup/index.ts:199-206 | a null part after the image part makes the logging `map` throw, so the image is not returned |
| MockupHandler.NoCandidatesNoImage | supabase/functions/generate-mockup/index.ts:172-212 | no `candidates`, or an empty list, yields no image |
| MockupHandler.SecondPartImage | supabase/functions/generate-mockup/index.ts:181-193 | text then an inline image part yields exactly `data:{mime};base64,{data}` |
| MockupHandler.MissingKeyRenderable | supabase/functions/generate-mockup/index.ts:20-35 | the missing-key answer has a string `imageUrl` and an `error` |
| MockupHandler.ThrownRenderable | supabase/functions/generate-mockup/index.ts:255-275 | the exception answer has a string `imageUrl` and an `error` |
| MockupHandler.UpstreamErrorRenderable | supabase/functions/generate-mockup/index.ts:148-160 | the upstream-error answer has a string `imageUrl` and an `error` |
| MockupHandler.NoImageRenderable | supabase/functions/generate-mockup/index.ts:215-238 | the no-image answer has a string `imageUrl` and an `error` |
| MockupHandler.SuccessRenderable | supabase/functions/generate-mockup/index.ts:241-254 | the success answer has a string `imageUrl` and no `error` |
| MockupHandler.Respond | supabase/functions/generate-mockup/index.ts:124-254 | fetch rejection, non-2xx status, non-JSON body, and image, no image or throw from the reply each select their answer; the answer always has an image and has an error exactly when no image was generated |
| MockupHandler.Serve | supabase/functions/generate-mockup/index.ts:12-276 | preflight gives the CORS headers and no body; a missing key gives the 500 answer with no call; the call is made exactly with key, request and settings, and carries the enhanced prompt; each later outcome selects its answer; every other answer shows an image and has an error exactly when none was generated |
| Gallery.Insert | src/pages/Gallery.tsx:115-121 | insertion adds exactly the one element |
| Gallery.InsertKeepsSorted | src/pages/Gallery.tsx:115-121 | inserting into a sorted list keeps it sorted |
| Gallery.SortImages | src/pages/Gallery.tsx:115-121 | the sorted copy is a permutation of the images, newest first for `"newest"` and oldest first otherwise |
| Gallery.SortKeepsSorted | src/pages/Gallery.tsx:115-121 | images already in order are left exactly as they are |
| Gallery.SortIdempotent | src/pages/Gallery.tsx:115-121 | sorting twice equals sorting once |
| Gallery.FilterImages | src/pages/Gallery.tsx:123-125 | the result has exactly the images whose lowercased prompt contains the lowercased query, and is no longer than the input |
| Gallery.FilterMultiplicity | src/pages/Gallery.tsx:123-125 | every image whose lowercased prompt contains the lowercased query is kept as often as it occurs, and no other image is kept |
| Gallery.FilterIsSubsequence | src/pages/Gallery.tsx:123-125 | the search only removes images and keeps their order |
| Gallery.FilterKeepsSorted | src/pages/Gallery.tsx:123-125 | a sorted list stays sorted under the search |
| Gallery.EmptyQueryKeepsAll | src/pages/Gallery.tsx:123-125 | an empty query keeps every image |
| Gallery.QueryCaseIgnored | src/pages/Gallery.tsx:124 | a query and its lowercase form select the same images |
| Gallery.GalleryPage.constructor | src/pages/Gallery.tsx:58-61 | no images, empty query, newest first, loading |
| Gallery.GalleryPage.FinishLoading | src/pages/Gallery.tsx:70-75 | the fetched images are set and loading ends; query and order unchanged |
| Gallery.GalleryPage.SetSearchQuery | src/pages/Gallery.tsx:148 | only the query changes |
| Gallery.GalleryPage.ClearSearch | src/pages/Gallery.tsx:221 | the query is empty, every sorted image is listed, and once loaded the empty panel shows exactly when there are no images |
| Gallery.GalleryPage.SetSortBy | src/pages/Gallery.tsx:154 | only the order changes |
| Gallery.PanelsShown | src/pages/Gallery.tsx:166-246 | loading panel exactly while loading; once loaded, "no mockups found" exactly when nothing matches; "Load More" exactly with the grid; the "Create Your Own 3D Mockups" panel exactly when not loading |
| Gallery.GridShowsMatches | src/pages/Gallery.tsx:115-177 | the grid holds every loaded image that matches, as often as it was loaded, and nothing else, in the chosen order, as a subsequence of the sorted list |
| PromptInput.ExampleLabel | src/components/PromptInput.tsx:99 | labels are at most 33 characters; short examples are unchanged; long ones are their first 30 characters and `...` |
| PromptInput.SubmitDisabledWhenBlank | src/components/PromptInput.tsx:208 | "Generate" is disabled exactly while loading or while the prompt is blank |
| PromptInput.ClearDisabledThenSubmitDisabled | src/components/PromptInput.tsx:200-208 | a disabled clear button implies a disabled "Generate"; a blank, non-empty prompt shows the converse fails |
| PromptInput.PromptForm.constructor | src/components/PromptInput.tsx:28-33 | empty prompt; settings 50, realistic, vibrant |
| PromptInput.PromptForm.Submit | src/components/PromptInput.tsx:35-44 | a blank prompt only raises "Please enter a prompt"; otherwise `onSubmit` gets the untrimmed prompt and the current settings |
| PromptInput.PromptForm.SetPrompt | src/components/PromptInput.tsx:82 | the prompt becomes the typed text; settings unchanged |
| PromptInput.PromptForm.Clear | src/components/PromptInput.tsx:46-48 | the prompt becomes empty; settings unchanged |
| PromptInput.PromptForm.ExampleClick | src/components/PromptInput.tsx:56-58 | the prompt becomes exactly the example; settings unchanged |
| PromptInput.PromptForm.SetDetailLevel | src/components/PromptInput.tsx:127-133 | only the detail level changes, and it stays within 0..100 |
| PromptInput.PromptForm.SetStylePreference | src/components/PromptInput.tsx:146 | only the style changes |
| PromptInput.PromptForm.SetColorScheme | src/components/PromptInput.tsx:164 | only the colour scheme changes |
| MockupDisplay.NextRotation | src/components/MockupDisplay.tsx:41-43 | the next rotation lies in 0..359 and a quarter turn stays a quarter turn |
| MockupDisplay.FourTurnsIdentity | src/components/MockupDisplay.tsx:41-43 | four rotations return to the starting rotation |
| MockupDisplay.Viewer.constructor | src/components/MockupDisplay.tsx:29-32 | rotation 0, not fullscreen, no error |
| MockupDisplay.Viewer.ReceiveProps | src/components/MockupDisplay.tsx:36-39 | the error is cleared exactly when the URL changes, so a new usable URL shows the image once loading is over |
| MockupDisplay.Viewer.Rotate | src/components/MockupDisplay.tsx:41-43 | rotation advances by a quarter turn modulo 360 and stays one of 0, 90, 180, 270 |
| MockupDisplay.Viewer.ImageFailed | src/components/MockupDisplay.tsx:104-107 | a load error sets the error flag and nothing else |
| MockupDisplay.Viewer.FullscreenChanged | src/components/MockupDisplay.tsx:109-116 | fullscreen follows the document's fullscreen element |
| MockupDisplay.Viewer.DownloadImage | src/components/MockupDisplay.tsx:53-64 | nothing without an image URL; otherwise a link to that URL named `3d-mockup-{now}.png`, and the toast "Image downloaded successfully" exactly then |
| MockupDisplay.Viewer.ShareImage | src/components/MockupDisplay.tsx:66-82 | nothing without an image URL; otherwise the share sheet with title, prompt and URL, or the URL to the clipboard |
| MockupDisplay.ControlsFollowImage | src/components/MockupDisplay.tsx:136-205 | the action bar shows exactly when the image does; rotate and fullscreen are disabled exactly when it does not |
| MockupDisplay.TitleNeverEmpty | src/components/MockupDisplay.tsx:133 | the toolbar heading is never empty: the prompt when there is one, otherwise "Your 3D mockup will appear here" |
| MockupDisplay.PanelPrecedence | src/components/MockupDisplay.tsx:173-201 | loading first; the failure panel exactly after an error when not loading; the hint exactly with no URL and no error |
| Auth.TabAfterQuery | src/pages/Auth.tsx:20-28 | `mode` switches the tab only when it is exactly `signin` or `signup`, and then the tab equals it |
| Auth.SignUpAsksMore | src/pages/Auth.tsx:33-60 | whatever passes the sign-up check passes the sign-in check, but not the other way round |
| Auth.AuthPage.constructor | src/pages/Auth.tsx:12-18 | empty fields, not loading, the sign-in tab |
| Auth.AuthPage.ApplyModeQuery | src/pages/Auth.tsx:20-28 | the tab follows `mode` as above; nothing else changes |
| Auth.AuthPage.SelectTab | src/pages/Auth.tsx:101 | clicking a tab selects it |
| Auth.AuthPage.Edit | src/pages/Auth.tsx:116-189 | typing sets the three fields |
| Auth.AuthPage.Submit | src/pages/Auth.tsx:30-62 | an empty required field only adds "Please fill in all fields", with no loading and no navigation; otherwise loading starts and the request is awaited |
| Auth.AuthPage.Complete | src/pages/Auth.tsx:40-75 | after the delay: the success toast of the form, navigation to `/creator`, and loading ends |
| Auth.AuthPage.ForgotPassword | src/pages/Auth.tsx:127-131 | "Forgot password?" only adds the password-reset notice; fields, tab, loading and navigation are unchanged |
| Auth.AuthPage.GoHome | src/pages/Auth.tsx:84 | "Back to Home" navigates to `/` |

## Left out

- Networking and host plumbing are parameters: `serve`, `fetch`, `Deno.env` and the key in the
  URL (supabase/functions/generate-mockup/index.ts:2-5, 121-130). The upstream outcome is the
  `Upstream` input, already read as text and parsed as JSON.
- The JSON codec (`JSON.parse`, `JSON.stringify`) is not modelled. Response bodies are `Json`
  values with unordered members, so member order and formatting are not modelled.
- JSON numbers are integers. The fractional `temperature` and `topP` are fixed constants.
- Logging is left out (index.ts:37-43, 68, 106-118, 122, 132, 137, 165-212, 256). What the
  logging statements can throw is modelled, because it changes the response.
- The error message and stack the JavaScript runtime attaches to each exception are runtime text.
  They come in as the `raised` parameter.
- MockupHandler.Serve: the request body is typed. `prompt` and `referenceImage` are strings or
  absent, `settings` has optional integer and string members. A `null` prompt (rendered as
  `null` and sent back as `null`) and members of other JSON types are not modelled.
- MockupHandler.ExtractImage: `candidates.length > 0` on a `candidates` object whose `length` is
  a string or an array is taken as false; JavaScript would coerce it to a number.
- JsText.ToLower: only ASCII letters are lowered; `toLowerCase` also lowers other scripts.
- JsText.Prefix: positions count Unicode scalar values, where JavaScript counts UTF-16 code
  units. This differs only for characters outside the Basic Multilingual Plane. `EncodeUriComponent`
  and `Split` share this choice. One consequence is not modelled: when the 50-unit cut of an
  exception message (index.ts:264) splits a surrogate pair, `encodeURIComponent` throws a
  `URIError` inside the `catch`, and that request gets no answer from the handler.
- JsText.NatToDecimal: covers the integers the handler renders (HTTP statuses). The exponent
  form JavaScript uses from 10^21 on is not modelled.
- Gallery.SortImages: ties keep their original order (the sort is stable), but no separate
  lemma states this. Invalid dates (`NaN` timestamps) are not modelled; timestamps are integers.
- Simulated asynchrony is modelled only as far as its effect. The gallery's delayed fetch of
  the built-in mock images (src/pages/Gallery.tsx:11-48, 63-80) becomes `FinishLoading` with the
  fetched images as a parameter. The sign-in delay becomes the `Submit`/`Complete` pair. The
  `catch` branches after these delays are unreachable, because the delay never rejects; their
  toasts are not modelled. `Date` construction and month overflow are not modelled.
- The gallery's own download and share handlers (src/pages/Gallery.tsx:88-113) and its
  `handleSearch` (only `preventDefault`) are not modelled. They are browser plumbing, like the
  viewer's `handleCopyPrompt` and `toggleFullscreen`.
- Toasts raised when a share or clipboard promise settles are not modelled.
- Zoom (src/components/MockupDisplay.tsx:45-51, 148, 156) is floating-point arithmetic, so
  `scale` and the zoom buttons' enablement are not modelled.
- `Auth.AuthPage.Submit` and `Auth.AuthPage.Edit` require that no request is pending. The page
  guarantees this by disabling every input and submit button while loading.
- `PromptInput.PromptForm.SetDetailLevel` requires a level in 0..100. The slider only produces
  such values.
- Other files are not part of this model. `Index.tsx`, `Hero.tsx`, `Navbar.tsx` and
  `LoadingAnimation.tsx` only render. `ProtectedRoute.tsx` branches on an authentication context
  outside these files. `Creator.tsx` only simulates the call to the edge function.
