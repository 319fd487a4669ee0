# GriotFlow client core in Dafny

GriotFlow is a thin web client for a generative-AI service. A user gives a
video title and/or a thumbnail, or a channel name. The client sends a
prompt to the remote model and shows the JSON report it returns. All
scoring happens remotely. This project models the local logic around that
call:

- **Request states** (`app.dfy`, class `Application.App`). The content
  handler and the channel handler each drive an `{isLoading, result, error}`
  record. Each asynchronous handler is split into a start step and a
  completion step. The completion step takes an abstract
  `Success(r) | Failure(msg)` outcome. `HandleAnalyzeContent` and
  `HandleAnalyzeChannel` run both steps around the analysis client, with no
  other event in between. The class invariant `Valid()` says a loading
  state never holds a result. Every method keeps it.
- **Request shaping** (`geminiservice.dfy`). This covers the credential
  check, the ordered `parts` list with the optional inline image first, and
  the data-URL payload split. It also covers the fixed `image/png` type, the
  exact prompt texts, and the handling of an empty reply. The remote call and
  `JSON.parse` are one input, a `Reply`: either the call raised an error, or
  it responded with an optional text body and what parsing that body gives.
  The result records themselves are in `types.dfy`.
- **JavaScript string semantics** (`jsstrings.dfy`). This is `split` on one
  character, proved to round-trip with `join` in both directions. It also
  gives `startsWith`, `includes` and string truthiness.
- **Score gauge** (`scoregauge.dfy`). This is the three-band fill colour
  with thresholds 90 and 60, the single chart entry, and the mapping from
  size to dimensions.
- **Thumbnail picker** (`thumbnail.dfy`, class `Thumbnail.ThumbnailUpload`).
  This is the `image/` guard, the first-file selection for a pick or a drop,
  and clearing.

Scores are JavaScript numbers that are only compared with constants, so
they are modelled as `int`.

Three behaviours of the code are easy to misread, and the model keeps them:
- With neither title nor image, the content handler only sets `error`. It
  keeps the previous `isLoading` and `result`. So a state can hold a result
  and the validation error at once (`StartAnalyzeContent`).
- The two missing-key errors carry different messages:
  "API Key is missing. Please check your environment configuration." for
  content and "API Key is missing." for channels.
- A channel failure stores the error message with no fallback text. A
  content failure with an empty message stores "Analysis failed.".

## Model

| member | source | states |
|---|---|---|
| `JsStrings.Split` | services/geminiService.ts:25 | `split` always yields at least one field, and no field contains the separator |
| `JsStrings.JoinSplit` | services/geminiService.ts:25 | joining the fields of a split with the separator gives back the original string |
| `JsStrings.SplitJoin` | services/geminiService.ts:25 | splitting a join of separator-free fields gives back exactly those fields |
| `JsStrings.SplitAfterPlain` | services/geminiService.ts:25 | a separator-free prefix becomes part of the first field of the split |
| `JsStrings.OccursBetween` | services/geminiService.ts:74-79 | a string placed between two others occurs in the result at the end of the first |
| `GeminiService.HasKey` | services/geminiService.ts:18 | an absent key and an empty key both count as missing; any non-empty key is present |
| `GeminiService.Payload` | services/geminiService.ts:25 | the payload is either the whole input, or a non-empty, comma-free field of an input that has a comma |
| `GeminiService.PayloadOfDataUrl` | services/geminiService.ts:25 | for `head,data[,...]`, the payload is `data` when it is non-empty, otherwise the whole input |
| `GeminiService.PayloadWithoutComma` | services/geminiService.ts:25 | an input with no comma is its own payload |
| `GeminiService.ContentPrompt` | services/geminiService.ts:34-40 | the content prompt opens with the fixed text, then holds the title as written (or "(No title provided)" when it is empty), and ends with the thumbnail line and the fixed advice sentence |
| `GeminiService.ContentPromptReadBack` | services/geminiService.ts:34-40 | from the content prompt one can read back the title as written, or "(No title provided)" when it is empty, and whether "Thumbnail: (Attached Image)." or "Thumbnail: (No thumbnail provided)." was used |
| `GeminiService.ChannelPrompt` | services/geminiService.ts:73-80 | the channel prompt opens with the fixed text immediately followed by the channel name as given |
| `GeminiService.ChannelPromptReadBack` | services/geminiService.ts:73-80 | the channel prompt holds the channel name as given, between fixed text, and it can be read back |
| `GeminiService.ChannelPromptEmbedsExamples` | services/geminiService.ts:77 | every channel prompt contains the viral-template examples block |
| `GeminiService.ContentParts` | services/geminiService.ts:22-40 | a truthy image gives exactly [inline image with type "image/png" and the payload, text part]; a null or empty image gives exactly [text part]; the prompt announces the image in the first case only |
| `GeminiService.Settle` | services/geminiService.ts:53-61 | an error raised by the call is rethrown unchanged; an empty or absent body gives "No data returned from Gemini."; otherwise the parse result is returned unchanged, error or not |
| `GeminiService.AnalyzeContent` | services/geminiService.ts:14-62 | a missing or empty key fails with the content key message and sends nothing; otherwise it sends one request on the content contract, with the `parts` above, model "gemini-2.5-flash" and JSON output; the outcome is the settled reply, with no retry |
| `GeminiService.AnalyzeChannel` | services/geminiService.ts:64-98 | a missing or empty key fails with "API Key is missing." and sends nothing; otherwise it sends a single text part holding the channel prompt on the channel contract; the outcome is the settled reply |
| `ScoreGauge.Fill` | components/ScoreGauge.tsx:12 | green exactly when score >= 90, orange exactly when 60 <= score < 90, red exactly when score < 60 |
| `ScoreGauge.FillMonotone` | components/ScoreGauge.tsx:12 | a higher score never gets a lower band |
| `ScoreGauge.SizeOrDefault` | components/ScoreGauge.tsx:10 | an omitted size is 'sm', a given size is kept |
| `ScoreGauge.ChartData` | components/ScoreGauge.tsx:13 | the chart data is one entry named "score" whose value is the score and whose fill is the band colour |
| `ScoreGauge.GaugeLayout` | components/ScoreGauge.tsx:15-26 | 'lg' gives chart size 180, bar size 15 and text-5xl; anything else gives 100, 8 and text-2xl; the centre is half the chart size on both axes |
| `Thumbnail.IsImageType` | components/ThumbnailUpload.tsx:29 | a media type passes the guard exactly when it begins with "image/" |
| `Thumbnail.FirstFile` | components/ThumbnailUpload.tsx:13 | there is a file exactly when the list is present and non-empty, and it is the first one |
| `Thumbnail.ThumbnailUpload.ProcessFile` | components/ThumbnailUpload.tsx:28-41 | a file whose type does not start with "image/" leaves the image unchanged; any other sets it to that file, its preview URL and the reader's data URL |
| `Thumbnail.ThumbnailUpload.HandleFileChange` | components/ThumbnailUpload.tsx:12-17 | no file leaves the image unchanged; otherwise only the first selected file goes through the `processFile` rule |
| `Thumbnail.ThumbnailUpload.HandleDrop` | components/ThumbnailUpload.tsx:19-26 | a drop follows the same rule on the first dropped file |
| `Thumbnail.ThumbnailUpload.ClearImage` | components/ThumbnailUpload.tsx:43-47 | the image becomes null, and a mounted file input's value becomes "" |
| `Application.App.constructor` | App.tsx:10-23 | the initial state: optimizer tab, empty title and channel name, no image, and both request states idle |
| `Application.App.EditTitle` | App.tsx:117 | the title input sets the held title |
| `Application.App.ChangeImage` | App.tsx:124 | the picker's callback sets the held image |
| `Application.App.EditChannelName` | App.tsx:178 | the channel input sets the held channel name |
| `Application.App.SelectTab` | App.tsx:70 | a tab button sets the active tab |
| `Application.App.OptimizeIdea` | App.tsx:272-275 | "Optimize This Idea" copies the idea's title into the title input and switches to the optimizer tab |
| `Application.App.StartAnalyzeContent` | App.tsx:25-30 | with empty title and no image, only `error` becomes the validation message, and no call is made; otherwise the state becomes {loading, no result, no error} and the call gets the title and the image's data URL; only `analysis` changes; `Valid()` is kept |
| `Application.App.CompleteAnalyzeContent` | App.tsx:31-36 | success gives {false, r, null}; failure gives {false, null, msg}, with "Analysis failed." when msg is empty; only `analysis` changes |
| `Application.App.StartAnalyzeChannel` | App.tsx:39-46 | the target is a non-empty override, else the held name; an empty target changes nothing and makes no call; an override is written into the held name; otherwise the state becomes loading with nothing stale; `analysis`, `title` and `image` are untouched |
| `Application.App.CompleteAnalyzeChannel` | App.tsx:47-52 | success gives {false, r, null}; failure gives {false, null, err.message} with no fallback |
| `Application.App.HandleAnalyzeContent` | App.tsx:25-37 | the whole content handler on a given key and reply: the validation error with no request; the missing-key error with no request; otherwise exactly the content request built from the held title and image (model, JSON output, image part first only for a non-empty data URL), then a raised or parse error message (or "Analysis failed."), the no-data error, or the parsed result |
| `Application.App.HandleAnalyzeChannel` | App.tsx:39-53 | the whole channel handler: a no-op for an empty target; the missing-key error with no request; otherwise exactly the channel request for the held name, then that reply's error message or result |

## Left out

- The remote model client, `generateContent` and the network are not
  modelled. The reply is an input. The text of the system instructions and
  output schemas in constants.ts is not modelled either. A request records
  only which of the two contracts it is bound to. The viral-template
  examples block, which the channel prompt embeds, is reproduced in full.
- `JSON.parse` and conformance to the output schema are not modelled. What
  parsing gives is part of the reply.
- Concurrency is not modelled. Two in-flight calls can interleave, calls
  cannot be cancelled, and the last write wins. Here each start step and
  completion step is a separate sequential call, and the combined handlers
  assume nothing happens in between.
- Browser I/O is not modelled. `FileReader`, `URL.createObjectURL` and the
  file input element are outside the model. The reader's data URL and the
  preview URL are parameters of `ProcessFile`, and the reader's
  asynchronous `onload` is taken as done at once. Whether the input ref is
  set is a field.
- `console.error` logging, `window.scrollTo`, `preventDefault` and
  `stopPropagation` are side effects with no state. The layout, styling
  and chart rendering are presentation. The `overallScore >= 80` badge
  colour in components/AnalysisResults.tsx is presentation too.
- A thrown value with no `message` property is not modelled. A failure
  here always carries a string message. So the content handler's
  "Analysis failed." fallback is reached only through an empty message.
