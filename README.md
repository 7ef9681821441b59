# rembg-gui, modelled in Dafny

rembg-gui is a small web application for removing image backgrounds. A
Flask backend (`app.py`) has two endpoints:

- `POST /api/remove-background` takes a multipart upload and answers with
  the cut-out as a PNG data URI;
- `POST /api/add-background` takes that data URI plus a solid color or a
  second image, and answers with the composited PNG.

A browser script (`static/js/script.js`) drives a single page with four
sections: upload, processing, result and error.

This project models the logic around the image libraries:

- `pystr.dfy` (`PyStr`) writes out the Python primitives the backend uses,
  with the semantics CPython gives them: `str.lstrip`, clamped slicing, character
  doubling, `split(',', 1)[1]`, `int(s, 16)` and the decimal text of a
  natural number.
- `color.dfy` (`Color`) is the `#RGB` / `#RRGGBB` parser. It runs the
  format check, strips every leading `#`, expands three digits to six and
  reads three two-character slices with `int(_, 16)`.
- `backend.dfy` (`Backend`) writes both endpoints as functions from a
  parsed request to a `Response` (an HTTP status and a JSON body). The
  image work (`rembg.remove`, base64, PIL) is a record of functions,
  `Imaging`, that the caller passes in. Each of those may raise, and a
  raised exception becomes the 500 answer of the handler's
  `except Exception`. Base64 output is a subset type over the alphabet of
  section 4 of RFC 4648. That alphabet has no comma, so the data URI
  splits back to its payload.
- `frontend.dfy` (`Frontend`) models the page script as a class, `Page`.
  Its fields are the script's three module-level variables and the DOM
  state the handlers change. Each handler is a method. Where the script
  waits on a `FileReader` or a `fetch`, the method takes the outcome as a
  parameter. Requests sent and files saved are appended to two log fields.
- `optional.dfy` holds the `Option` type.

Behaviours of the source that the model keeps on purpose:

- `lstrip('#')` removes every leading `#`. So `##ab` passes the format
  check but fails as "Invalid hex color value", and `##abcde` becomes
  (0xab, 0xcd, 0xe).
- The foreground is decoded before the background is looked at.
- A JSON `null` foreground, which the page sends before any image has
  been processed, gives a 500 answer: `',' in None` raises `TypeError`.
- An error raised inside the page's `reader.onload` callback escapes the
  handler's `try`. A failed upload therefore leaves the page on the
  processing section, with no error shown.
- "Start over" does not clear the final image's source, so that image can
  still be downloaded afterwards.
- The backend never answers an error with a 2xx status. The page
  therefore shows its generic "Failed to add background" text, never the
  backend's own message.

## Model

| member | source | states |
|---|---|---|
| PyStr.LStrip | app.py:83 | the result is a suffix of the input that does not start with the stripped character, and everything removed was that character |
| PyStr.Doubled | app.py:87 | the result is twice as long and character `i` is input character `i / 2` |
| PyStr.Slice | app.py:90 | Python slicing with both bounds clamped to the length: the result length and each character in terms of the input |
| PyStr.SplitTail | app.py:69 | the input is head + separator + result, and head holds no separator, so the result is the text after the first one |
| PyStr.SplitAfterFirst | app.py:69 | when the separator does not occur in `head`, `split(sep, 1)[1]` of `head + sep + tail` is `tail`, whatever `tail` holds |
| PyStr.DigitValue | app.py:90 | a hex digit's value is below 16 and follows its character range |
| PyStr.HexValue | app.py:90 | the value of `n` hex digits is below 16 to the power `n` |
| PyStr.DigitRun | app.py:90 | a digit run with single underscores yields hex digits no longer than the input; a plain non-empty hex string is accepted whole |
| PyStr.PyIntBase16 | app.py:89-92 | `int(s, 16)` never succeeds on empty text |
| PyStr.ControlCharactersNotSkipped | app.py:89-92 | the ASCII separators `\x1c`..`\x1f` are not skipped around the digits, as CPython skips only ASCII `\t`..`\r` and space (and non-ASCII white space), so `int('\x1c1', 16)` fails |
| PyStr.HexDigitsAreBare | app.py:90 | a non-empty run of hex digits is unchanged by whitespace trimming and by removal of the `0x` prefix |
| PyStr.PyIntOfHexDigits | app.py:90 | `int(s, 16)` of non-empty hex digits is their value |
| PyStr.PyIntShortRange | app.py:90 | a slice of at most two characters that parses lies in -15..255 |
| PyStr.Decimal | app.py:37 | the decimal text of a number is non-empty and made of digits |
| Backend.TooLargeText | app.py:37 | the size message is "File too large. Maximum size is 10MB" |
| Color.Expand | app.py:83-87 | after stripping, three characters are expanded to six, and any other length is kept as it is |
| Color.ParseColor | app.py:79-92 | the format error happens exactly when the text does not start with `#` or its length is not 4 or 7; components exist exactly when all three slices parse |
| Color.Components | app.py:90 | each component is `int(_, 16)` of slice [0:2], [2:4] or [4:6], and the result fails exactly when one of the slices fails |
| Color.ComponentsInRange | app.py:90 | every parsed component lies in -15..255 |
| Color.SliceParses | app.py:90 | a slice holding a non-empty run of hex digits parses to their value |
| Color.ComponentsOfSlices | app.py:90 | the three slices alone decide the components |
| Color.SlicesOfSix | app.py:90 | the slices [0:2], [2:4] and [4:6] of six characters are its three pairs |
| Color.SlicesOfFive | app.py:90 | of five characters, the slice [4:6] holds only the last one |
| Color.SingleDigit | app.py:90 | one hex digit is worth its digit value |
| Color.ComponentsOfHex | app.py:90 | six hex digits give the values of the three digit pairs |
| Color.PairsOfSix | app.py:90 | each pair of six hex digits is worth 16 times its first digit plus its second |
| Color.ParseOfComponents | app.py:79-90 | a well-formed color whose expanded text yields three components parses to exactly those |
| Color.ParseOfHex | app.py:79-90 | a well-formed color that expands to six hex digits parses to the values of its three pairs |
| Color.ExpandThree | app.py:86-87 | three characters left after stripping become six, each written twice in order |
| Color.ParseOfDoubled | app.py:83-90 | a well-formed color that strips to three hex digits reads each doubled digit as a pair |
| Color.ThreeDigitsDoubled | app.py:83-90 | a well-formed color that strips to three hex digits gives 17 times each digit |
| Color.PairDigits | app.py:90 | a digit pair is worth 16 times the first digit plus the second |
| Color.StripOneHash | app.py:83 | behind a single `#`, only that `#` is stripped |
| Color.ShortForm | app.py:83-90 | `#RGB` with hex digits gives 17 times each digit's value |
| Color.LongForm | app.py:83-90 | `#RRGGBB` with hex digits gives the values of the three digit pairs, 16 times the first plus the second, each at most 255 |
| Color.StripHashes | app.py:83 | `lstrip('#')` removes any number of leading `#` |
| Color.ShortRemainderIsBadHex | app.py:83-92 | a well-formed color that strips to fewer than five characters, other than three, is "Invalid hex color value" (`##ab`, `####`) |
| Color.ComponentsOfFive | app.py:90 | five hex digits give two pairs and a final single digit |
| Color.ParseOfFive | app.py:79-90 | a well-formed color that expands to five hex digits parses to two pairs and one single digit |
| Color.TwoHashesFiveDigits | app.py:83-90 | `##` and five hex digits parse as two pairs and one digit, so `##abcde` is (0xab, 0xcd, 0xe) |
| Color.FourHashesThreeDigits | app.py:79-90 | `####` and three hex digits passes the length-7 check and is expanded as `#RGB` |
| Backend.DataUriRoundTrip | app.py:48-51 | `data:image/png;base64,` + b64 contains a comma, and the text after its first comma is b64 |
| Backend.Succeed | app.py:48-51 | a success answer has status 200 and the image `data:image/png;base64,` followed by the encoded PNG, whose text after the first comma is that PNG again |
| Backend.RemoveBackground | app.py:20-54 | status 200 exactly when the image part exists, has a file name, is at most `MAX_FILE_SIZE` bytes and `remove` succeeds; the answer is then the image `data:image/png;base64,` followed by the encoding of the removed image; every other answer is an error with status 400 or 500; once the checks pass, a `remove` that raises gives a 500 carrying its message |
| Backend.RemoveBackgroundRejections | app.py:24-37 | each of the three 400 messages occurs exactly when its check is the first to fail |
| Backend.SizeLimitInclusive | app.py:13 | a file of exactly 10×1024×1024 bytes passes the size check |
| Backend.ChooseBackground | app.py:74-109 | the color is chosen exactly when it is truthy; the image is chosen exactly when the color is not truthy and the image is; each choice carries that member's own text |
| Backend.Composite | app.py:112-128 | status 200 exactly when building the background and compositing both succeed, and the image is then `data:image/png;base64,` followed by the encoded flattened PNG; otherwise 500 carrying the message of the exception that the background or the compositing step raised |
| Backend.AddBackground | app.py:56-128 | a 200 answer implies the foreground loaded and a truthy color or image was given, with a base64 payload after the first comma; every other answer is an error with status 400 or 500; a `null` foreground gives a 500 with the `TypeError` text, and a foreground that fails to load gives a 500 carrying the exception's message |
| Backend.AddBackgroundRejections | app.py:62-109 | each of the six 400 messages occurs exactly when its check, in source order, is the first to fail |
| Backend.ForegroundCheckedFirst | app.py:62-74 | while the foreground does not load, the background members do not affect the answer |
| Backend.ColorTakesPrecedence | app.py:74-96 | with a truthy color, the background image does not affect the answer |
| Backend.ColorComposites | app.py:74-94 | once the foreground has loaded, a color that parses to three components fills the background with them at alpha 255, and the answer is the composite onto it |
| Backend.ImageComposites | app.py:96-120 | once the foreground has loaded and no color is given, an image member with a comma is loaded from the text after its first comma (a failure is a 500), fitted to the foreground, and the foreground is composited over it |
| Backend.RemovedImageIsForeground | app.py:48-71 | the image `remove_background` returns passes the foreground checks of `add_background`, and the payload decoded is the encoded PNG |
| Frontend.AsField | static/js/script.js:183-186 | `JSON.stringify` sends `null` for a missing value and the string otherwise |
| Frontend.SectionNamed | static/js/script.js:286-299 | only the four section names select a section |
| Frontend.ReplyOf | static/js/script.js:136-148 | a reply is not OK exactly when the status is outside 200..299, and succeeds exactly when a 2xx body has `success` |
| Frontend.CompositingError | static/js/script.js:189-206 | no error exactly on success; a rejected request shows its own `error.message`; a non-OK response gives "Failed to add background"; a declined OK response gives `data.error`, or "Unknown error" |
| Frontend.BackendRepliesAreOkOrNotOk | static/js/script.js:189-191 | against the modelled backend the page sees only "not OK" or success, so it shows "Failed to add background" or nothing |
| Frontend.Page.constructor | static/js/script.js:1-4 | the page starts with nothing stored, the upload section shown, no final image and the color tab active |
| Frontend.Page.ValidShowsOneSection | static/js/script.js:280-300 | a valid page shows exactly one of the four sections |
| Frontend.Page.ShowSection | static/js/script.js:280-300 | a known name leaves exactly that section visible, and any other name hides all four |
| Frontend.Page.ShowError | static/js/script.js:303-306 | the message is shown and only the error section is visible |
| Frontend.Page.ResetApp | static/js/script.js:309-318 | the three variables become null, the final result and preview are hidden, upload shows, and the final image keeps its source |
| Frontend.Page.SwitchTab | static/js/script.js:258-277 | exactly the buttons whose tab is the name are active; the color panel is active exactly for "color", otherwise the image panel |
| Frontend.Page.UpdateColorValue | static/js/script.js:253-255 | the label shows the picker's value |
| Frontend.Page.SelectPreset | static/js/script.js:61-67 | the picker and the label both take the preset's color |
| Frontend.Page.ProcessImage | static/js/script.js:116-155 | a read sets the original image and sends one upload of the file; only success stores the cut-out and shows the result; otherwise the page stays on processing with the cut-out and error text unchanged |
| Frontend.Page.HandleFileSelect | static/js/script.js:85-90 | with no file nothing changes; otherwise the first file is processed without a type check, with `ProcessImage`'s outcome: a read file becomes the original image and is posted, and only a successful reply replaces the cut-out |
| Frontend.Page.HandleDrop | static/js/script.js:105-113 | only a first file whose MIME type starts with `image/` is processed, with `ProcessImage`'s outcome on the original image, the request log and the cut-out; otherwise nothing changes |
| Frontend.Page.HandleBackgroundImageSelect | static/js/script.js:158-169 | a file that was read becomes the background and is previewed; otherwise nothing changes |
| Frontend.Page.FinishCompositing | static/js/script.js:189-206 | success sets the final image, unhides it and shows the result; any failure shows the compositing error and keeps the final image |
| Frontend.Page.ApplyColorBackground | static/js/script.js:172-208 | posts the current cut-out (or null) with the picker's color, then ends as `FinishCompositing`: success sets and shows the final image and keeps the error text, failure shows the error and keeps the final image and its visibility; the cut-out is unchanged |
| Frontend.Page.ApplyImageBackground | static/js/script.js:211-250 | without a background image it shows "Please select a background image first" and sends nothing; otherwise it posts the cut-out with the image and ends as `FinishCompositing`, keeping the error text on success and the final image and its visibility on failure |
| Frontend.Page.DownloadFinalImage | static/js/script.js:321-333 | with an empty final source it shows the error and saves nothing; otherwise it saves that source as `final-image.png` |
| Frontend.Page.DownloadTransparentImage | static/js/script.js:336-348 | without a cut-out it shows the error and saves nothing; otherwise it saves the cut-out as `transparent-background.png` |
| Frontend.StartOverThenDownload | static/js/script.js:309-333 | after "Start over", downloading still saves the earlier final image |
| Frontend.ApplyColorWithBackend | static/js/script.js:172-208 | against the modelled backend the page ends on the result, or on the error section with "Failed to add background" |
| Frontend.ProcessWithBackend | static/js/script.js:116-155 | an upload the backend refuses as too large leaves the page on processing, with the error text unchanged |

## Left out

- The image libraries (`rembg.remove`, base64 decoding, `Image.open`, `convert`, `new`, `resize`, `alpha_composite`, `save`) are parameters. LANCZOS resampling and pixel compositing are not modelled.
- Flask routing, CORS, `render_template`, `app.run` and the parsing of JSON and multipart bodies are not modelled. The handlers take the parsed request.
- JSON members that are neither a string nor null (numbers, lists) are not modelled.
- A request body that is not JSON, where `get_json` fails, is not modelled.
- `file.seek` and `file.tell` are not modelled. The file size is the length of the uploaded content.
- PyStr.PyIntBase16: rejects non-ASCII Unicode decimal digits, which CPython's `int` accepts with their decimal value. A color such as `#١٢٣` is therefore "Invalid hex color value" in the model but parses in the source.
- `index.html` is not part of this model. The initial page state (upload shown, color tab active, final image without a source) is assumed.
- `FileReader`, `fetch`, `FormData` and async timing are reduced to one step per handler with the outcome already resolved. Races between overlapping requests are not modelled.
- A response whose body is not JSON, or a success body without an `image` member, is not modelled.
- A browser resolves an `img` source into an absolute URL. The model stores the string as assigned.
- Clearing the file inputs' `value` in `resetApp` is not modelled, because no modelled handler reads it.
- The drag-over class, `scrollIntoView`, and the anchor created and clicked for a download are not modelled. A download is recorded as a file name and an address.
