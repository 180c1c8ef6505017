# Thumbnail generation controller, modelled in Dafny

This project models the core of the backend of a thumbnail-generation web
application: the controller that turns a signed-in user's request into an
AI-generated video thumbnail, and the owner-scoped delete beside it
(`backend/controller/ThumbnailController.ts`).

A generation request goes through four parts, and the model covers each one:

- **Record creation.** A `Thumbnail` document is created first. It holds the
  caller's `userId`, the body's fields, `isGenerating = true` and no
  `image_url`.
- **Prompt composition.** Two constant tables map a style name and a colour
  scheme name to descriptions. The prompt is a style clause, then an optional
  colour clause, then an optional "Additional details" clause, then a fixed
  aspect-ratio and quality clause.
- **Image extraction.** The image model's answer is a list of content parts.
  The handler keeps the base64-decoded inline data of the first part that
  carries any.
- **Publishing and settling.** The image is written to a local file and
  uploaded. The record is then saved as Succeeded (URL set, flag cleared) or
  Failed (flag cleared, no URL), or it is left Pending when the handler
  throws first.

Delete removes a record only when both its id and its owner match. It answers
with the same message either way.

Modules:

- `JsValues` (JsValues.dfy) covers the JavaScript behaviour the controller
  relies on. A body field is absent or a string, and it is truthy when present
  and non-empty. A template literal prints `undefined` as the text
  "undefined". Looking up a key that is not in an object literal gives
  `undefined`.
- `Prompts` (Prompts.dfy) holds the two tables, the prompt as a function, and
  `ComposePrompt`, which builds the prompt by successive appends as the source
  does. The lemmas state what the prompt looks like.
- `ImageParts` (ImageParts.dfy) holds the response parts. `FirstImageData` is
  the reference "first match" definition. `ScanParts` is the `for ... of`
  loop with its `break`, proved against that definition.
- `Thumbnails` (Thumbnails.dfy) holds the record, its status, the two in-place
  settle updates, owner-scoped deletion, and `ThumbnailStore`. That class is an
  in-memory collection with `create`, `save` and `findOneAndDelete`.
- `ThumbnailController` (Controller.dfy) holds the two handlers as methods over
  the store. `Outcome` is the reference definition of which end state and
  which answer each combination of external outcomes produces.

External collaborators are parameters, in the `Services` datatype:

- the image model call, a function from the prompt to "threw" or "answered
  with an optional parts list";
- base64 decoding, an uninterpreted function;
- the local file write plus the upload, a function from the bytes to "threw"
  or a secure URL;
- the removal of the local file, "succeeded" or "threw with a message".

Where the system's design description and the code disagree, the model
follows the code:

- Unknown style and colour keys are not rejected. The model prints them as
  "undefined", as the template literal does.
- The check at lines 95-98 (`!parts`) fails only for a *missing* parts list.
  An empty list is truthy in JavaScript, so it goes on to the "did not return
  image data" path and the record ends Failed.
- Not every failure settles the record. When the model call throws, when the
  parts list is missing, or when the write or upload throws, the record stays
  Pending (`isGenerating = true`) for good. `PendingIff` states exactly which
  outcomes do this.
- The colour clause depends on truthiness, not on presence. An empty
  `color_scheme` leaves it out.

## Model

| member | source | states |
|---|---|---|
| Prompts.ComposePrompt | backend/controller/ThumbnailController.ts:66-82 | The prompt built by successive appends is exactly the style clause, then the colour clause when the colour scheme is truthy, then the details clause when the free text is truthy, then the aspect clause, in that order, for any lookup tables. |
| Prompts.PromptFrame | backend/controller/ThumbnailController.ts:66-82 | Every prompt begins with `Create a <style description> thumbnail for "<title>". ` and ends with `Aspect ratio <ratio>. Make it bold, professional, high contrast, and designed to maximize click-through rate.` |
| Prompts.ColorClauseIff | backend/controller/ThumbnailController.ts:70-76 | Right after the style clause the prompt continues with "Use a " if and only if the colour scheme is truthy; in that case the whole `Use a <description> color scheme. ` clause follows. |
| Prompts.DetailsClauseIff | backend/controller/ThumbnailController.ts:78-82 | After the style and colour clauses the prompt continues with "Additional details: " if and only if the free text is truthy (then the whole details clause follows); otherwise the rest of the prompt is exactly the aspect clause. |
| Prompts.StyleDescriptionLookup | backend/controller/ThumbnailController.ts:8-19 | With the source's style table, a known style contributes its table description; an unknown or absent style contributes the text "undefined". |
| Prompts.ColorDescriptionLookup | backend/controller/ThumbnailController.ts:21-38 | With the source's colour table, a known scheme contributes its table description to the colour clause; any other scheme contributes "undefined". |
| Prompts.MinimalistScenario | backend/controller/ThumbnailController.ts:66-82 | "My Video", Minimalist, no colour scheme, no free text, 16:9: the prompt is the style clause carrying the Minimalist description followed directly by the aspect clause for "16:9". |
| ImageParts.ScanParts | backend/controller/ThumbnailController.ts:101-108 | The loop with `break` returns exactly the decoded data of the first part whose `inlineData.data` is truthy, or nothing. |
| ImageParts.NoImageIff | backend/controller/ThumbnailController.ts:101-108 | The scan finds nothing if and only if no part carries non-empty inline data. |
| ImageParts.FirstMatchWins | backend/controller/ThumbnailController.ts:103-107 | If part i is the first part carrying data, the result is the decoded data of part i: earlier parts are skipped. |
| ImageParts.LaterPartsIgnored | backend/controller/ThumbnailController.ts:103-107 | The result on `front + back` is the result on `front` whenever that found data, and the result on `back` otherwise: parts after the first match are never inspected. |
| Thumbnails.Settle | backend/controller/ThumbnailController.ts:110-132 | Settling a Pending record to a status yields a record in exactly that status (Succeeded sets the URL and clears the flag, Failed only clears the flag) and changes no other field. |
| Thumbnails.DeleteOwned | backend/controller/ThumbnailController.ts:153 | A record is removed exactly when both its id and its owner match; every other record, including one with that id and another owner, stays with its contents unchanged. |
| Thumbnails.ThumbnailStore.Create | backend/controller/ThumbnailController.ts:53-63 | The document is stored under a fresh id, unused before, and nothing else in the collection changes. |
| Thumbnails.ThumbnailStore.Save | backend/controller/ThumbnailController.ts:130-132 | The saved document replaces the stored one under its id; nothing else changes. |
| Thumbnails.ThumbnailStore.FindOneAndDelete | backend/controller/ThumbnailController.ts:153 | The collection becomes `DeleteOwned` of the old one, and the removed document, if any, is returned. |
| ThumbnailController.GenerateThumbnail | backend/controller/ThumbnailController.ts:40-145 | Exactly one new record is added under a fresh id. It is owned by the caller, holds the body's fields (the free text in both prompt fields) and is created before the model is called. It is settled to the status `Outcome` gives for the model's answer to the composed prompt. No other record changes, and the answer is the 200 or 500 that `Respond` gives on the saved record. |
| ThumbnailController.FinishGeneration | backend/controller/ThumbnailController.ts:95-140 | Once the model has answered, only the pending record changes; it is settled as `Outcome` says and the answer carries the record as saved. |
| ThumbnailController.DeleteThumbnail | backend/controller/ThumbnailController.ts:148-154 | The collection becomes `DeleteOwned` of the old one, and the answer is "Thumbnail deleted successfully" whether or not anything was removed. |
| ThumbnailController.FailedIff | backend/controller/ThumbnailController.ts:95-114 | A record ends Failed (flag cleared, no URL) if and only if the model answered with a parts list in which no part carries image data. |
| ThumbnailController.SucceededIff | backend/controller/ThumbnailController.ts:101-132 | A record ends Succeeded with `url` if and only if the model answered with parts, some part i is the first to carry data, and publishing the decoded data of part i yields `url`. |
| ThumbnailController.PendingIff | backend/controller/ThumbnailController.ts:95-127 | A record is left Pending (`isGenerating = true`) if and only if the model call threw, or the parts list was missing, or the first image was found but writing or uploading it threw. |
| ThumbnailController.OkIffSucceeded | backend/controller/ThumbnailController.ts:129-143 | The handler answers 200 "Thumbnail generated successfully" with the saved record if and only if the record Succeeded and the local file was removed; every other path answers 500. |
| ThumbnailController.NoPartsScenarios | backend/controller/ThumbnailController.ts:95-114 | A missing parts list answers "Gemini returned no content parts" and leaves the record Pending. An empty parts list answers "Gemini did not return image data" and leaves it Failed. |

## Left out

- The frontend polling page (`frontend/src/pages/Generate.tsx`), the server set-up (`backend/server.ts`) and the pricing table (`frontend/src/data/pricing.ts`): UI, timers and wiring with no controller logic. The `GET /thumbnail/:id` handler the poller calls is not part of this model.
- The image model call, the Cloudinary upload, `fs.mkdirSync`/`writeFileSync`/`unlinkSync` and the `Date.now()` file name are foreign I/O. They appear only as outcomes in `Services`. The local file itself is not modelled, so neither is the fact that it is left on disk when the upload throws, nor a file-name collision between two requests in the same millisecond.
- Base64 decoding (`Buffer.from(data, "base64")`) is an uninterpreted `decode` parameter, not an implementation of RFC 4648.
- Mongoose persistence is an in-memory map. The model leaves out the document schema (`backend/models/Thumbnail.js` is not part of this model), so it cannot say whether `create` rejects a body, and it treats `create` and `save` as always succeeding. It also leaves out ObjectId cast errors on a malformed `:id` in delete, and the async interleaving of concurrent requests.
- The session's `userId` is always a string. A request without a session is left to the authentication middleware, which is not part of this model.
- Body fields are absent or strings (`text_overlay` absent or a boolean). Other JSON values (numbers, objects, `null`) are not modelled, and neither are keys inherited from `Object.prototype` (such as `toString`) in the two table lookups.
- The path `response?.candidates?.[0]?.content?.parts` is collapsed into "a parts list or nothing". A `parts` value that is not an array, or a `null` element in it, would make the loop throw, and that case is not modelled.
- `console.error` logging of caught errors.
- ThumbnailController.GenerateThumbnail: the model answers with the record value as saved, not with the live Mongoose document object.
