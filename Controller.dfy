/** The two request handlers of the thumbnail controller: generation, which
    creates a pending record, composes the prompt, calls the image model,
    publishes the image and settles the record; and owner-scoped delete.
    The image model, base64 decoding, the local file write with the upload,
    and the removal of the local file are the outcomes in `Services`. */
module ThumbnailController {
  import opened JsValues
  import opened Prompts
  import opened ImageParts
  import opened Thumbnails

  /** The JSON body of a generation request. */
  datatype RequestBody = RequestBody(
    title: Field,
    prompt: Field,
    style: Field,
    aspectRatio: Field,
    colorScheme: Field,
    textOverlay: Option<bool>)

  /** What the image model call yields: it throws, or it answers with
      `candidates[0].content.parts`, absent when any link of that path is missing. */
  datatype GeminiOutcome = GeminiThrew(message: string) | GeminiReturned(parts: Option<seq<Part>>)

  /** Writing the buffer to a local file and uploading it: a throw, or the secure URL. */
  datatype PublishOutcome = PublishThrew(message: string) | Published(secureUrl: string)

  /** The external collaborators, as the outcomes they produce. */
  datatype Services = Services(
    generate: string -> GeminiOutcome,
    decode: string -> Bytes,
    publish: Bytes -> PublishOutcome,
    cleanupError: Option<string>)

  /** Status 200 with a message (and, for generation, the record), or status 500 with the error's message. */
  datatype HttpResponse = Ok(message: string, thumbnail: Option<Thumbnail>) | ServerError(message: string)

  const NoContentMessage: string := "Gemini returned no content parts"
  const NoImageMessage: string := "Gemini did not return image data"
  const GeneratedMessage: string := "Thumbnail generated successfully"
  const DeletedMessage: string := "Thumbnail deleted successfully"

  /** The document `Thumbnail.create` is given: the free text goes into both
      prompt fields, and the record starts out generating with no URL. */
  function NewRecord(id: Id, userId: UserId, body: RequestBody): Thumbnail {
    Thumbnail(id, userId, body.title, body.prompt, body.prompt, body.style,
              body.aspectRatio, body.colorScheme, body.textOverlay, true, None)
  }

  function PromptFor(body: RequestBody): string {
    Prompt(Descriptions, body.title, body.prompt, body.style, body.aspectRatio, body.colorScheme)
  }

  /** Where a generation request ends: the status its record is left in and
      the message of the error the handler answers with, if any. */
  datatype Run = Run(status: Status, error: Option<string>)

  /** Reference definition of the handler's paths once the model has
      answered with `response`, by the outcomes of the later external steps. */
  function Outcome(response: GeminiOutcome, svc: Services): Run {
    match response
    case GeminiThrew(message) => Run(Pending, Some(message))
    case GeminiReturned(None) => Run(Pending, Some(NoContentMessage))
    case GeminiReturned(Some(parts)) =>
      match FirstImageData(parts, svc.decode)
      case None => Run(Failed, Some(NoImageMessage))
      case Some(buffer) =>
        match svc.publish(buffer)
        case PublishThrew(message) => Run(Pending, Some(message))
        case Published(url) => Run(Succeeded(url), svc.cleanupError)
  }

  /** The run of a whole request: the model is asked with the composed prompt. */
  function Simulate(body: RequestBody, svc: Services): Run {
    Outcome(svc.generate(PromptFor(body)), svc)
  }

  function Respond(run: Run, saved: Thumbnail): HttpResponse {
    if run.error.Some? then ServerError(run.error.value) else Ok(GeneratedMessage, Some(saved))
  }

  /** `generateThumbnail`: exactly one new record, owned by the caller and
      holding the body's fields, created before the model is called and
      settled as `Simulate` says; no other record changes; the answer is
      `Respond` on that record. */
  method GenerateThumbnail(store: ThumbnailStore, userId: UserId, body: RequestBody, svc: Services)
    returns (resp: HttpResponse)
    requires store.Valid()
    modifies store
    ensures store.Valid()
    ensures var id := old(store.nextId);
      id !in old(store.records) &&
      store.records == old(store.records)[id := Settle(NewRecord(id, userId, body), Simulate(body, svc).status)]
    ensures resp == Respond(Simulate(body, svc), store.records[old(store.nextId)])
  {
    var thumbnail := store.Create(NewRecord(0, userId, body));
    assert thumbnail == NewRecord(thumbnail.id, userId, body);

    var prompt := ComposePrompt(Descriptions, body.title, body.prompt, body.style, body.aspectRatio, body.colorScheme);

    var response := svc.generate(prompt);
    assert Simulate(body, svc) == Outcome(response, svc);
    resp := FinishGeneration(store, thumbnail, response, svc);
  }

  /** The handler's steps once the model has answered: find the image data,
      settle the pending record on the paths that save it, publish, remove
      the local file, and answer. Only the record `thumbnail` changes. */
  method FinishGeneration(store: ThumbnailStore, thumbnail: Thumbnail, response: GeminiOutcome, svc: Services)
    returns (resp: HttpResponse)
    requires store.Valid() && thumbnail.id in store.records && store.records[thumbnail.id] == thumbnail
    requires StatusOf(thumbnail) == Pending && thumbnail.imageUrl.None?
    modifies store
    ensures store.Valid() && store.nextId == old(store.nextId)
    ensures store.records == old(store.records)[thumbnail.id := Settle(thumbnail, Outcome(response, svc).status)]
    ensures resp == Respond(Outcome(response, svc), store.records[thumbnail.id])
  {
    if response.GeminiThrew? {
      return ServerError(response.message);
    }
    if response.parts.None? {
      return ServerError(NoContentMessage);
    }
    var parts := response.parts.value;

    var finalBuffer := ScanParts(parts, svc.decode);
    if finalBuffer.None? {
      var failed := thumbnail.(isGenerating := false);
      store.Save(failed);
      return ServerError(NoImageMessage);
    }

    var upload := svc.publish(finalBuffer.value);
    if upload.PublishThrew? {
      return ServerError(upload.message);
    }

    var done := thumbnail.(imageUrl := Some(upload.secureUrl), isGenerating := false);
    store.Save(done);

    if svc.cleanupError.Some? {
      return ServerError(svc.cleanupError.value);
    }
    return Ok(GeneratedMessage, Some(done));
  }

  /** `deleteThumbnail`: removes the caller's record with that id, if there
      is one, and answers with the same message whether or not it did. */
  method DeleteThumbnail(store: ThumbnailStore, id: Id, userId: UserId) returns (resp: HttpResponse)
    requires store.Valid()
    modifies store
    ensures store.Valid()
    ensures store.records == DeleteOwned(old(store.records), id, userId)
    ensures resp == Ok(DeletedMessage, None)
  {
    var _ := store.FindOneAndDelete(id, userId);
    resp := Ok(DeletedMessage, None);
  }

  /** The only way a record ends Failed (flag cleared, no URL) is an answer
      with a parts list in which no part carries image data; the empty list
      is one such answer. */
  lemma FailedIff(response: GeminiOutcome, svc: Services)
    ensures Outcome(response, svc).status == Failed <==>
      response.GeminiReturned? && response.parts.Some? &&
      forall j :: 0 <= j < |response.parts.value| ==> !CarriesImage(response.parts.value[j])
  {
    if response.GeminiReturned? && response.parts.Some? {
      NoImageIff(response.parts.value, svc.decode);
    }
  }

  /** A record ends Succeeded with `url` exactly when some part carries image
      data and publishing the first such part's decoded data yields `url`. */
  lemma SucceededIff(response: GeminiOutcome, svc: Services, url: string)
    ensures Outcome(response, svc).status == Succeeded(url) <==>
      response.GeminiReturned? && response.parts.Some? &&
      exists i :: 0 <= i < |response.parts.value| && FirstCarrier(response.parts.value, i) &&
        svc.publish(svc.decode(Payload(response.parts.value[i]))) == Published(url)
  {
    if response.GeminiReturned? && response.parts.Some? {
      var parts := response.parts.value;
      NoImageIff(parts, svc.decode);
      if i :| 0 <= i < |parts| && FirstCarrier(parts, i) {
        FirstMatchWins(parts, svc.decode, i);
      } else if FirstImageData(parts, svc.decode).Some? {
        var j :| 0 <= j < |parts| && CarriesImage(parts[j]);
        var i := FirstCarrierExists(parts, j);
        assert false;
      }
    }
  }

  /** Every other outcome leaves the record Pending: the model call throws,
      the answer has no parts list, or publishing the image throws. */
  lemma PendingIff(response: GeminiOutcome, svc: Services)
    ensures Outcome(response, svc).status == Pending <==>
      response.GeminiThrew? || response.parts.None? ||
      (FirstImageData(response.parts.value, svc.decode).Some? &&
       svc.publish(FirstImageData(response.parts.value, svc.decode).value).PublishThrew?)
  {
  }

  /** The handler answers 200 exactly when the record Succeeded and the
      local file was removed; every other path answers 500, so no partial
      success is reported, though a Succeeded record can sit behind a 500. */
  lemma OkIffSucceeded(response: GeminiOutcome, svc: Services, saved: Thumbnail)
    ensures Respond(Outcome(response, svc), saved).Ok? <==>
      Outcome(response, svc).status.Succeeded? && svc.cleanupError.None?
    ensures Respond(Outcome(response, svc), saved).Ok? ==>
      Respond(Outcome(response, svc), saved) == Ok(GeneratedMessage, Some(saved))
  {
  }

  /** Only an absent parts list yields "Gemini returned no content parts",
      and it leaves the record Pending; an empty parts list is answered with
      "Gemini did not return image data" and leaves it Failed. */
  lemma NoPartsScenarios(svc: Services)
    ensures Outcome(GeminiReturned(None), svc) == Run(Pending, Some(NoContentMessage))
    ensures Outcome(GeminiReturned(Some([])), svc) == Run(Failed, Some(NoImageMessage))
  {
  }
}
