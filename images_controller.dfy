/**
 * The image endpoints' handlers: how multer's verdict and the file size
 * become a status, and which response each service outcome selects.  The
 * handlers that call a service are methods on the world; what they answer
 * is a function of the service's outcome.
 */
module ImagesController {
  import opened Wrappers
  import opened Json
  import opened Http
  import opened World
  import Upload
  import ImageService
  import ImageDto
  import KafkaService
  import ImageResize

  // ---------------------------------------------------------------------
  // handleFileUpload
  // ---------------------------------------------------------------------

  /** What multer hands the callback: a `MulterError` with its code, or the
      plain `Error` fileFilter rejected the file with. */
  datatype UploadError = MulterError(code: string, message: string) | FilterError(message: string)

  /** The callback either answers or passes the request on with `next()`. */
  datatype UploadVerdict = Respond(response: Response) | Next

  const LimitFileSize: string := "LIMIT_FILE_SIZE"
  const EmptyFileMessage: string := "File is empty"

  /** The 413 text, with the limit in megabytes. */
  function TooLargeMessage(): string
  {
    "File too large. Maximum size is " + NatText(Upload.MaxFileSize / (1024 * 1024)) + "MB"
  }

  lemma TooLargeText()
    ensures TooLargeMessage() == "File too large. Maximum size is 10MB"
  {
    assert Upload.MaxFileSize / (1024 * 1024) == 10;
    assert NatText(10) == NatText(1) + [DigitChar(0)] == "10";
  }

  /** handleUploadResult: the error kind decides 413, 400 or 415; with no
      error a file of at most MIN_FILE_SIZE bytes is refused as empty. */
  function HandleFileUpload(err: Option<UploadError>, fileSize: Option<int>): (v: UploadVerdict)
    ensures v == Next <==> err.None? && (fileSize.None? || fileSize.value > Upload.MinFileSize)
    ensures err.Some? && err.value.MulterError? ==>
              v == Respond(if err.value.code == LimitFileSize then Response(413, ErrorBody(TooLargeMessage()))
                           else Response(400, ErrorBody(err.value.message)))
    ensures err.Some? && err.value.FilterError? ==> v == Respond(Response(415, ErrorBody(err.value.message)))
    ensures err.None? && fileSize.Some? && fileSize.value <= Upload.MinFileSize ==>
              v == Respond(Response(400, ErrorBody(EmptyFileMessage)))
  {
    match err
    case Some(MulterError(code, message)) =>
      if code == LimitFileSize then Respond(Response(413, ErrorBody(TooLargeMessage())))
      else Respond(Response(400, ErrorBody(message)))
    case Some(FilterError(message)) => Respond(Response(415, ErrorBody(message)))
    case None =>
      if fileSize.Some? && fileSize.value <= Upload.MinFileSize then Respond(Response(400, ErrorBody(EmptyFileMessage)))
      else Next
  }

  /** What multer reports for one file: fileFilter runs on the name and
      mimetype first, then the size limit cuts off a file longer than
      MAX_FILE_SIZE bytes. */
  function MulterReport(file: ImageService.UploadedFile): (e: Option<UploadError>)
    ensures e.None? <==> Upload.FileFilter(file.originalName, file.mimetype).Ok? && file.size <= Upload.MaxFileSize
  {
    match Upload.FileFilter(file.originalName, file.mimetype)
    case Err(m) => Some(FilterError(m))
    case Ok(_) => if file.size > Upload.MaxFileSize then Some(MulterError(LimitFileSize, "File too large")) else None
  }

  /** A file reaches the upload handler exactly when fileFilter accepts it
      and it is longer than one byte and at most 10 MB; a filter rejection
      is 415 with the filter's message, an oversized file 413. */
  lemma AdmittedIff(file: ImageService.UploadedFile)
    ensures var v := HandleFileUpload(MulterReport(file), Some(file.size));
            && (v == Next <==> Upload.FileFilter(file.originalName, file.mimetype).Ok?
                               && 1 < file.size <= 10_485_760)
            && (Upload.FileFilter(file.originalName, file.mimetype).Err? ==>
                  v == Respond(Response(415, ErrorBody(Upload.FileFilter(file.originalName, file.mimetype).error))))
            && (Upload.FileFilter(file.originalName, file.mimetype).Ok? && file.size > Upload.MaxFileSize ==>
                  v.Respond? && v.response.status == 413)
  {
  }

  /** As written, a one-byte image is refused as empty. */
  lemma OneByteRejected(file: ImageService.UploadedFile)
    requires Upload.FileFilter(file.originalName, file.mimetype).Ok? && file.size == 1
    ensures HandleFileUpload(MulterReport(file), Some(file.size)) == Respond(Response(400, ErrorBody(EmptyFileMessage)))
  {
  }

  /** The size check with MIN_FILE_SIZE read as the smallest size allowed. */
  function HandleFileUploadCorrected(err: Option<UploadError>, fileSize: Option<int>): (v: UploadVerdict)
    ensures v == Next <==> err.None? && (fileSize.None? || fileSize.value >= Upload.MinFileSize)
    ensures err.Some? || fileSize.None? || fileSize.value != Upload.MinFileSize ==> v == HandleFileUpload(err, fileSize)
  {
    match err
    case Some(_) => HandleFileUpload(err, fileSize)
    case None =>
      if fileSize.Some? && fileSize.value < Upload.MinFileSize then Respond(Response(400, ErrorBody(EmptyFileMessage)))
      else Next
  }

  /** With the corrected check exactly the empty file is refused as empty,
      and every accepted file of 1 byte to 10 MB gets through. */
  lemma CorrectedAdmitsOneByte(file: ImageService.UploadedFile)
    ensures var v := HandleFileUploadCorrected(MulterReport(file), Some(file.size));
            && (v == Next <==> Upload.FileFilter(file.originalName, file.mimetype).Ok?
                               && Upload.MinFileSize <= file.size <= Upload.MaxFileSize)
            && (v == Respond(Response(400, ErrorBody(EmptyFileMessage))) <==>
                  MulterReport(file).None? && file.size < Upload.MinFileSize)
  {
    var v := HandleFileUploadCorrected(MulterReport(file), Some(file.size));
    if MulterReport(file).Some? {
      match MulterReport(file).value
      case MulterError(code, m) =>
        assert code == LimitFileSize;
        TooLargeText();
        assert ErrorBody(TooLargeMessage()) != ErrorBody(EmptyFileMessage) by {
          assert Get(ErrorBody(TooLargeMessage()), "error") == Some(JStr(TooLargeMessage()));
          assert |TooLargeMessage()| != |EmptyFileMessage|;
        }
      case FilterError(m) =>
    }
  }

  // ---------------------------------------------------------------------
  // uploadAndProcessImage
  // ---------------------------------------------------------------------

  const NoFileMessage: string := "No file uploaded"
  const UploadFailure: string := "Failed to upload and process image"

  /** `error instanceof Error ? error.message : String(error)`. */
  function ThrownText(e: Thrown): (r: string)
    ensures r == if e.Error? then e.message else e.text
  {
    match e
    case Error(_, message) => message
    case NonError(text, _) => text
  }

  function UploadResultJson(u: ImageService.UploadResult): Json
  {
    JObj([Member("uuid", JStr(u.uuid)), Member("filename", JStr(u.filename)),
          Member("status", JStr(u.status)), Member("message", JStr(u.message))])
  }

  /** 200 `{data: result}` on success, 500 with the error text otherwise. */
  function UploadResponse(r: Result<ImageService.UploadResult, Thrown>): (resp: Response)
    ensures resp.status == 200 <==> r.Ok?
    ensures r.Ok? ==> resp.body == DataBody(UploadResultJson(r.value))
    ensures r.Err? ==> resp.status == 500 && Get(resp.body, "details") == Some(JStr(ThrownText(r.error)))
  {
    match r
    case Ok(u) => Response(200, DataBody(UploadResultJson(u)))
    case Err(e) =>
      var ms := [Member("error", JStr(UploadFailure)), Member("details", JStr(ThrownText(e)))];
      assert ms[..1] == [ms[0]];
      Response(500, JObj(ms))
  }

  /** The handler: no file is 400 before the service is called. */
  method UploadAndProcessImage(w: World, file: Option<ImageService.UploadedFile>, description: Option<string>,
                               newUuid: string, putError: Option<Thrown>, script: nat -> KafkaService.Attempt, now: int)
    returns (resp: Response)
    requires ImageResize.SharedSchemas.IsUuid(newUuid)
    modifies w
    ensures file.None? ==> resp == Response(400, ErrorBody(NoFileMessage)) && w.Snapshot() == old(w.Snapshot())
    ensures file.Some? ==>
              var st := ImageService.UploadStep(old(w.Snapshot()), file.value, description, newUuid, putError, script, now);
              w.Snapshot() == st.state && resp == UploadResponse(st.out)
  {
    if file.None? {
      return Response(400, ErrorBody(NoFileMessage));
    }
    var r := ImageService.UploadAndProcessImage(w, file.value, description, newUuid, putError, script, now);
    resp := UploadResponse(r);
  }

  /** The upload answers 200 exactly when the bytes were stored, the task
      was published and the fresh uuid was not taken; the answer then names
      the fresh uuid and "pending". */
  lemma UploadAnswers(s: State, file: ImageService.UploadedFile, description: Option<string>, newUuid: string,
                      putError: Option<Thrown>, script: nat -> KafkaService.Attempt, now: int)
    ensures var st := ImageService.UploadStep(s, file, description, newUuid, putError, script, now);
            && (UploadResponse(st.out).status == 200 <==>
                  putError.None? && KafkaService.SendJob(newUuid, script).result.Ok? && IndexOf(s.records, newUuid).None?)
            && (UploadResponse(st.out).status == 200 ==>
                  st.out.value == ImageService.UploadResult(newUuid, file.originalName, PendingStatus, ImageService.UploadMessage))
  {
    if putError.None? {
      var s1 := s.(uploads := s.uploads[newUuid := file.buffer]);
      ImageService.CreateTaskOutcome(s1, ImageDto.ImageDto(newUuid, file.originalName, description), script, now);
    }
  }

  // ---------------------------------------------------------------------
  // getImagebyId
  // ---------------------------------------------------------------------

  const ImageNotFoundMessage: string := "Image not found"
  const GetImageFailure: string := "Failed to get image"

  /** The row as the response carries it, times in milliseconds, with
      `imageData` last when there is one. */
  function ViewJson(v: ImageService.ImageView): (r: Json)
    ensures r.JObj? && |r.members| == 7 + (if v.imageData.Some? then 1 else 0)
    ensures v.imageData.Some? ==> Get(r, "imageData") == Some(JStr(v.imageData.value))
  {
    var rec := v.record;
    var base := [Member("uuid", JStr(rec.uuid)), Member("filename", JStr(rec.filename)),
                 Member("description", if rec.description.Some? then JStr(rec.description.value) else JNull),
                 Member("status", JStr(rec.status)), Member("createdAt", JNum(rec.createdAt)),
                 Member("completedAt", JNum(rec.completedAt)),
                 Member("collectionId", if rec.collectionId.Some? then JStr(rec.collectionId.value) else JNull)];
    if v.imageData.Some? then JObj(base + [Member("imageData", JStr(v.imageData.value))]) else JObj(base)
  }

  /** 404 for null, 200 with the row, 500 when the service throws. */
  function ImageByIdResponse(r: Result<Option<ImageService.ImageView>, Thrown>): (resp: Response)
    ensures resp.status == 404 <==> r == Ok(None)
    ensures resp.status == 200 <==> r.Ok? && r.value.Some?
    ensures resp.status == 500 <==> r.Err?
    ensures r.Ok? && r.value.Some? ==> resp.body == ViewJson(r.value.value)
  {
    match r
    case Ok(None) => Response(404, ErrorBody(ImageNotFoundMessage))
    case Ok(Some(v)) => Response(200, ViewJson(v))
    case Err(_) => Response(500, ErrorBody(GetImageFailure))
  }

  method GetImagebyId(w: World, uuid: string, chunkSize: ImageResize.ChunkSize) returns (resp: Response)
    ensures resp == ImageByIdResponse(Ok(ImageService.ImageById(w.Snapshot(), uuid)))
  {
    var image := ImageService.GetImageById(w, uuid, chunkSize);
    resp := ImageByIdResponse(Ok(image));
  }

  /** An unknown uuid is 404; a known one is 200 with its row. */
  lemma ImageByIdAnswers(s: State, uuid: string)
    ensures var resp := ImageByIdResponse(Ok(ImageService.ImageById(s, uuid)));
            && (resp.status == 404 <==> forall i :: 0 <= i < |s.records| ==> s.records[i].uuid != uuid)
            && (resp.status == 200 ==> resp.body == ViewJson(ImageService.ImageById(s, uuid).value)
                                       && ImageService.ImageById(s, uuid).value.record.uuid == uuid)
  {
  }

  // ---------------------------------------------------------------------
  // deleteImage
  // ---------------------------------------------------------------------

  const ImageDeleted: string := "Image deleted"
  const DeleteFailure: string := "Failed to delete image"

  function DeleteResponse(r: Result<ImageRecord, Thrown>): (resp: Response)
    ensures r.Ok? <==> resp == Response(200, MessageBody(ImageDeleted))
    ensures r.Err? <==> resp == Response(500, ErrorBody(DeleteFailure))
  {
    if r.Ok? then Response(200, MessageBody(ImageDeleted)) else Response(500, ErrorBody(DeleteFailure))
  }

  method DeleteImage(w: World, uuid: string, removeError: Option<Thrown>) returns (resp: Response)
    modifies w
    ensures var st := ImageService.DeleteStep(old(w.Snapshot()), uuid, removeError);
            w.Snapshot() == st.state && resp == DeleteResponse(st.out)
  {
    var r := ImageService.DeleteImageById(w, uuid, removeError);
    resp := DeleteResponse(r);
  }

  /** Deleting an unknown image is answered 500, never 404; a known one is
      200 whether or not the thumbnail could be removed. */
  lemma DeleteAnswers(s: State, uuid: string, removeError: Option<Thrown>)
    requires Valid(s)
    ensures DeleteResponse(ImageService.DeleteStep(s, uuid, removeError).out).status ==
              if forall i :: 0 <= i < |s.records| ==> s.records[i].uuid != uuid then 500 else 200
  {
    ImageService.DeleteOutcome(s, uuid, removeError);
  }

  // ---------------------------------------------------------------------
  // processImage
  // ---------------------------------------------------------------------

  const ProcessingStarted: string := "Processing started"
  const NotInStorage: string := "Image not found in storage, please upload before process"
  const InternalError: string := "Internal server error"
  const ImageNotFoundName: string := "ImageNotFoundError"

  function NotInStorageBody(): Json
  {
    JObj([Member("status", JStr("error")), Member("message", JStr(NotInStorage))])
  }

  /** The responses processImage writes, in order: the catch block writes
      404 for an `ImageNotFoundError` and then, with no return between,
      500 as well. */
  function ProcessWrites(r: Result<ImageRecord, Thrown>): (ws: seq<Response>)
    ensures r.Ok? ==> ws == [Response(200, MessageBody(ProcessingStarted))]
    ensures r.Err? ==> |ws| >= 1 && ws[|ws| - 1] == Response(500, MessageBody(InternalError))
    ensures |ws| == 2 <==> r.Err? && r.error.Error? && r.error.name == ImageNotFoundName
  {
    match r
    case Ok(_) => [Response(200, MessageBody(ProcessingStarted))]
    case Err(e) =>
      (if e.Error? && e.name == ImageNotFoundName then [Response(404, NotInStorageBody())] else [])
      + [Response(500, MessageBody(InternalError))]
  }

  /** The catch block with a return after the 404: one response per
      request, 404 for a missing upload and 500 for any other failure. */
  function ProcessWritesCorrected(r: Result<ImageRecord, Thrown>): (ws: seq<Response>)
    ensures |ws| == 1 && ws[0] == ProcessWrites(r)[0]
    ensures r.Ok? ==> ws == [Response(200, MessageBody(ProcessingStarted))]
    ensures r.Err? && r.error.Error? && r.error.name == ImageNotFoundName ==> ws == [Response(404, NotInStorageBody())]
    ensures r.Err? && !(r.error.Error? && r.error.name == ImageNotFoundName) ==> ws == [Response(500, MessageBody(InternalError))]
  {
    [ProcessWrites(r)[0]]
  }

  method ProcessImage(w: World, dto: ImageDto.ImageDto, script: nat -> KafkaService.Attempt, now: int)
    returns (writes: seq<Response>)
    modifies w
    ensures var st := ImageService.CreateTaskStep(old(w.Snapshot()), dto, script, now);
            w.Snapshot() == st.state && writes == ProcessWrites(st.out)
  {
    var r := ImageService.CreateProcessingTask(w, dto, script, now);
    writes := [];
    if r.Ok? {
      writes := writes + [Response(200, MessageBody(ProcessingStarted))];
    } else {
      if r.error.Error? && r.error.name == ImageNotFoundName {
        writes := writes + [Response(404, NotInStorageBody())];
      }
      writes := writes + [Response(500, MessageBody(InternalError))];
    }
  }

  /** The double write is reachable: when every send attempt fails with an
      error named ImageNotFoundError, createProcessingTask rethrows it and
      the handler writes 404 and then 500 on the same response. */
  lemma DoubleWrite(dto: ImageDto.ImageDto, script: nat -> KafkaService.Attempt, now: int, s: State, m: string)
    requires forall k :: 0 <= k < KafkaService.MaxAttempts ==>
               script(k).outcome == KafkaService.SendFailed(Error(ImageNotFoundName, m))
    ensures ProcessWrites(ImageService.CreateTaskStep(s, dto, script, now).out) ==
              [Response(404, NotInStorageBody()), Response(500, MessageBody(InternalError))]
  {
    KafkaService.SendJobGivesUp(dto.uuid, script);
  }
}
