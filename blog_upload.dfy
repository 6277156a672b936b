/**
 * The blog upload chain of utils/blogUplaod.js: an in-memory multer instance
 * with a MIME-only filter, its error middleware, and `processBlogImages`,
 * which re-encodes each image with a watermark and publishes it.
 */
module BlogUpload {
  import opened Wrappers
  import opened Strings
  import opened Upload

  // ---------------------------------------------------------------------------
  // Admission

  const OnlyImagesMessage: string := "Only image files are allowed (JPEG, PNG, WEBP, GIF)"

  /** The blog filter looks at the MIME type only. */
  function BlogFileFilter(file: IncomingFile): (r: Result<bool>)
    ensures r.Ok? <==> file.mimetype in AllowedTypes
    ensures r.Ok? ==> r.value
    ensures r.Err? ==> r.error == OnlyImagesMessage
  {
    if file.mimetype in AllowedTypes then Ok(true) else Err(OnlyImagesMessage)
  }

  /** The blog filter is weaker than the product filter: whatever the product
      filter admits the blog filter admits, and a file without an extension tells them apart. */
  lemma BlogFilterWeaker(file: IncomingFile)
    ensures FileFilter(file).Ok? ==> BlogFileFilter(file).Ok?
    ensures file.mimetype in AllowedTypes && ExtName(file.originalname) == "" ==>
              BlogFileFilter(file).Ok? && FileFilter(file).Err?
  {
    if ExtName(file.originalname) == "" { NoExtensionRefused(file); }
  }

  /** `upload.fields([{blogImage, 1}, {blogImages, 5}])` over `limits: { fileSize: 10MB }`: no file-count limit. */
  const BlogRouteLimits: Limits := Limits(map["blogImage" := 1, "blogImages" := 5], None, MaxFileSize)

  /** A blog batch that gets through has at most one main image and five additional ones. */
  lemma {:induction false} AdmittedBlogBatch(files: seq<IncomingFile>)
    requires Admission(files, BlogRouteLimits, BlogFileFilter).None?
    ensures CountField(files, "blogImage") <= 1 && CountField(files, "blogImages") <= 5
    ensures |files| <= 6
  {
    AdmittedFieldCounts(files, BlogRouteLimits, BlogFileFilter, "blogImage");
    AdmittedFieldCounts(files, BlogRouteLimits, BlogFileFilter, "blogImages");
    AdmittedFieldsOnly(files);
  }

  lemma {:induction false} AdmittedFieldsOnly(files: seq<IncomingFile>)
    requires Admission(files, BlogRouteLimits, BlogFileFilter).None?
    ensures |files| == CountField(files, "blogImage") + CountField(files, "blogImages")
    decreases |files|
  {
    if |files| > 0 {
      AdmittedFieldsOnly(files[..|files| - 1]);
    }
  }

  /** The reply of `handleMulterError`; `None` is `next()`. */
  function HandleMulterError(err: Option<UploadError>): (r: Option<ErrorReply>)
    ensures r.Some? <==> err.Some?
    ensures r.Some? ==> r.value.status == 400 && r.value.detail.None?
    ensures r.Some? && err.value.multer && err.value.code == Some("LIMIT_FILE_SIZE") ==>
              r.value.message == "File too large. Maximum size is 10MB"
    ensures r.Some? && !(err.value.multer && err.value.code == Some("LIMIT_FILE_SIZE")) ==>
              r.value.message == err.value.message
  {
    match err
    case None => None
    case Some(e) =>
      if e.multer && e.code == Some("LIMIT_FILE_SIZE") then Some(ErrorReply(400, "File too large. Maximum size is 10MB", None))
      else Some(ErrorReply(400, e.message, None))
  }

  /** A refused MIME type is answered 400 with the filter's own message. */
  lemma RefusedTypeReply(file: IncomingFile)
    requires file.mimetype !in AllowedTypes
    ensures HandleMulterError(Some(UploadError(false, None, BlogFileFilter(file).error)))
            == Some(ErrorReply(400, OnlyImagesMessage, None))
  {
  }

  // ---------------------------------------------------------------------------
  // Processing

  /** A file held in memory by multer. */
  datatype BlogFile = BlogFile(info: IncomingFile, buffer: Bytes)

  /** `req.files` of the blog route: each field present only when multer saw a file for it. */
  datatype BlogFiles = BlogFiles(blogImage: Option<seq<BlogFile>>, blogImages: Option<seq<BlogFile>>)

  /** The watermark text as written in the source: the UTF-8 bytes of `©` read as Latin-1. */
  const BlogWatermarkText: string := "Â© Rayan Saffron"

  /** `createWatermark()`: a 300x50 canvas. */
  const BlogWatermark: WatermarkSvg := WatermarkSvg(300, 50, BlogWatermarkText)

  /** The sharp chain for every blog image: width cap, watermark, JPEG. */
  datatype BlogPlan = BlogPlan(maxWidth: nat, withoutEnlargement: bool, watermark: WatermarkSvg, gravity: string, jpegQuality: nat)

  const BlogImagePlan: BlogPlan := BlogPlan(1200, true, BlogWatermark, "southeast", 85)

  const MainFolder: string := "rayan-saffron/blog"
  const AdditionalFolder: string := "rayan-saffron/blog/additional"

  /** The options of `upload_stream`. */
  datatype StreamOptions = StreamOptions(folder: string, resourceType: string)

  /** The two external stages: the sharp re-encoding and the streamed upload
      (which answers with the `secure_url`). */
  datatype BlogStages = BlogStages(
    optimize: (Bytes, BlogPlan) -> Result<Bytes>,
    publish: (Bytes, StreamOptions) -> Result<string>)

  /** One image: re-encode, then publish into `folder`. */
  function PublishOne(f: BlogFile, folder: string, st: BlogStages): (r: Result<string>)
    ensures r.Ok? <==> st.optimize(f.buffer, BlogImagePlan).Ok? &&
                       st.publish(st.optimize(f.buffer, BlogImagePlan).value, StreamOptions(folder, "image")).Ok?
  {
    var buffer :- st.optimize(f.buffer, BlogImagePlan);
    st.publish(buffer, StreamOptions(folder, "image"))
  }

  /** `{ url }` entries of `req.uploadedFiles.blogImages`. */
  datatype BlogImageUrl = BlogImageUrl(url: string)

  /** `req.uploadedFiles`. */
  datatype UploadedFiles = UploadedFiles(blogImage: Option<string>, blogImages: Option<seq<BlogImageUrl>>)

  const NoUploads: UploadedFiles := UploadedFiles(None, None)

  /** The additional images in order until the first failure: the entries
      pushed so far and, if one failed, its error. */
  datatype Progress = Progress(urls: seq<BlogImageUrl>, failure: Option<string>)

  function PublishAll(files: seq<BlogFile>, st: BlogStages): Progress
    decreases |files|
  {
    if |files| == 0 then Progress([], None)
    else
      var prev := PublishAll(files[..|files| - 1], st);
      if prev.failure.Some? then prev
      else match PublishOne(files[|files| - 1], AdditionalFolder, st)
        case Ok(u) => Progress(prev.urls + [BlogImageUrl(u)], None)
        case Err(e) => Progress(prev.urls, Some(e))
  }

  /** Without a failure every image is published, one entry per image in order;
      with one, the entries are exactly those of the images before the failing one. */
  lemma {:induction false} PublishAllSpec(files: seq<BlogFile>, st: BlogStages)
    ensures var p := PublishAll(files, st);
            && |p.urls| <= |files|
            && (forall i :: 0 <= i < |p.urls| ==>
                  PublishOne(files[i], AdditionalFolder, st).Ok? &&
                  p.urls[i] == BlogImageUrl(PublishOne(files[i], AdditionalFolder, st).value))
            && (p.failure.None? ==> |p.urls| == |files|)
            && (p.failure.Some? ==>
                  |p.urls| < |files| && PublishOne(files[|p.urls|], AdditionalFolder, st) == Err(p.failure.value))
    decreases |files|
  {
    if |files| > 0 {
      var before := files[..|files| - 1];
      PublishAllSpec(before, st);
      var prev := PublishAll(before, st);
      forall i | 0 <= i < |prev.urls| ensures files[i] == before[i] { }
    }
  }

  /** Once an image has failed, the later images change nothing. */
  lemma {:induction false} PublishAllStops(files: seq<BlogFile>, j: nat, st: BlogStages)
    requires j <= |files| && PublishAll(files[..j], st).failure.Some?
    ensures PublishAll(files, st) == PublishAll(files[..j], st)
    decreases |files| - j
  {
    if j < |files| {
      assert files[..j + 1][..j] == files[..j];
      PublishAllStops(files, j + 1, st);
    } else {
      assert files[..j] == files;
    }
  }

  /** What `processBlogImages` leaves behind: `next()` with the uploaded files,
      or `next(err)` with whatever it had recorded when the failure came. */
  datatype BlogOutcome = Next(uploaded: UploadedFiles) | NextError(error: string, partial: UploadedFiles)

  /** The processing specified on values. */
  function ProcessSpec(files: Option<BlogFiles>, st: BlogStages): BlogOutcome {
    if files.None? || (files.value.blogImage.None? && files.value.blogImages.None?) then Next(NoUploads)
    else
      var fs := files.value;
      var main: Result<Option<string>> :=
        if fs.blogImage.Some? && |fs.blogImage.value| > 0 then
          match PublishOne(fs.blogImage.value[0], MainFolder, st)
          case Ok(u) => Ok(Some(u))
          case Err(e) => Err(e)
        else Ok(None);
      match main
      case Err(e) => NextError(e, NoUploads)
      case Ok(m) =>
        if fs.blogImages.None? then Next(UploadedFiles(m, None))
        else
          var p := PublishAll(fs.blogImages.value, st);
          if p.failure.Some? then NextError(p.failure.value, UploadedFiles(m, Some(p.urls)))
          else Next(UploadedFiles(m, Some(p.urls)))
  }

  /** `processBlogImages`. */
  method ProcessBlogImages(files: Option<BlogFiles>, st: BlogStages) returns (outcome: BlogOutcome)
    ensures outcome == ProcessSpec(files, st)
  {
    if files.None? || (files.value.blogImage.None? && files.value.blogImages.None?) {
      return Next(NoUploads);
    }
    var fs := files.value;
    var uploaded := NoUploads;
    if fs.blogImage.Some? && |fs.blogImage.value| > 0 {
      var file := fs.blogImage.value[0];
      var optimized := st.optimize(file.buffer, BlogImagePlan);
      if optimized.Err? { return NextError(optimized.error, uploaded); }
      var published := st.publish(optimized.value, StreamOptions(MainFolder, "image"));
      if published.Err? { return NextError(published.error, uploaded); }
      uploaded := uploaded.(blogImage := Some(published.value));
    }
    if fs.blogImages.Some? {
      var images := fs.blogImages.value;
      var urls: seq<BlogImageUrl> := [];
      var i := 0;
      while i < |images|
        invariant 0 <= i <= |images|
        invariant PublishAll(images[..i], st) == Progress(urls, None)
      {
        assert images[..i + 1][..i] == images[..i];
        var file := images[i];
        var optimized := st.optimize(file.buffer, BlogImagePlan);
        if optimized.Err? {
          PublishAllStops(images, i + 1, st);
          return NextError(optimized.error, uploaded.(blogImages := Some(urls)));
        }
        var published := st.publish(optimized.value, StreamOptions(AdditionalFolder, "image"));
        if published.Err? {
          PublishAllStops(images, i + 1, st);
          return NextError(published.error, uploaded.(blogImages := Some(urls)));
        }
        urls := urls + [BlogImageUrl(published.value)];
        i := i + 1;
      }
      assert images[..i] == images;
      uploaded := uploaded.(blogImages := Some(urls));
    }
    return Next(uploaded);
  }

  /** A successful run publishes the main image (when one was sent) into the
      blog folder and every additional image, in order, into the additional folder. */
  lemma ProcessedAll(files: BlogFiles, st: BlogStages)
    requires ProcessSpec(Some(files), st).Next?
    ensures var up := ProcessSpec(Some(files), st).uploaded;
            && (up.blogImage.Some? <==> files.blogImage.Some? && |files.blogImage.value| > 0)
            && (up.blogImage.Some? ==> Ok(up.blogImage.value) == PublishOne(files.blogImage.value[0], MainFolder, st))
            && (up.blogImages.Some? <==> files.blogImages.Some?)
            && (up.blogImages.Some? ==>
                  |up.blogImages.value| == |files.blogImages.value| &&
                  forall i :: 0 <= i < |files.blogImages.value| ==>
                    Ok(up.blogImages.value[i].url) == PublishOne(files.blogImages.value[i], AdditionalFolder, st))
  {
    if files.blogImages.Some? {
      PublishAllSpec(files.blogImages.value, st);
    }
  }

  /** A failing additional image stops the loop: the images after it are never
      processed, and the ones before it stay published. */
  lemma FailureStopsAtFirst(files: BlogFiles, st: BlogStages)
    requires ProcessSpec(Some(files), st).NextError?
    requires files.blogImages.Some? && ProcessSpec(Some(files), st).partial.blogImages.Some?
    ensures var k := |ProcessSpec(Some(files), st).partial.blogImages.value|;
            && k < |files.blogImages.value|
            && PublishOne(files.blogImages.value[k], AdditionalFolder, st).Err?
            && forall i :: 0 <= i < k ==> PublishOne(files.blogImages.value[i], AdditionalFolder, st).Ok?
  {
    PublishAllSpec(files.blogImages.value, st);
  }
}
