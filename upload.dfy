/**
 * The product image pipeline of utils/upload.js: the admission filter, the
 * per-role sizing and encoder settings, the folder routing, the derived-size
 * URL parameters, the per-file handler with its temporary files, the error
 * classification and the processing summary.
 *
 * sharp, Cloudinary and the file system are parameters: each external call is
 * a function that either succeeds with a value or fails with a message.
 */
module Upload {
  import opened Wrappers
  import opened Strings

  newtype byte = x: int | 0 <= x < 256
  type Bytes = seq<byte>

  /** A file as multer announces it, before any byte is stored. */
  datatype IncomingFile = IncomingFile(fieldname: string, originalname: string, encoding: string, mimetype: string, size: nat)

  // ---------------------------------------------------------------------------
  // Admission filter

  const AllowedTypes: seq<string> := ["image/jpeg", "image/jpg", "image/png", "image/webp", "image/gif"]

  const InvalidTypePrefix: string := "Invalid file type"

  /** The filter's message: the prefix, then the allowed types joined by `, `. */
  const InvalidTypeMessage: string :=
    InvalidTypePrefix + ". Only image/jpeg, image/jpg, image/png, image/webp, image/gif are allowed."

  /** `path.extname` (POSIX): from the last dot of the last path segment to its end;
      empty when there is no dot, when the segment starts with its only dot, or for `..`. */
  function ExtName(path: string): (ext: string)
    ensures ext == "" || (ext[0] == '.' && '/' !in ext && '.' !in ext[1..])
  {
    var base := LastSegment(StripTrailingSlashes(path));
    match LastIndex(base, '.')
    case None => ""
    case Some(k) => if k == 0 || base == ".." then "" else base[k..]
  }

  function StripTrailingSlashes(s: string): string
    decreases |s|
  {
    if |s| > 0 && s[|s| - 1] == '/' then StripTrailingSlashes(s[..|s| - 1]) else s
  }

  function LastSegment(s: string): (r: string)
    ensures '/' !in r
    decreases |s|
  {
    match FirstIndex(s, '/')
    case None => s
    case Some(i) => LastSegment(s[i + 1..])
  }

  function LastIndex(s: string, c: char): (r: Option<nat>)
    ensures r.None? <==> c !in s
    ensures r.Some? ==> r.value < |s| && s[r.value] == c && c !in s[r.value + 1..]
    decreases |s|
  {
    if |s| == 0 then None
    else if s[|s| - 1] == c then Some(|s| - 1)
    else
      var r := LastIndex(s[..|s| - 1], c);
      assert r.Some? ==> s[r.value + 1..] == s[..|s| - 1][r.value + 1..] + [s[|s| - 1]];
      assert r.None? ==> s == s[..|s| - 1] + [s[|s| - 1]];
      r
  }

  /** `/jpeg|jpg|png|webp|gif/i.test(ext)`: unanchored and case-insensitive. */
  predicate ExtensionAllowed(ext: string) {
    var e := Lower(ext);
    Contains(e, "jpeg") || Contains(e, "jpg") || Contains(e, "png") || Contains(e, "webp") || Contains(e, "gif")
  }

  /** `fileFilter`: `Ok(true)` is `cb(null, true)`, `Err(m)` is `cb(new Error(m))`. */
  function FileFilter(file: IncomingFile): (r: Result<bool>)
    ensures r.Ok? <==> file.mimetype in AllowedTypes && ExtensionAllowed(ExtName(file.originalname))
    ensures r.Ok? ==> r.value
    ensures r.Err? ==> r.error == InvalidTypeMessage && InvalidTypePrefix <= r.error
  {
    if file.mimetype in AllowedTypes && ExtensionAllowed(ExtName(file.originalname)) then Ok(true)
    else Err(InvalidTypeMessage)
  }

  /** An accepted name has a real extension: a dot followed by at least three characters. */
  lemma AcceptedNameHasExtension(file: IncomingFile)
    requires FileFilter(file).Ok?
    ensures var ext := ExtName(file.originalname); |ext| >= 4 && ext[0] == '.'
  {
    var ext := ExtName(file.originalname);
    var e := Lower(ext);
    var w: string :| w in ["jpeg", "jpg", "png", "webp", "gif"] && Contains(e, w);
    var k := ContainsWitness(e, w);
  }

  /** A name without an extension, or a dot-file such as `.png`, is refused whatever its MIME type. */
  lemma NoExtensionRefused(file: IncomingFile)
    requires ExtName(file.originalname) == ""
    ensures FileFilter(file).Err?
  {
    assert Lower("") == "";
  }

  /** In a name free of `/`, the extension starts at the last dot. */
  lemma LastDotOf(stem: string, ext: string)
    requires |ext| > 0 && ext[0] == '.' && '.' !in ext[1..]
    ensures LastIndex(stem + ext, '.') == Some(|stem|)
  {
    var s := stem + ext;
    assert s[|stem|] == '.';
  }

  lemma PlainName(s: string)
    requires '/' !in s
    ensures StripTrailingSlashes(s) == s && LastSegment(s) == s
  {
    assert |s| > 0 ==> s[|s| - 1] != '/';
  }

  /** `path.extname("dir-free-stem.ext")` is `.ext` when the stem is not empty. */
  lemma ExtNameOf(stem: string, ext: string)
    requires '/' !in stem + ext && |stem| > 0 && stem + ext != ".."
    requires |ext| > 0 && ext[0] == '.' && '.' !in ext[1..]
    ensures ExtName(stem + ext) == ext
  {
    PlainName(stem + ext);
    LastDotOf(stem, ext);
    assert (stem + ext)[|stem|..] == ext;
  }

  /** A dot-file such as `.png` has no extension, so it is refused whatever its MIME type. */
  lemma DotFileRefused(name: string, file: IncomingFile)
    requires '/' !in name && |name| > 0 && name[0] == '.' && '.' !in name[1..]
    requires file.originalname == name
    ensures ExtName(name) == ""
    ensures FileFilter(file).Err?
  {
    PlainName(name);
    LastDotOf("", name);
    assert "" + name == name;
    NoExtensionRefused(file);
  }

  /** The extension test is case-insensitive and unanchored: `photo.JPGX` passes. */
  lemma UpperCaseUnanchoredAccepted(file: IncomingFile)
    requires file.originalname == "photo.JPGX" && file.mimetype == "image/jpeg"
    ensures FileFilter(file).Ok?
  {
    assert "photo" + ".JPGX" == "photo.JPGX";
    ExtNameOf("photo", ".JPGX");
    assert ExtName(file.originalname) == ".JPGX";
    UpperCaseExtensionMatches();
    assert file.mimetype == AllowedTypes[0];
  }

  lemma UpperCaseExtensionMatches()
    ensures ExtensionAllowed(".JPGX")
  {
    var e := Lower(".JPGX");
    assert e[1..4] == "jpg";
    ContainsAt(e, "jpg", 1);
  }

  // ---------------------------------------------------------------------------
  // Target dimensions

  type Pixels = n: int | n > 0 witness 1

  /** What the inspector reports. A decodable image has positive dimensions. */
  datatype Metadata = Metadata(width: Pixels, height: Pixels, format: string)

  /** The width ceiling of an image role, chosen by field name. */
  function WidthCeiling(fieldname: string): (c: nat)
    ensures fieldname == "productImage" ==> c == 1200
    ensures fieldname == "productDetailsImages" ==> c == 1000
    ensures fieldname != "productImage" && fieldname != "productDetailsImages" ==> c == 800
  {
    if fieldname == "productImage" then 1200
    else if fieldname == "productDetailsImages" then 1000
    else 800
  }

  /** `Math.min(metadata.width, ceiling)`: never above the ceiling, never an enlargement. */
  function TargetWidth(fieldname: string, width: Pixels): (w: Pixels)
    ensures w <= WidthCeiling(fieldname) && w <= width
    ensures w == width || w == WidthCeiling(fieldname)
    ensures width <= WidthCeiling(fieldname) <==> w == width
  {
    if width < WidthCeiling(fieldname) then width else WidthCeiling(fieldname)
  }

  /** `Math.round(num / den)` in exact arithmetic for `num >= 0`: the nearest
      integer, halves rounded up. */
  function RoundHalfUp(num: nat, den: Pixels): (r: nat)
    ensures 2 * den * r <= 2 * num + den < 2 * den * (r + 1)
  {
    var q := (2 * num + den) / (2 * den);
    DivBounds(2 * num + den, 2 * den);
    q
  }

  lemma DivBounds(a: nat, b: int)
    requires b > 0
    ensures b * (a / b) <= a < b * (a / b + 1)
  {
  }

  /** `Math.round((targetWidth / width) * height)`. */
  function TargetHeight(targetWidth: nat, width: Pixels, height: Pixels): nat {
    RoundHalfUp(targetWidth * height, width)
  }

  /** An image at or below its ceiling keeps its height. */
  lemma {:induction false} UnscaledKeepsHeight(fieldname: string, width: Pixels, height: Pixels)
    requires width <= WidthCeiling(fieldname)
    ensures TargetHeight(TargetWidth(fieldname, width), width, height) == height
  {
    assert width * height == height * width;
    RoundExact(width * height, width, height);
  }

  /** Rounding an exact quotient gives the quotient. */
  lemma {:induction false} RoundExact(num: nat, den: Pixels, q: nat)
    requires num == q * den
    ensures RoundHalfUp(num, den) == q
  {
    var r := RoundHalfUp(num, den);
    assert 2 * den * r <= 2 * num + den < 2 * den * (r + 1);
    assert 2 * den * q == 2 * num;
    assert 2 * den * (q + 1) == 2 * num + 2 * den;
    if r < q {
      MulMono(2 * den, r + 1, q);
    } else if r > q {
      MulMono(2 * den, q + 1, r);
    }
  }

  lemma MulMono(a: nat, x: int, y: int)
    requires x <= y
    ensures a * x <= a * y
  {
  }

  /** The computed height keeps the aspect ratio to within half a pixel:
      |targetHeight/targetWidth - height/width| <= 1/(2*width)... in integers,
      2 * |targetHeight * width - targetWidth * height| <= width. */
  lemma {:induction false} AspectPreserved(targetWidth: nat, width: Pixels, height: Pixels)
    ensures var th, w := TargetHeight(targetWidth, width, height), width as int;
            -w <= 2 * (th * w - targetWidth * height) <= w
  {
    var th := TargetHeight(targetWidth, width, height);
    assert 2 * width * th <= 2 * targetWidth * height + width < 2 * width * (th + 1);
    assert 2 * width * (th + 1) == 2 * width * th + 2 * width;
  }

  /** A downscale never increases the height. */
  lemma {:induction false} HeightNotEnlarged(targetWidth: nat, width: Pixels, height: Pixels)
    requires targetWidth <= width
    ensures TargetHeight(targetWidth, width, height) <= height
  {
    var th := TargetHeight(targetWidth, width, height);
    AspectPreserved(targetWidth, width, height);
    MulMono(height, targetWidth, width);
    assert 2 * th * width <= 2 * width * height + width;
    if th > height {
      MulMono(2 * width, height + 1, th);
      assert false;
    }
  }

  // ---------------------------------------------------------------------------
  // Encoder settings: a record of what the sharp pipeline is asked to do

  datatype Rgba = Rgba(r: nat, g: nat, b: nat, alpha: real)

  datatype ResizeOptions = ResizeOptions(width: nat, height: nat, fit: string, withoutEnlargement: bool, background: Rgba)

  datatype Encoder =
    | Png(quality: nat, compressionLevel: nat, palette: bool, progressive: bool)
    | WebP(quality: nat, effort: nat, alphaQuality: nat)
    | Jpeg(quality: nat, mozjpeg: bool, chromaSubsampling: string, progressive: bool)

  /** The SVG overlay: its canvas size and the text it shows. */
  datatype WatermarkSvg = WatermarkSvg(width: nat, height: nat, text: string)

  datatype Overlay = Overlay(input: WatermarkSvg, gravity: string, top: Option<nat>, left: Option<nat>)

  datatype EncodePlan = EncodePlan(resize: ResizeOptions, encoder: Encoder, composite: Overlay, sharpenSigma: Option<real>)

  const WatermarkLabel: string := "© Rayan Saffron"

  /** `createRayanSaffronWatermark()`. */
  const RayanSaffronWatermark: WatermarkSvg := WatermarkSvg(250, 40, WatermarkLabel)

  /** The encoder chosen by the detected format: palette PNG for png and gif,
      WebP for webp, JPEG for everything else. */
  function EncoderFor(format: string): (e: Encoder)
    ensures format == "png" || format == "gif" ==> e == Png(85, 9, true, true)
    ensures format == "webp" ==> e == WebP(82, 6, 80)
    ensures format != "png" && format != "gif" && format != "webp" ==> e == Jpeg(85, true, "4:4:4", true)
  {
    if format == "png" || format == "gif" then Png(85, 9, true, true)
    else if format == "webp" then WebP(82, 6, 80)
    else Jpeg(85, true, "4:4:4", true)
  }

  /** Steps 3 to 5 of the handler, as a settings record. */
  function EncodePlanFor(fieldname: string, meta: Metadata): (p: EncodePlan)
    ensures p.resize.width == TargetWidth(fieldname, meta.width)
    ensures p.resize.height == TargetHeight(p.resize.width, meta.width, meta.height)
    ensures p.resize.fit == "contain" && p.resize.withoutEnlargement && p.resize.background == Rgba(255, 255, 255, 1.0)
    ensures p.encoder == EncoderFor(meta.format)
    ensures p.composite == Overlay(RayanSaffronWatermark, "southeast", Some(10), Some(10))
    ensures p.sharpenSigma.Some? <==> p.encoder.Jpeg?
    ensures p.sharpenSigma.Some? ==> p.sharpenSigma.value == 0.5
  {
    var w := TargetWidth(fieldname, meta.width);
    var encoder := EncoderFor(meta.format);
    EncodePlan(
      ResizeOptions(w, TargetHeight(w, meta.width, meta.height), "contain", true, Rgba(255, 255, 255, 1.0)),
      encoder,
      Overlay(RayanSaffronWatermark, "southeast", Some(10), Some(10)),
      if encoder.Jpeg? then Some(0.5) else None)
  }

  /** A palette format is never re-encoded as JPEG, and an unknown format is. */
  lemma FormatPolicy(fieldname: string, meta: Metadata)
    ensures meta.format in {"png", "gif"} ==> EncodePlanFor(fieldname, meta).encoder.Png?
    ensures meta.format !in {"png", "gif", "webp"} ==> EncodePlanFor(fieldname, meta).encoder.Jpeg?
  {
  }

  /** The 2000x1000 main product photo becomes a 1200x600 JPEG. */
  lemma MainPhotoScenario()
    ensures var p := EncodePlanFor("productImage", Metadata(2000, 1000, "jpeg"));
            p.resize.width == 1200 && p.resize.height == 600 && p.encoder.Jpeg?
  {
    assert RoundHalfUp(1200 * 1000, 2000) == 600;
  }

  // ---------------------------------------------------------------------------
  // Folder routing and publishing parameters

  const BaseFolder: string := "rayan-saffron/afghanistan"

  /** `getCloudinaryFolder(fieldname)`. */
  function CloudinaryFolder(fieldname: string): (folder: string)
    ensures BaseFolder + "/" <= folder
    ensures fieldname == "productImage" ==> folder == BaseFolder + "/products/main"
    ensures fieldname == "productDetailsImages" ==> folder == BaseFolder + "/products/details"
    ensures fieldname == "blogImages" ==> folder == BaseFolder + "/blog"
    ensures fieldname == "bannerImages" ==> folder == BaseFolder + "/banners"
    ensures fieldname !in KnownFields ==> folder == BaseFolder + "/general"
  {
    if fieldname == "productImage" then BaseFolder + "/products/main"
    else if fieldname == "productDetailsImages" then BaseFolder + "/products/details"
    else if fieldname == "blogImages" then BaseFolder + "/blog"
    else if fieldname == "bannerImages" then BaseFolder + "/banners"
    else BaseFolder + "/general"
  }

  const KnownFields: set<string> := {"productImage", "productDetailsImages", "blogImages", "bannerImages"}

  /** Distinct known roles never share a folder. */
  lemma FoldersDistinct(a: string, b: string)
    requires a in KnownFields && b in KnownFields && a != b
    ensures CloudinaryFolder(a) != CloudinaryFolder(b)
  {
    var fa, fb := CloudinaryFolder(a), CloudinaryFolder(b);
    var n := |BaseFolder| + 1;
    assert fa[n..] != fb[n..];
  }

  /** The generated public id for the upload: `rayan-saffron-<now>-<random>`. */
  function PublicIdFor(now: nat, randomSuffix: string): (id: string)
    ensures "rayan-saffron-" <= id
  {
    "rayan-saffron-" + NatToString(now) + "-" + randomSuffix
  }

  /** Two uploads whose clock readings or random suffixes differ get distinct ids. */
  lemma {:induction false} PublicIdInjective(n1: nat, s1: string, n2: nat, s2: string)
    requires PublicIdFor(n1, s1) == PublicIdFor(n2, s2)
    ensures n1 == n2 && s1 == s2
  {
    var p := "rayan-saffron-";
    var d1, d2 := NatToString(n1), NatToString(n2);
    var t1, t2 := d1 + "-" + s1, d2 + "-" + s2;
    assert PublicIdFor(n1, s1) == p + t1;
    assert PublicIdFor(n2, s2) == p + t2;
    assert t1 == (p + t1)[|p|..];
    assert t1 == t2;
    assert forall i :: 0 <= i < |d1| ==> d1[i] != '-';
    assert forall i :: 0 <= i < |d2| ==> d2[i] != '-';
    assert t1 == d1 + ("-" + s1) && t2 == d2 + ("-" + s2);
    FirstIndexAfterFree(d1, '-', "-" + s1);
    FirstIndexAfterFree(d2, '-', "-" + s2);
    assert |d1| == |d2|;
    assert d1 == t1[..|d1|] && d2 == t2[..|d2|];
    assert s1 == t1[|d1| + 1..] && s2 == t2[|d2| + 1..];
    NatToStringValue(n1);
    NatToStringValue(n2);
  }

  /** The options of `cloudinary.uploader.upload`. */
  datatype UploadOptions = UploadOptions(folder: string, publicId: string, resourceType: string,
                                         quality: string, fetchFormat: string, tags: seq<string>)

  function UploadOptionsFor(fieldname: string, publicId: string): (o: UploadOptions)
    ensures o.folder == CloudinaryFolder(fieldname) && o.publicId == publicId && o.resourceType == "image"
    ensures o.quality == "auto:good" && o.fetchFormat == "auto"
    ensures o.tags == ["rayan-saffron", fieldname, "afghan-saffron"]
  {
    UploadOptions(CloudinaryFolder(fieldname), publicId, "image", "auto:good", "auto",
                  ["rayan-saffron", fieldname, "afghan-saffron"])
  }

  /** What the asset host answers. An empty `format` stands for an absent one. */
  datatype UploadResult = UploadResult(publicId: string, secureUrl: string, format: string, bytes: nat, width: nat, height: nat)

  /** The arguments of one `cloudinary.url` call: a size-capped rendering of a published asset. */
  datatype DerivedUrl = DerivedUrl(publicId: string, width: nat, crop: string, quality: string, fetchFormat: string)

  datatype Urls = Urls(original: string, thumbnail: DerivedUrl, medium: DerivedUrl, large: DerivedUrl)

  /** Step 9: the original URL and three capped renderings of the same asset. */
  function VariantUrls(up: UploadResult): (u: Urls)
    ensures u.original == up.secureUrl
    ensures u.thumbnail.publicId == up.publicId && u.medium.publicId == up.publicId && u.large.publicId == up.publicId
    ensures u.thumbnail.width == 400 && u.medium.width == 800 && u.large.width == 1200
    ensures u.thumbnail.width < u.medium.width < u.large.width
    ensures u.thumbnail.crop == u.medium.crop == u.large.crop == "limit"
    ensures u.thumbnail.quality == u.medium.quality == u.large.quality == "auto:good"
    ensures u.thumbnail.fetchFormat == u.medium.fetchFormat == u.large.fetchFormat == "auto"
  {
    Urls(up.secureUrl,
         DerivedUrl(up.publicId, 400, "limit", "auto:good", "auto"),
         DerivedUrl(up.publicId, 800, "limit", "auto:good", "auto"),
         DerivedUrl(up.publicId, 1200, "limit", "auto:good", "auto"))
  }

  datatype CloudinaryInfo = CloudinaryInfo(publicId: string, url: string, urls: Urls, format: string,
                                           bytes: nat, width: nat, height: nat)

  /** The file record the handler hands back to multer (step 11). */
  datatype StoredFile = StoredFile(fieldname: string, originalname: string, encoding: string, mimetype: string,
                                   size: nat, destination: string, filename: string, path: string,
                                   cloudinary: CloudinaryInfo)

  function StoredFileFor(file: IncomingFile, folder: string, up: UploadResult, optimizedSize: nat): (s: StoredFile)
    ensures s.fieldname == file.fieldname && s.originalname == file.originalname && s.encoding == file.encoding
    ensures s.mimetype == "image/" + (if up.format == "" then "jpeg" else up.format)
    ensures s.size == optimizedSize && s.destination == folder
    ensures s.filename == up.publicId && s.path == up.secureUrl
    ensures s.cloudinary == CloudinaryInfo(up.publicId, up.secureUrl, VariantUrls(up), up.format, up.bytes, up.width, up.height)
  {
    StoredFile(file.fieldname, file.originalname, file.encoding,
               "image/" + (if up.format == "" then "jpeg" else up.format),
               optimizedSize, folder, up.publicId, up.secureUrl,
               CloudinaryInfo(up.publicId, up.secureUrl, VariantUrls(up), up.format, up.bytes, up.width, up.height))
  }

  // ---------------------------------------------------------------------------
  // The per-file handler

  /** How the piping of the upload stream into the original temp file ended: the
      file was written, the write stream could not open it (`ENAMETOOLONG`,
      `EACCES`: no file is created), or writing failed after the open (`ENOSPC`,
      `EIO`: the file exists). Each error reaches the stream's `error` handler. */
  datatype StreamOutcome = Finished | OpenError(error: string) | WriteError(error: string)

  /** The external stages the handler calls, each a function of its arguments. */
  datatype Stages = Stages(
    inspect: string -> Result<Metadata>,
    encode: (string, EncodePlan) -> Result<Bytes>,
    writeFile: (string, Bytes) -> Result<()>,
    stat: string -> Result<nat>,
    upload: (string, UploadOptions) -> Result<UploadResult>)

  /** `path.join(os.tmpdir(), `${prefix}-${Date.now()}-${file.originalname}`)`. */
  function TempPath(tempDir: string, prefix: string, now: nat, name: string): string {
    tempDir + "/" + prefix + "-" + NatToString(now) + "-" + name
  }

  lemma TempPathsDistinct(tempDir: string, t1: nat, t2: nat, name: string)
    ensures TempPath(tempDir, "original", t1, name) != TempPath(tempDir, "optimized", t2, name)
  {
    var a, b := TempPath(tempDir, "original", t1, name), TempPath(tempDir, "optimized", t2, name);
    assert a[|tempDir| + 2] == 'r' && b[|tempDir| + 2] == 'p';
  }

  /** Steps 2 to 9 once the original is on disk: the stored-file record exactly
      when every stage succeeds, and otherwise the message of the first stage
      that failed, in the order inspect, encode, write, stat, stat, upload. */
  function Pipeline(file: IncomingFile, originalPath: string, optimizedPath: string,
                    uploadClock: nat, randomSuffix: string, st: Stages): (r: Result<StoredFile>)
    ensures var options := UploadOptionsFor(file.fieldname, PublicIdFor(uploadClock, randomSuffix));
      r.Ok? <==>
        && st.inspect(originalPath).Ok?
        && var plan := EncodePlanFor(file.fieldname, st.inspect(originalPath).value);
        && st.encode(originalPath, plan).Ok?
        && st.writeFile(optimizedPath, st.encode(originalPath, plan).value).Ok?
        && st.stat(originalPath).Ok? && st.stat(optimizedPath).Ok?
        && st.upload(optimizedPath, options).Ok?
    ensures var options := UploadOptionsFor(file.fieldname, PublicIdFor(uploadClock, randomSuffix));
      r.Ok? ==> r.value == StoredFileFor(file, options.folder, st.upload(optimizedPath, options).value,
                                         st.stat(optimizedPath).value)
    ensures st.inspect(originalPath).Err? ==> r == Err(st.inspect(originalPath).error)
    ensures st.inspect(originalPath).Ok? ==>
      var plan := EncodePlanFor(file.fieldname, st.inspect(originalPath).value);
      && (st.encode(originalPath, plan).Err? ==> r == Err(st.encode(originalPath, plan).error))
      && (st.encode(originalPath, plan).Ok? ==>
            var written := st.writeFile(optimizedPath, st.encode(originalPath, plan).value);
            && (written.Err? ==> r == Err(written.error))
            && (written.Ok? && st.stat(originalPath).Err? ==> r == Err(st.stat(originalPath).error))
            && (written.Ok? && st.stat(originalPath).Ok? && st.stat(optimizedPath).Err? ==>
                  r == Err(st.stat(optimizedPath).error))
            && (written.Ok? && st.stat(originalPath).Ok? && st.stat(optimizedPath).Ok? ==>
                  var up := st.upload(optimizedPath, UploadOptionsFor(file.fieldname, PublicIdFor(uploadClock, randomSuffix)));
                  up.Err? ==> r == Err(up.error)))
  {
    var meta :- st.inspect(originalPath);
    var plan := EncodePlanFor(file.fieldname, meta);
    var buffer :- st.encode(originalPath, plan);
    var _ :- st.writeFile(optimizedPath, buffer);
    var originalSize :- st.stat(originalPath);
    var optimizedSize :- st.stat(optimizedPath);
    var folder := CloudinaryFolder(file.fieldname);
    var options := UploadOptionsFor(file.fieldname, PublicIdFor(uploadClock, randomSuffix));
    var up :- st.upload(optimizedPath, options);
    Ok(StoredFileFor(file, folder, up, optimizedSize))
  }

  /** A stage failure is reported to multer under this prefix. */
  function ProcessingFailed(cause: string): (message: string)
    ensures "Image processing failed: " <= message
  {
    "Image processing failed: " + cause
  }

  /** The temporary directory: the set of paths that exist there. */
  class TempArea {
    var live: set<string>

    constructor (existing: set<string>)
      ensures live == existing
    {
      live := existing;
    }

    /** `fs.unlink(path).catch(() => {})`: a missing path is ignored. */
    method Unlink(path: string)
      modifies this
      ensures live == old(live) - {path}
    {
      live := live - {path};
    }

    /** Writing a file creates its path (a failed write may leave a partial file). */
    method Write(path: string)
      modifies this
      ensures live == old(live) + {path}
    {
      live := live + {path};
    }

    /**
     * `_handleFile` as written. Once the original temp file has been written,
     * every exit removes both temp paths, except one: a write error after the
     * open reaches the callback with no unlink, so the original temp file
     * stays. An open failure creates no file and so leaves nothing behind.
     */
    method HandleFile(file: IncomingFile, tempDir: string, clock1: nat, clock2: nat, uploadClock: nat,
                      randomSuffix: string, stream: StreamOutcome, st: Stages)
      returns (result: Result<StoredFile>)
      modifies this
      ensures var originalPath := TempPath(tempDir, "original", clock1, file.originalname);
              var optimizedPath := TempPath(tempDir, "optimized", clock2, file.originalname);
              && (stream.OpenError? ==> result == Err(stream.error) && live == old(live))
              && (stream.WriteError? ==> result == Err(stream.error) && live == old(live) + {originalPath})
              && (stream.Finished? ==> live == old(live) - {originalPath, optimizedPath})
              && (stream.Finished? ==>
                    match Pipeline(file, originalPath, optimizedPath, uploadClock, randomSuffix, st)
                    case Ok(stored) => result == Ok(stored)
                    case Err(cause) => result == Err(ProcessingFailed(cause)))
    {
      var originalPath := TempPath(tempDir, "original", clock1, file.originalname);
      var optimizedPath := TempPath(tempDir, "optimized", clock2, file.originalname);
      if stream.OpenError? {
        return Err(stream.error);
      }
      Write(originalPath);
      if stream.WriteError? {
        return Err(stream.error);
      }
      var outcome := Process(file, originalPath, optimizedPath, uploadClock, randomSuffix, st);
      Unlink(originalPath);
      Unlink(optimizedPath);
      result := match outcome
        case Ok(stored) => Ok(stored)
        case Err(cause) => Err(ProcessingFailed(cause));
    }

    /**
     * The handler with the write-error path cleaned up as well: every exit
     * leaves neither temp path behind.
     */
    method HandleFileCleaned(file: IncomingFile, tempDir: string, clock1: nat, clock2: nat, uploadClock: nat,
                             randomSuffix: string, stream: StreamOutcome, st: Stages)
      returns (result: Result<StoredFile>)
      modifies this
      ensures var originalPath := TempPath(tempDir, "original", clock1, file.originalname);
              var optimizedPath := TempPath(tempDir, "optimized", clock2, file.originalname);
              && live <= old(live)
              && (stream.OpenError? ==> result == Err(stream.error) && live == old(live))
              && (!stream.OpenError? ==> live == old(live) - {originalPath, optimizedPath})
              && (stream.WriteError? ==> result == Err(stream.error))
              && (stream.Finished? ==>
                    match Pipeline(file, originalPath, optimizedPath, uploadClock, randomSuffix, st)
                    case Ok(stored) => result == Ok(stored)
                    case Err(cause) => result == Err(ProcessingFailed(cause)))
    {
      var originalPath := TempPath(tempDir, "original", clock1, file.originalname);
      var optimizedPath := TempPath(tempDir, "optimized", clock2, file.originalname);
      if stream.OpenError? {
        return Err(stream.error);
      }
      Write(originalPath);
      if stream.WriteError? {
        Unlink(originalPath);
        Unlink(optimizedPath);
        return Err(stream.error);
      }
      var outcome := Process(file, originalPath, optimizedPath, uploadClock, randomSuffix, st);
      Unlink(originalPath);
      Unlink(optimizedPath);
      result := match outcome
        case Ok(stored) => Ok(stored)
        case Err(cause) => Err(ProcessingFailed(cause));
    }

    /** Steps 2 to 9 step by step; the optimized temp file is created at step 6. */
    method Process(file: IncomingFile, originalPath: string, optimizedPath: string,
                   uploadClock: nat, randomSuffix: string, st: Stages)
      returns (outcome: Result<StoredFile>)
      modifies this
      ensures outcome == Pipeline(file, originalPath, optimizedPath, uploadClock, randomSuffix, st)
      ensures old(live) <= live <= old(live) + {optimizedPath}
    {
      var inspected := st.inspect(originalPath);
      if inspected.Err? { return Err(inspected.error); }
      var meta := inspected.value;
      var targetWidth;
      if file.fieldname == "productImage" {
        targetWidth := Min(meta.width, 1200);
      } else if file.fieldname == "productDetailsImages" {
        targetWidth := Min(meta.width, 1000);
      } else {
        targetWidth := Min(meta.width, 800);
      }
      var targetHeight := RoundHalfUp(targetWidth * meta.height, meta.width);
      var encoder;
      var sharpen: Option<real> := None;
      if meta.format == "png" || meta.format == "gif" {
        encoder := Png(85, 9, true, true);
      } else if meta.format == "webp" {
        encoder := WebP(82, 6, 80);
      } else {
        encoder := Jpeg(85, true, "4:4:4", true);
        sharpen := Some(0.5);
      }
      var plan := EncodePlan(ResizeOptions(targetWidth, targetHeight, "contain", true, Rgba(255, 255, 255, 1.0)),
                             encoder, Overlay(RayanSaffronWatermark, "southeast", Some(10), Some(10)), sharpen);
      assert plan == EncodePlanFor(file.fieldname, meta);
      var encoded := st.encode(originalPath, plan);
      if encoded.Err? { return Err(encoded.error); }
      Write(optimizedPath);
      var written := st.writeFile(optimizedPath, encoded.value);
      if written.Err? { return Err(written.error); }
      var originalStats := st.stat(originalPath);
      if originalStats.Err? { return Err(originalStats.error); }
      var optimizedStats := st.stat(optimizedPath);
      if optimizedStats.Err? { return Err(optimizedStats.error); }
      var folder := CloudinaryFolder(file.fieldname);
      var publicId := PublicIdFor(uploadClock, randomSuffix);
      var uploaded := st.upload(optimizedPath, UploadOptionsFor(file.fieldname, publicId));
      if uploaded.Err? { return Err(uploaded.error); }
      outcome := Ok(StoredFileFor(file, folder, uploaded.value, optimizedStats.value));
    }
  }

  function Min(a: int, b: int): (m: int)
    ensures m <= a && m <= b && (m == a || m == b)
  {
    if a < b then a else b
  }

  /** A write error after the open leaves the original temp file behind. */
  method WriteErrorLeavesOriginal(file: IncomingFile, st: Stages)
  {
    var area := new TempArea({});
    var r := area.HandleFile(file, "/tmp", 1, 1, 2, "abc", WriteError("ENOSPC"), st);
    assert TempPath("/tmp", "original", 1, file.originalname) in area.live;
    assert r == Err("ENOSPC");
  }

  // ---------------------------------------------------------------------------
  // Error classification

  /** An error reaching the upload callback. `multer` marks a `MulterError`. */
  datatype UploadError = UploadError(multer: bool, code: Option<string>, message: string)

  datatype ErrorReply = ErrorReply(status: nat, message: string, detail: Option<string>)

  /** Which message table applies: `uploadProductImages` (285-304) or `handleUploadError` (349-370). */
  datatype Route = ProductRoute | BlogRoute

  const TooLargeMessage: string := "فایل خیلی بزرگ است. حداکثر سایز ۱۰ مگابایت"

  /** The reply text for a type rejection; the product route names the formats. */
  function InvalidTypeReply(route: Route): string {
    if route.ProductRoute? then "فقط عکس مجاز است (jpg, png, webp, gif)" else "فقط عکس مجاز است"
  }

  /** The reply text for any other upload error. */
  function FailedReply(route: Route): string {
    if route.ProductRoute? then "آپلود عکس ناموفق بود" else "آپلود ناموفق بود"
  }

  /** Size limit first, then a type rejection, else a server error whose detail
      appears only when `NODE_ENV` is `development`. */
  function ClassifyUploadError(err: UploadError, nodeEnv: Option<string>, route: Route): (r: ErrorReply)
    ensures r.status == 400 <==> err.code == Some("LIMIT_FILE_SIZE") || Contains(err.message, "Invalid file type")
    ensures r.status == 400 || r.status == 500
    ensures err.code == Some("LIMIT_FILE_SIZE") ==> r.message == TooLargeMessage
    ensures r.status == 400 && err.code != Some("LIMIT_FILE_SIZE") ==> r.message == InvalidTypeReply(route)
    ensures r.status == 500 ==> r.message == FailedReply(route)
    ensures r.detail.Some? <==> r.status == 500 && nodeEnv == Some("development")
    ensures r.detail.Some? ==> r.detail.value == err.message
  {
    if err.code == Some("LIMIT_FILE_SIZE") then ErrorReply(400, TooLargeMessage, None)
    else if Contains(err.message, "Invalid file type") then ErrorReply(400, InvalidTypeReply(route), None)
    else ErrorReply(500, FailedReply(route), if nodeEnv == Some("development") then Some(err.message) else None)
  }

  /** A file the filter refuses is answered with 400, never 500. */
  lemma FilterRejectionIsClientError(file: IncomingFile, nodeEnv: Option<string>, route: Route)
    requires FileFilter(file).Err?
    ensures ClassifyUploadError(UploadError(false, None, FileFilter(file).error), nodeEnv, route).status == 400
  {
  }

  // ---------------------------------------------------------------------------
  // Admission limits (multer's own checks, abstracted)

  const MaxFileSize: nat := 10 * 1024 * 1024

  /** Per-field counts, a total file count and a per-file byte ceiling. */
  datatype Limits = Limits(fields: map<string, nat>, maxFiles: Option<nat>, maxFileSize: nat)

  /** `upload.fields([{productImage, 1}, {productDetailsImages, 10}])` with `files: 12`. */
  const ProductLimits: Limits := Limits(map["productImage" := 1, "productDetailsImages" := 10], Some(12), MaxFileSize)

  /** `uploadBlogImages` of utils/upload.js: `blogImages` only, at most five. */
  const BlogLimits: Limits := Limits(map["blogImages" := 5], Some(12), MaxFileSize)

  function CountField(files: seq<IncomingFile>, field: string): (n: nat)
    ensures n <= |files|
  {
    if |files| == 0 then 0
    else CountField(files[..|files| - 1], field) + (if files[|files| - 1].fieldname == field then 1 else 0)
  }

  /** The first refusal multer reports for a batch, checking each file on
      arrival: the file count, the field and its count, the filter, the size. */
  function Admission(files: seq<IncomingFile>, limits: Limits, filter: IncomingFile -> Result<bool>): (r: Option<UploadError>)
    decreases |files|
  {
    if |files| == 0 then None
    else
      match Admission(files[..|files| - 1], limits, filter)
      case Some(e) => Some(e)
      case None => AdmitOne(files[..|files| - 1], files[|files| - 1], limits, filter)
  }

  function AdmitOne(before: seq<IncomingFile>, f: IncomingFile, limits: Limits, filter: IncomingFile -> Result<bool>): Option<UploadError> {
    if limits.maxFiles.Some? && |before| >= limits.maxFiles.value then
      Some(UploadError(true, Some("LIMIT_FILE_COUNT"), "Too many files"))
    else if f.fieldname !in limits.fields || CountField(before, f.fieldname) >= limits.fields[f.fieldname] then
      Some(UploadError(true, Some("LIMIT_UNEXPECTED_FILE"), "Unexpected field"))
    else if filter(f).Err? then Some(UploadError(false, None, filter(f).error))
    else if f.size > limits.maxFileSize then Some(UploadError(true, Some("LIMIT_FILE_SIZE"), "File too large"))
    else None
  }

  /** An admitted batch respects every limit and passed the filter file by file. */
  lemma {:induction false} AdmittedWithinLimits(files: seq<IncomingFile>, limits: Limits, filter: IncomingFile -> Result<bool>)
    requires Admission(files, limits, filter).None?
    ensures limits.maxFiles.Some? ==> |files| <= limits.maxFiles.value
    ensures forall i :: 0 <= i < |files| ==>
              && files[i].fieldname in limits.fields
              && CountField(files[..i + 1], files[i].fieldname) <= limits.fields[files[i].fieldname]
              && filter(files[i]).Ok?
              && files[i].size <= limits.maxFileSize
    decreases |files|
  {
    if |files| > 0 {
      var before := files[..|files| - 1];
      AdmittedWithinLimits(before, limits, filter);
      forall i | 0 <= i < |files|
        ensures && files[i].fieldname in limits.fields
                && CountField(files[..i + 1], files[i].fieldname) <= limits.fields[files[i].fieldname]
                && filter(files[i]).Ok?
                && files[i].size <= limits.maxFileSize
      {
        if i < |files| - 1 {
          assert files[..i + 1] == before[..i + 1];
          assert files[i] == before[i];
        } else {
          assert files[..i + 1] == files;
        }
      }
    }
  }

  /** An admitted batch holds, per declared field, no more files than the field allows. */
  lemma {:induction false} AdmittedFieldCounts(files: seq<IncomingFile>, limits: Limits, filter: IncomingFile -> Result<bool>, field: string)
    requires Admission(files, limits, filter).None? && field in limits.fields
    ensures CountField(files, field) <= limits.fields[field]
    decreases |files|
  {
    if |files| > 0 {
      AdmittedFieldCounts(files[..|files| - 1], limits, filter, field);
    }
  }

  /** A file of an undeclared field never gets through. */
  lemma {:induction false} AdmittedFieldsDeclared(files: seq<IncomingFile>, limits: Limits, filter: IncomingFile -> Result<bool>, field: string)
    requires Admission(files, limits, filter).None? && field !in limits.fields
    ensures CountField(files, field) == 0
    decreases |files|
  {
    if |files| > 0 {
      AdmittedFieldsDeclared(files[..|files| - 1], limits, filter, field);
    }
  }

  /** An eleventh detail image is refused before processing, as a server error (500):
      multer's code for it is not the size limit and its message is not a type error. */
  lemma EleventhDetailImageIs500(files: seq<IncomingFile>, nodeEnv: Option<string>)
    requires |files| == 11 && forall i :: 0 <= i < 11 ==> files[i].fieldname == "productDetailsImages"
    requires forall i :: 0 <= i < 11 ==> FileFilter(files[i]).Ok? && files[i].size <= MaxFileSize
    ensures Admission(files, ProductLimits, FileFilter) == Some(UploadError(true, Some("LIMIT_UNEXPECTED_FILE"), "Unexpected field"))
    ensures ClassifyUploadError(Admission(files, ProductLimits, FileFilter).value, nodeEnv, ProductRoute).status == 500
  {
    var ten := files[..10];
    AllDetailsAdmitted(files, 10);
    assert Admission(ten, ProductLimits, FileFilter).None?;
    CountAllSame(ten, "productDetailsImages");
    assert Contains("Unexpected field", "Invalid file type") == false by {
      NotContainsLonger("Unexpected field", "Invalid file type");
    }
  }

  lemma {:induction false} AllDetailsAdmitted(files: seq<IncomingFile>, n: nat)
    requires n <= 10 && n <= |files|
    requires forall i :: 0 <= i < |files| ==> files[i].fieldname == "productDetailsImages"
    requires forall i :: 0 <= i < |files| ==> FileFilter(files[i]).Ok? && files[i].size <= MaxFileSize
    ensures Admission(files[..n], ProductLimits, FileFilter).None?
    decreases n
  {
    if n > 0 {
      AllDetailsAdmitted(files, n - 1);
      assert files[..n][..n - 1] == files[..n - 1];
      CountAllSame(files[..n - 1], "productDetailsImages");
    }
  }

  lemma {:induction false} CountAllSame(files: seq<IncomingFile>, field: string)
    requires forall i :: 0 <= i < |files| ==> files[i].fieldname == field
    ensures CountField(files, field) == |files|
    decreases |files|
  {
    if |files| > 0 {
      CountAllSame(files[..|files| - 1], field);
    }
  }

  lemma {:induction false} NotContainsLonger(s: string, sub: string)
    requires |s| < |sub|
    ensures !Contains(s, sub)
    decreases |s|
  {
    if |s| > 0 { NotContainsLonger(s[1..], sub); }
  }

  // ---------------------------------------------------------------------------
  // The processing summary of uploadProductImages

  /** `req.files` after a product upload: the arrays multer filled, per field. */
  datatype ProductFiles = ProductFiles(productImage: Option<seq<StoredFile>>, productDetailsImages: Option<seq<StoredFile>>)

  datatype SummaryEntry = SummaryEntry(name: string, sizeBytes: nat, width: nat, height: nat, watermark: string, urls: Urls)

  datatype ProcessingSummary = ProcessingSummary(totalFiles: nat, files: seq<SummaryEntry>, message: string)

  const SummaryMessage: string := "تمام عکس‌ها با واترمارک \"رایان زعفران\" آپلود شدند"

  /** One summary entry: name, size, dimensions, the watermark label and the URLs. */
  function EntryFor(f: StoredFile): SummaryEntry {
    SummaryEntry(f.originalname, f.size, f.cloudinary.width, f.cloudinary.height, WatermarkLabel, f.cloudinary.urls)
  }

  /** `req.imageProcessing`: the main image first, then the detail images in arrival order. */
  function Summarize(files: ProductFiles): (s: ProcessingSummary)
    ensures var main, details := files.productImage.GetOr([]), files.productDetailsImages.GetOr([]);
            && s.totalFiles == |s.files| == |main| + |details|
            && (forall i :: 0 <= i < |main| ==> s.files[i] == EntryFor(main[i]))
            && (forall j :: 0 <= j < |details| ==> s.files[|main| + j] == EntryFor(details[j]))
    ensures forall i :: 0 <= i < |s.files| ==> s.files[i].watermark == WatermarkLabel
  {
    var all := files.productImage.GetOr([]) + files.productDetailsImages.GetOr([]);
    ProcessingSummary(|all|, seq(|all|, i requires 0 <= i < |all| => EntryFor(all[i])), SummaryMessage)
  }

  /** What the product upload middleware does once multer is done. */
  datatype UploadOutcome = Respond(reply: ErrorReply) | Continue(summary: Option<ProcessingSummary>)

  /** Any upload error ends the request with a reply before the controller runs,
      so no document refers to a partial batch; otherwise `next()` runs, with a summary when `req.files` is set. */
  function AfterProductUpload(err: Option<UploadError>, files: Option<ProductFiles>, nodeEnv: Option<string>): (o: UploadOutcome)
    ensures err.Some? <==> o.Respond?
    ensures err.Some? ==> o.reply == ClassifyUploadError(err.value, nodeEnv, ProductRoute)
    ensures err.None? ==> o.summary == (if files.Some? then Some(Summarize(files.value)) else None)
  {
    match err
    case Some(e) => Respond(ClassifyUploadError(e, nodeEnv, ProductRoute))
    case None => Continue(if files.Some? then Some(Summarize(files.value)) else None)
  }
}
