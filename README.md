# Rayan Saffron store backend — a verified model of its core

The backend serves a saffron shop. Products and blog posts carry multilingual
texts (English, Persian, Arabic) and watermarked images. Customers submit orders,
and each order is announced to the shop through a Telegram message. Accounts use
JWT bearer tokens; the first account registered becomes the administrator.

This project models the core of that backend in Dafny and proves properties of
the model:

- **the product image pipeline** (`utils/upload.js`):
  - the admission filter and multer's limits;
  - the target size per image role, and the encoder and watermark settings;
  - the folder routing, the public id, the upload options and the derived-size URLs;
  - the per-file handler with its two temporary files;
  - the error replies and the processing summary;
- **the blog image pipeline** (`utils/blogUplaod.js`): its filter and limits, its
  error middleware, and the image processing loop that stops at the first failure;
- **localisation** (`utils/localizeProduct.js`, `utils/localizeBlog.js`): the
  `lang → en → ''` fallback and the per-document projections;
- **the authentication middleware and controller**:
  - bearer-token extraction, and the `auth` and `admin` gates;
  - registration, login, listing and deletion of users;
- **orders**: submission with its Telegram text, listing and cancellation;
- **the product and blog controllers**:
  - how the parsed `data` field and the uploaded files' URLs become the stored document;
  - the schema casts, defaults and `required` rules;
  - the update merge, and the not-found paths.

Every external service is a function-typed parameter that either yields a value
or fails with a message. That covers sharp, Cloudinary, the file system, bcrypt,
jsonwebtoken, `JSON.parse` and the Telegram bot. The clock (`Date.now()`) and
`Math.random()` are plain parameters. Each MongoDB collection is a sequence of
documents with a counter that hands out ids; a route parameter is matched
against an id's decimal text.

Where the code changes state step by step, the model does the same:

- the temporary directory, `TempArea`;
- `processBlogImages`' loop;
- the user, order, product and blog stores, which are classes with `modifies`
  clauses.

Each such method is proved equal to a specification function over the old
state. The lemmas then state what the source promises about those functions.

Modules:

- `Wrappers`: Option and Result, shared helpers.
- `Strings`: split, join, decimal text and substring search, shared helpers.
- `Ids`: lookup by id and removal, shared by the four collections.
- `Lang`, `Documents`: `t`, `lang` selection, and the Mongoose schema shapes.
- `Localized`, `LocalizeProduct`, `LocalizeBlog`: the two localisation helpers.
- `Upload`: `utils/upload.js`.
- `BlogUpload`: `utils/blogUplaod.js`.
- `AuthMiddleware`: `Middleware/authMiddleware.js`.
- `AuthController`: `controllers/authController.js`.
- `OrderController`: `controllers/orderController.js`.
- `ProductController`: `controllers/productController.js`.
- `BlogController`: `controllers/blogController.js`.

Two behaviours of the code are easy to misread:

- `utils/upload.js` routes the field `blogImages` to its own Cloudinary folder
  (line 241), but its size rule has no case for it (lines 58-67), so it gets
  the default 800-pixel width ceiling. Only the separate blog pipeline in
  `utils/blogUplaod.js` resizes to 1200 pixels.
- An eleventh product detail image is refused by multer with
  `LIMIT_UNEXPECTED_FILE`. That is neither the size limit nor a type error, so
  the product route answers 500, not 400 (`Upload.EleventhDetailImageIs500`).

## Model

| member | source | states |
|---|---|---|
| Lang.T | utils/localizeProduct.js:1 | `obj?.[lang] ?? obj?.en ?? fallback`: the requested language when stored, else English when stored, else the fallback; an absent object gives the fallback |
| Lang.TIsStoredOrFallback | utils/localizeBlog.js:4 | the selected text is always one of the object's stored texts or the fallback |
| Lang.EmptyTextIsAHit | utils/localizeProduct.js:1 | `??` only skips null/undefined: an empty text in the requested language is returned even when English exists |
| Lang.LangOf | controllers/blogController.js:7 | `req.query.lang`, or `'en'` when it is falsy: a non-empty query is used as given, an absent or empty one selects English; the result is never empty |
| Localized.LocalizeImages | utils/localizeProduct.js:12-15 | a missing image array becomes `[]`; otherwise same length and order, each URL unchanged and each alt localised with `t` |
| Localized.MissingAltIsEmpty | utils/localizeBlog.js:14 | an image without `alt` localises to the empty alt |
| LocalizeProduct.LocalizeProduct | utils/localizeProduct.js:3-19 | id, amount, prices, stock, main image and dates copied unchanged; name, description and type localised with `t`; details localised element-wise |
| LocalizeProduct.LocalizeProducts | utils/localizeProduct.js:21 | same length, element i is `localizeProduct(products[i], lang)` |
| LocalizeProduct.LocalizeProductsKeepsIds | utils/localizeProduct.js:21 | two localised products share an id exactly when the originals do |
| LocalizeProduct.LocalizeProductsAppend | utils/localizeProduct.js:21 | localising a concatenation is concatenating the localised parts |
| LocalizeBlog.LocalizeBlog | utils/localizeBlog.js:7-18 | id, main image and dates copied; title and content localised; gallery localised element-wise |
| LocalizeBlog.LocalizeBlogs | utils/localizeBlog.js:21 | same length, element i is `localizeBlog(blogs[i], lang)` |
| LocalizeBlog.LocalizeBlogsAppend | utils/localizeBlog.js:21 | localising a concatenation is concatenating the localised parts |
| LocalizeBlog.MissingLanguageReadsAsEnglish | utils/localizeBlog.js:4-18 | a post whose texts and alts lack a language but have English reads in that language exactly as in English |
| Documents.CastText | models/productModel.js:5-9 | casting a multilingual value keeps exactly the declared `en`/`fa`/`ar` keys with their texts |
| Documents.CastTextReadsTheSame | models/blogModel.js:5-16 | for a declared language the cast does not change what `t` shows |
| Documents.CastImage | models/productModel.js:51-58 | an image entry keeps its URL and has its alt cast |
| Documents.CastImages | models/blogModel.js:24-31 | an image array keeps its length and order, each entry cast |
| Documents.RequiredText | models/blogModel.js:5-16 | the `required: true` rule on a multilingual text: the value is present and its English and Persian texts are both non-empty |
| Ids.FindById | controllers/blogController.js:22 | `findById`: none exactly when no id reads as the parameter; otherwise the first position whose id does |
| Ids.IdTextInjective | controllers/productController.js:25 | distinct ids have distinct texts, so a parameter names at most one document |
| Ids.FindByIdSameIds | controllers/orderController.js:68-71 | collections with the same ids in the same order resolve a parameter to the same position |
| Ids.FindByIdUnique | controllers/blogController.js:22 | with unique ids, the document whose id reads as the parameter is the one found |
| Ids.RemoveAt | controllers/blogController.js:107 | `findByIdAndDelete`'s removal: one fewer element, the others in their order |
| Upload.ExtName | utils/upload.js:256 | `path.extname`: empty, or a dot followed by characters free of `/` and `.` |
| Upload.StripTrailingSlashes | utils/upload.js:256 | `path.extname` first drops trailing `/` characters (definition, no contract) |
| Upload.LastSegment | utils/upload.js:256 | the base name contains no `/` |
| Upload.LastIndex | utils/upload.js:256 | none exactly when the character is absent; otherwise a position holding it with none after |
| Upload.FileFilter | utils/upload.js:251-263 | accepted iff the MIME type is one of the five and the extension matches the case-insensitive pattern matching jpeg, jpg, png, webp or gif; a refusal carries "Invalid file type. Only … are allowed." |
| Upload.AcceptedNameHasExtension | utils/upload.js:253-256 | an accepted name has an extension of a dot and at least three characters |
| Upload.NoExtensionRefused | utils/upload.js:256-262 | a name without an extension is refused whatever its MIME type |
| Upload.LastDotOf | utils/upload.js:256 | in a name whose extension has one dot, the last dot is where the extension starts |
| Upload.PlainName | utils/upload.js:256 | a name without `/` is its own base name |
| Upload.ExtNameOf | utils/upload.js:256 | `extname(stem + ".ext")` is `.ext` for a non-empty, slash-free stem |
| Upload.DotFileRefused | utils/upload.js:256-262 | a dot-file such as `.png` has no extension and is refused |
| Upload.UpperCaseUnanchoredAccepted | utils/upload.js:253-259 | the test is case-insensitive and unanchored: `photo.JPGX` of type image/jpeg is accepted |
| Upload.UpperCaseExtensionMatches | utils/upload.js:253 | `.JPGX` matches the extension pattern |
| Upload.ExtensionAllowed | utils/upload.js:253-256 | `/jpeg|jpg|png|webp|gif/i.test(ext)`: one of the five names occurs anywhere in the lower-cased extension (definition, no contract) |
| Upload.WidthCeiling | utils/upload.js:55-67 | 1200 for `productImage`, 1000 for `productDetailsImages`, 800 for every other field |
| Upload.TargetWidth | utils/upload.js:58-67 | `min(width, ceiling)`: never above the ceiling or the source width, and the source width exactly when it fits |
| Upload.RoundHalfUp | utils/upload.js:70 | `Math.round` of a non-negative quotient: the nearest integer, halves rounded up |
| Upload.TargetHeight | utils/upload.js:70 | `Math.round(targetWidth / width * height)` (definition; its properties are `UnscaledKeepsHeight`, `AspectPreserved` and `HeightNotEnlarged`) |
| Upload.UnscaledKeepsHeight | utils/upload.js:70 | an image at or below its ceiling keeps its height |
| Upload.RoundExact | utils/upload.js:70 | rounding an exact quotient gives the quotient |
| Upload.AspectPreserved | utils/upload.js:70 | the computed height keeps the aspect ratio to within half a pixel |
| Upload.HeightNotEnlarged | utils/upload.js:70 | a downscale never increases the height |
| Upload.EncoderFor | utils/upload.js:84-130 | png and gif → palette PNG (85, 9); webp → WebP (82, 6, 80); anything else → mozjpeg JPEG (85, 4:4:4) |
| Upload.EncodePlanFor | utils/upload.js:73-130 | resize to the target size, `contain` on white without enlargement; the 250×40 watermark south-east at 10/10; sharpen 0.5 exactly for JPEG |
| Upload.FormatPolicy | utils/upload.js:84-115 | palette formats are never re-encoded as JPEG, and unknown formats always are |
| Upload.MainPhotoScenario | utils/upload.js:58-70 | a 2000×1000 JPEG main photo is planned as a 1200×600 JPEG |
| Upload.CloudinaryFolder | utils/upload.js:233-248 | every folder is under `rayan-saffron/afghanistan/`, with one folder per known field and `general` otherwise |
| Upload.FoldersDistinct | utils/upload.js:236-246 | distinct known fields never share a folder |
| Upload.PublicIdFor | utils/upload.js:144 | the public id starts with `rayan-saffron-` |
| Upload.PublicIdInjective | utils/upload.js:144 | equal public ids mean equal clock readings and equal random suffixes |
| Upload.UploadOptionsFor | utils/upload.js:146-157 | the role's folder, the given public id, resource type image, `auto:good` and `auto` delivery, and the three tags |
| Upload.VariantUrls | utils/upload.js:160-183 | the original URL plus 400/800/1200-wide `limit` renderings of the same asset |
| Upload.StoredFileFor | utils/upload.js:190-208 | the file record multer receives, with MIME type `image/<format>` and `jpeg` when the format is absent |
| Upload.TempPath | utils/upload.js:38-39 | `<tmpdir>/<prefix>-<Date.now()>-<originalname>` (definition, no contract) |
| Upload.TempPathsDistinct | utils/upload.js:38-39 | the original and optimized temp paths never coincide |
| Upload.Pipeline | utils/upload.js:50-208 | success exactly when every stage succeeds, yielding the record built from the upload result and the optimized size; otherwise the error of the first failing stage, in the order inspect, encode, write, stat of the original, stat of the optimized file, upload |
| Upload.ProcessingFailed | utils/upload.js:214 | stage failures reach multer prefixed with "Image processing failed: " |
| Upload.TempArea.Unlink | utils/upload.js:186 | removes the path from the temp directory, and ignores a missing one |
| Upload.TempArea.Write | utils/upload.js:43 | creates the path |
| Upload.TempArea.Process | utils/upload.js:50-183 | the step-by-step stages give exactly `Pipeline`; at most the optimized temp file is added |
| Upload.TempArea.HandleFile | utils/upload.js:36-216 | an open failure returns its error and creates nothing; a write failure after the open returns its error with the original temp file left behind; a finished write removes both temp files and returns `Pipeline`'s result, prefixed on failure |
| Upload.TempArea.HandleFileCleaned | utils/upload.js:36-216 | the corrected handler: never adds a temp file; after an open failure nothing changed, and every other exit removes both temp files; the results are `HandleFile`'s |
| Upload.WriteErrorLeavesOriginal | utils/upload.js:43-46 | scenario: a write error after the open returns `ENOSPC` with the original temp file still in the temp directory (no contract) |
| Upload.ClassifyUploadError | utils/upload.js:349-370 | `handleUploadError`, whose rule the product route repeats inline at lines 284-305: 400 exactly for `LIMIT_FILE_SIZE` or an "Invalid file type" message, otherwise 500; the size message, the route's type-rejection text or its failure text accordingly; the detail is shown only in development |
| Upload.InvalidTypeReply | utils/upload.js:357-362 | the type-rejection text: with the format list on the product route (line 295), without it in `handleUploadError` (definition, no contract) |
| Upload.FailedReply | utils/upload.js:364-369 | the failure text: "آپلود عکس ناموفق بود" on the product route (line 302), "آپلود ناموفق بود" in `handleUploadError` (definition, no contract) |
| Upload.FilterRejectionIsClientError | utils/upload.js:292-297 | a file the filter refuses is answered 400 on either route |
| Upload.CountField | utils/upload.js:278-281 | a field's count never exceeds the batch size |
| Upload.Admission | utils/upload.js:266-281 | multer's first refusal for a batch, checked file by file on arrival (definition; its properties are the `Admitted…` lemmas) |
| Upload.AdmitOne | utils/upload.js:266-281 | one arriving file: too many files, an undeclared or full field (`LIMIT_UNEXPECTED_FILE`), the filter's error, then the 10 MB size, in that order (definition, no contract) |
| Upload.AdmittedWithinLimits | utils/upload.js:266-281 | an admitted batch respects the file count and size limits, declares every field and passed the filter file by file |
| Upload.AdmittedFieldCounts | utils/upload.js:278-281 | an admitted batch holds at most `maxCount` files per declared field |
| Upload.AdmittedFieldsDeclared | utils/upload.js:278-281 | no file of an undeclared field is admitted |
| Upload.EleventhDetailImageIs500 | utils/upload.js:280-304 | eleven valid detail images are refused with `LIMIT_UNEXPECTED_FILE`, answered 500 |
| Upload.Summarize | utils/upload.js:308-324 | one entry per file, main image first and then the details in order, each watermarked "© Rayan Saffron" |
| Upload.EntryFor | utils/upload.js:316-322 | one summary entry: name, size, width and height, the "© Rayan Saffron" label and the URLs (definition, no contract) |
| Upload.AfterProductUpload | utils/upload.js:283-332 | an error ends the request with the classified reply; otherwise the summary is attached when files exist |
| BlogUpload.BlogFileFilter | utils/blogUplaod.js:16-23 | accepted iff the MIME type is one of the five, with no extension check; refusals carry the filter's message |
| BlogUpload.BlogFilterWeaker | utils/blogUplaod.js:16-23 | every file the product filter accepts is accepted here, and so is an allowed type without extension |
| BlogUpload.AdmittedBlogBatch | utils/blogUplaod.js:29-36 | an admitted batch has at most one main image, five gallery images, six files in all |
| BlogUpload.AdmittedFieldsOnly | utils/blogUplaod.js:33-36 | an admitted batch consists of the two declared fields only |
| BlogUpload.HandleMulterError | utils/blogUplaod.js:39-58 | any error is answered 400: multer's size error with "File too large. Maximum size is 10MB", others with their own message; no error reaches `next()` |
| BlogUpload.RefusedTypeReply | utils/blogUplaod.js:16-58 | a refused MIME type is answered 400 with the filter's message |
| BlogUpload.PublishOne | utils/blogUplaod.js:84-101 | one image succeeds exactly when the re-encoding and the upload both succeed, yielding the secure URL |
| BlogUpload.PublishAll | utils/blogUplaod.js:104-124 | the gallery loop on values: publishes image after image and stops at the first failure (definition; its contract is `PublishAllSpec`) |
| BlogUpload.PublishAllSpec | utils/blogUplaod.js:104-124 | without failure one URL per image in order; with one, exactly the URLs before the failing image |
| BlogUpload.PublishAllStops | utils/blogUplaod.js:127-131 | once an image has failed, later images change nothing |
| BlogUpload.ProcessSpec | utils/blogUplaod.js:72-132 | `processBlogImages` on values: `{}` without files, else the main URL and the gallery run (definition; the method and `ProcessedAll`, `FailureStopsAtFirst` state its properties) |
| BlogUpload.ProcessBlogImages | utils/blogUplaod.js:72-132 | the loop computes exactly the specified outcome: `{}` when nothing was sent, the main URL, the gallery until the first failure |
| BlogUpload.ProcessedAll | utils/blogUplaod.js:84-127 | a successful run records the main image when sent and one gallery URL per image in order |
| BlogUpload.FailureStopsAtFirst | utils/blogUplaod.js:104-131 | on failure the image right after the recorded URLs is the one that failed |
| AuthMiddleware.BearerToken | Middleware/authMiddleware.js:14 | `split(' ')[1]` contains no space |
| AuthMiddleware.SplitAfterBearer | Middleware/authMiddleware.js:14 | splitting `Bearer <rest>` yields `Bearer` followed by the split of the rest |
| AuthMiddleware.TokenIsFirstWord | Middleware/authMiddleware.js:14 | the token is the first space-separated word after `Bearer ` |
| AuthMiddleware.TokenBeforeSpace | Middleware/authMiddleware.js:14 | whatever follows the next space is ignored |
| AuthMiddleware.TokenExamples | Middleware/authMiddleware.js:14 | `Bearer a b` carries `a`; a double space carries the empty token |
| AuthMiddleware.Authenticate | Middleware/authMiddleware.js:4-26 | passes exactly when the header starts with `Bearer ` and the token verifies, with the decoded claims; 401 with the matching message otherwise |
| AuthMiddleware.LowerCaseSchemeRefused | Middleware/authMiddleware.js:9 | `bearer x` counts as no token |
| AuthMiddleware.Request.Auth | Middleware/authMiddleware.js:4-26 | on success `req.user` is set and `next` runs once; on refusal neither happens |
| AuthMiddleware.Admin | Middleware/authMiddleware.js:29-33 | passes exactly for role `admin`, 403 for other roles, and throws with no user |
| AuthMiddleware.Request.AuthThenAdmin | Middleware/authMiddleware.js:4-33 | `auth` then `admin` on one request: no denial exactly when the token verifies and its role is `admin`, with `next` run twice; a refused token is `auth`'s 401 with nothing set; a verified non-admin is 403 "Admin access required" after `req.user` is set and the first `next` ran |
| AuthController.RoleName | controllers/authController.js:32 | the role text is `admin` exactly for the admin role |
| AuthController.NewUser | models/userModel.js:3-10 | the created user holds the given names, hash and role, an empty cart and address, and both timestamps at the creation time |
| AuthController.Public | controllers/authController.js:52-58 | the returned user is the id, username, email, role and cart; the password, address and timestamps are not returned |
| AuthController.TokenFor | controllers/authController.js:6-12 | `generateToken`: the signed claims `{ id, email, role }`, or the signer's error (definition, no contract) |
| AuthController.Valid | models/userModel.js:4-7 | the unique indexes on id, email and username, ids below the counter, and at most one admin (definition; kept by `RegisterKeepsValid` and `DeleteKeepsValid`) |
| AuthController.Taken | controllers/authController.js:25-28 | `findOne({ $or: [{ email }, { username }] })` finds a user (definition, no contract) |
| AuthController.RegisterSpec | controllers/authController.js:15-64 | `register` on values (definition; its contract is `RegisterOutcome`) |
| AuthController.RegisterOutcome | controllers/authController.js:15-64 | missing fields → 400, taken email or username → 400, hash failure → 500, all without change; otherwise exactly one user is appended, admin exactly when the store was empty, answered 201 with the token, or 500 when signing fails with the user already stored |
| AuthController.RetryAfterSignFailure | controllers/authController.js:38-64 | after a registration stored its user but failed to sign, sending it again is refused as "User already exists" |
| AuthController.RegisterKeepsValid | controllers/authController.js:25-43 | registration keeps ids, emails and usernames unique and at most one admin |
| AuthController.FindByEmail | controllers/authController.js:76 | `findOne({ email })`: none exactly when no user has it, otherwise the first |
| AuthController.Login | controllers/authController.js:66-105 | succeeds exactly for present fields, a known email, a password `compare` accepts and a token that can be signed; 400 for missing fields, 401 "Invalid credentials" for an unknown email or a rejected password, 500 with the error when `compare` or signing fails |
| AuthController.LoginFailureUniform | controllers/authController.js:77-85 | an unknown email and a wrong password give the same reply |
| AuthController.LoginFindsOwner | controllers/authController.js:76-101 | in a valid store a user's own email and matching password log that user in |
| AuthController.AllUsers | controllers/authController.js:108-119 | every user in order with every stored field but the password (id, names, role, cart, address, timestamps), and their count |
| AuthController.Listed | controllers/authController.js:110 | `select('-password')` keeps every other stored field unchanged |
| AuthController.DeleteSpec | controllers/authController.js:122-143 | `deleteUser` on values (definition; its contract is `DeleteOutcome`) |
| AuthController.DeleteOutcome | controllers/authController.js:122-143 | self-deletion → 400 and an unknown id → 404, both without change; any other id naming a user → "User deleted successfully", with exactly that user gone and all others kept |
| AuthController.RemoveFound | controllers/authController.js:131 | removing the one user with an id leaves no user with it and keeps every other user |
| AuthController.RemoveKeepsValid | controllers/authController.js:131 | removal keeps the store's uniqueness and single-admin rules |
| AuthController.DeleteKeepsValid | controllers/authController.js:122-143 | deletion keeps the store valid |
| AuthController.UserStore.constructor | models/userModel.js:3-10 | a new store is empty and valid |
| AuthController.UserStore.Register | controllers/authController.js:15-64 | the store and reply are exactly `RegisterSpec`'s |
| AuthController.UserStore.DeleteUser | controllers/authController.js:122-143 | the store and reply are exactly `DeleteSpec`'s |
| AuthController.FirstUserIsAdmin | controllers/authController.js:30-32 | scenario: on a fresh store the first registration is an admin and the second a customer (no contract) |
| OrderController.OrderCode | controllers/orderController.js:15 | the code is 1 to 8 decimal digits whose value is `floor(random · 10^8)` |
| OrderController.ProductLine | controllers/orderController.js:30 | `${p.productname} (${p.type})` (definition, no contract) |
| OrderController.ProductLines | controllers/orderController.js:29-31 | one `name (type)` line per product, in order |
| OrderController.ProductsTextLines | controllers/orderController.js:29-31 | the joined text splits back into exactly those lines |
| OrderController.ProductsText | controllers/orderController.js:29-31 | the lines joined with `\n` (definition; see `ProductsTextLines`) |
| OrderController.HeaderText | controllers/orderController.js:33-41 | the template text before the products (definition; see `HeaderTextLines`) |
| OrderController.NotificationMessage | controllers/orderController.js:33-43 | the whole Telegram text (definition; see `NotificationLines`) |
| OrderController.HeaderTextLines | controllers/orderController.js:33-41 | the template's header block splits into an empty line, the heading and one labelled line per field |
| OrderController.NotificationLines | controllers/orderController.js:33-43 | the whole message is, line by line, the header, one line per product and a final empty line |
| OrderController.SchemaValid | models/orderModel.js:3-16 | every `required` field present, strings non-empty, and every product with name and type (definition, no contract) |
| OrderController.NewOrder | controllers/orderController.js:17-26 | the stored order has the given id and time, is not cancelled, and has one product entry per product sent |
| OrderController.SubmitSpec | controllers/orderController.js:7-52 | `submitOrder` on values (definition; its contract is `SubmitOutcome`) |
| OrderController.SubmitOutcome | controllers/orderController.js:7-52 | no products → 400 without change; a non-empty body the schema rejects → 500 "Order validation failed", storing nothing; a valid one stores exactly one new order, sends `NotificationMessage` for it with the order code, and answers 201 with `OrderCode(random)` when the send succeeds, 500 with the bot's error otherwise, the order kept |
| OrderController.CodeNotStored | controllers/orderController.js:15-26 | the stored collection does not depend on the random draw |
| OrderController.CancelSpec | controllers/orderController.js:64-81 | `cancel` on values (definition; its contract is `CancelOutcome`) |
| OrderController.CancelOutcome | controllers/orderController.js:64-81 | an unknown id or an already cancelled order ↔ 404 "Order not found or already cancelled" without change; a matching uncancelled order has its flag set, nothing else changes, and the reply is "Order cancelled successfully" |
| OrderController.CancelTwice | controllers/orderController.js:68-75 | a second cancellation is 404 and changes nothing |
| OrderController.GetOrders | controllers/orderController.js:54-62 | `getOrders`: the stored collection (definition; its lemmas are `GetOrdersAfterSubmit` and `GetOrdersAfterCancel`) |
| OrderController.GetOrdersAfterSubmit | controllers/orderController.js:17-57 | after a valid order is stored the listing is the old one followed by that uncancelled order under the next id, even when the notification failed |
| OrderController.GetOrdersAfterCancel | controllers/orderController.js:54-81 | after a successful cancel the listing has the same orders in the same places except the named one, now cancelled; after a refused cancel it is unchanged |
| OrderController.OrderStore.SubmitOrder | controllers/orderController.js:7-52 | the store and reply are exactly `SubmitSpec`'s |
| OrderController.OrderStore.Cancel | controllers/orderController.js:64-81 | the store and reply are exactly `CancelSpec`'s |
| OrderController.CancelOnce | controllers/orderController.js:64-81 | scenario: an order just submitted is cancelled once, and the second cancellation is refused (no contract) |
| ProductController.DetailImages | controllers/productController.js:46-51 | one detail image per uploaded file, in order, with the file's URL and the blank alt |
| ProductController.UploadedDetailsReadBlank | controllers/productController.js:47-50 | uploaded details survive the schema cast unchanged and read as an empty alt in every language |
| ProductController.WithUploads | controllers/productController.js:42-52 | a main file sets `productImage` to the first file's URL, detail files replace the details, absent fields keep the client's values; no `req.files` or an empty main list is a TypeError |
| ProductController.CastProduct | models/productModel.js:3-68 | texts and detail alts are cast into the schema, all else is unchanged |
| ProductController.Defaults | models/productModel.js:12-67 | missing amount → 1, stock → 0, details → `[]`, dates → now; values the draft carries are kept |
| ProductController.ProductValid | models/productModel.js:3-58 | the schema's `required` rules: the name's English and Persian texts, the main image URL, and each detail image's URL (definition, no contract) |
| ProductController.CreateSpec | controllers/productController.js:37-62 | `createProduct` on values (definition; its contract is `CreateOutcome`) |
| ProductController.CreateOutcome | controllers/productController.js:37-62 | a failure is a 400 that stores nothing; success exactly when the data parses, the files are read, a main file exists and the built document is `ProductValid`, and then exactly that document is appended under a fresh id, with the uploaded main image and, if sent, the uploaded details |
| ProductController.CreateRequiresMainImage | controllers/productController.js:54 | without an uploaded main image creation is a 400 without change, whatever the client's data says |
| ProductController.CreateKeepsValid | controllers/productController.js:55-56 | creation keeps ids unique and below the counter |
| ProductController.Merge | controllers/productController.js:82-86 | `findByIdAndUpdate` with a plain object: each field the patch sets replaces the stored one (definition; see `MergeLaws`) |
| ProductController.MergeLaws | controllers/productController.js:82-86 | an empty patch changes nothing, and a patch applied twice equals one application |
| ProductController.RawUpdate | controllers/productController.js:68 | the `data` field, or `'{}'` when it is falsy |
| ProductController.UpdatePatch | controllers/productController.js:84 | the patch always stamps `updatedAt` with the current time |
| ProductController.UpdateSpec | controllers/productController.js:65-94 | `updateProduct` on values (definition; its contract is `UpdateOutcome`) |
| ProductController.UpdateOutcome | controllers/productController.js:65-94 | at most the one document with the id is rewritten, keeping its id and stamped with the time; a parse failure and a missing `req.files` are 400 with their message; a 404 means no document has the id; failures change nothing; an update happens only once data and files are read, and then a known id is rewritten to `Merge(stored, UpdatePatch(…))` |
| ProductController.UnknownIdIs404 | controllers/productController.js:88 | once the data parsed and the files were read, an unknown id is 404 "Product not found" without change |
| ProductController.UpdateWithoutDataOnlyStamps | controllers/productController.js:68-86 | no data and no files refreshes `updatedAt` and nothing else |
| ProductController.UpdateKeepsClientDetails | controllers/productController.js:75-80 | without detail files the details become the client's if sent, else stay |
| ProductController.UpdateTwiceIsOnce | controllers/productController.js:82-86 | the same update twice at the same time leaves the catalog as once |
| ProductController.UpdateDoesNotValidate | controllers/productController.js:82-86 | the update runs no validator: a product can lose its English name |
| ProductController.UpdateKeepsValid | controllers/productController.js:82-86 | updating keeps ids unique and below the counter |
| ProductController.ProductStore.CreateProduct | controllers/productController.js:37-62 | the field-by-field assembly gives exactly `CreateSpec`'s state and reply |
| ProductController.ProductStore.UpdateProduct | controllers/productController.js:65-94 | the field-by-field assembly gives exactly `UpdateSpec`'s state and reply |
| BlogController.HasData | controllers/blogController.js:38 | `req.body.data` is truthy (definition, no contract) |
| BlogController.ParseBlogData | controllers/blogController.js:35-49 | the body itself unless `data` is set; an object is used as is; a text is parsed, and a parse failure is 'Invalid JSON data in form-data' |
| BlogController.GalleryImages | controllers/blogController.js:56-58 | one gallery entry per published URL, in order, without an alt |
| BlogController.WithUploads | controllers/blogController.js:52-59 | uploaded main image and gallery overwrite the data only when present; otherwise the client's values stay |
| BlogController.CastBlog | models/blogModel.js:3-36 | texts and gallery alts are cast into the schema, the rest is unchanged |
| BlogController.BlogDefaults | models/blogModel.js:24-34 | a missing gallery becomes `[]`, missing dates become now, the rest is kept |
| BlogController.BlogValid | models/blogModel.js:5-16 | the schema's `required` rules: title and content each with English and Persian texts (definition, no contract) |
| BlogController.CreateSpec | controllers/blogController.js:33-68 | `createBlog` on values (definition; its contract is `CreateOutcome`) |
| BlogController.CreateOutcome | controllers/blogController.js:33-68 | failures are 400 and store nothing, a bad JSON text with its message; success exactly when the data parses and the built post is `BlogValid`, and then exactly that post is appended under a fresh id |
| BlogController.CreateKeepsValid | controllers/blogController.js:61-62 | creation keeps ids unique and below the counter |
| BlogController.CreatedPostCarriesUploads | controllers/blogController.js:52-59 | after a successful image run a created post carries the published main image and exactly the published gallery, in upload order |
| BlogController.CreateWithoutUploadsKeepsClientImages | controllers/blogController.js:52-59 | with no uploads the post's images are the ones the client sent |
| BlogController.Merge | controllers/blogController.js:89-93 | each field the patch sets replaces the stored one (definition; see `MergeIdempotent`) |
| BlogController.MergeIdempotent | controllers/blogController.js:89-93 | a patch applied twice equals one application |
| BlogController.BlogPatchValid | controllers/blogController.js:89-93 | `runValidators` on the update: a title or content the patch sets must have its English and Persian texts, one it leaves out is not checked (definition, no contract) |
| BlogController.UpdatePatch | controllers/blogController.js:91 | the patch always carries the current time as `updatedAt` |
| BlogController.UpdateSpec | controllers/blogController.js:71-102 | `updateBlog` on values (definition; its contract is `UpdateOutcome`) |
| BlogController.UpdateOutcome | controllers/blogController.js:71-102 | at most the one post with the id is rewritten, stamped with the time; a bad JSON text → 400 'Invalid JSON data in form-data', a patch the validators refuse → 400 'Blog validation failed', a 404 means no post has the id, and failures change nothing; an update happens exactly when the data parses, the patch passes and the id is known, and writes `Merge(stored, UpdatePatch(…))` |
| BlogController.UnknownIdIs404 | controllers/blogController.js:95 | once the data parsed and the patch passed the validators, an unknown id is 404 "Blog not found" without change |
| BlogController.PartialTitleRefused | controllers/blogController.js:89-93 | a patch setting only an English title is refused 400 by the update validators, whichever post it names |
| BlogController.UpdateKeepsValid | controllers/blogController.js:89-93 | updating keeps ids unique and below the counter and every stored post meeting the `required` rules |
| BlogController.GetBlogs | controllers/blogController.js:5-14 | every post localised in the requested language, in order |
| BlogController.GetBlogById | controllers/blogController.js:17-30 | 404 'Blog not found' exactly when no post has the id; otherwise that post localised |
| BlogController.ReadBackCreated | controllers/blogController.js:22-25 | a created post read back without a `lang` is the created post in English |
| BlogController.DeleteSpec | controllers/blogController.js:105-115 | `deleteBlog` on values (definition; its contract is `DeleteOutcome`) |
| BlogController.DeleteOutcome | controllers/blogController.js:105-115 | 404 'Blog not found' exactly for an unknown id, without change; a known id → 'Blog deleted successfully' with exactly that one post removed |
| BlogController.DeletedIsGone | controllers/blogController.js:107-108 | after a deletion the post cannot be read again |
| BlogController.BlogStore.CreateBlog | controllers/blogController.js:33-68 | the step-by-step reassignment gives exactly `CreateSpec`'s state and reply |
| BlogController.BlogStore.UpdateBlog | controllers/blogController.js:71-102 | the store and reply are exactly `UpdateSpec`'s |
| BlogController.BlogStore.DeleteBlog | controllers/blogController.js:105-115 | the store and reply are exactly `DeleteSpec`'s |

## Left out

- Image processing and remote work: pixel decoding, resizing, compositing and encoding, the Cloudinary upload and URL strings, and `deleteImage`'s `destroy`. These belong to sharp and Cloudinary. The model keeps the settings records and the stages' results.
- Streaming: how multer reads multipart bodies, and the order in which the file handlers finish. Admission is modelled file by file in arrival order.
- `_removeFile` calls back without doing anything, so there is nothing to model.
- The outer `catch` of `_handleFile` (creating the write stream throws) is left out, since it depends on the file system's synchronous errors.
- The console logs and the savings percentage, including the summary's `finalSize` and `dimensions` strings. These are `toFixed` floating-point formatting; the summary keeps the numbers.
- Upload.RoundHalfUp: computed in exact arithmetic, where the source divides in floating point before `Math.round`.
- Upload.Pixels: the width and height sharp reports are assumed positive; a zero width would make line 70 compute `NaN`.
- Upload.PublicIdFor: the random suffix (`Math.random().toString(36)`) is a parameter.
- bcrypt, jsonwebtoken and the Telegram bot are abstract functions that may fail. Token expiry, and the secret, are part of `verify`.
- Mongo semantics beyond the modelled rules are not captured:
  - the casting of strings to numbers and dates;
  - `CastError` for an id that is not an ObjectId (500 or 400 in the source; the model has only the not-found path);
  - `null` written by a patch (treated as absent);
  - concurrent requests.
- JSON bodies that parse to a non-object (a number, `null`) are outside `parse`'s result type.
- AuthController.Taken, AuthController.RegisterSpec, AuthController.Login, AuthController.Valid: the schema lower-cases emails and trims usernames; the model compares them as sent, so "A@x.com" is free, and gets 401 at login, where the source treats it as "a@x.com".
- OrderController.SubmitSpec: the Mongoose validation message is the fixed text "Order validation failed"; the order's quantity is a natural number.
- ProductController.CreateSpec: the validation message is the fixed text "Product validation failed"; the TypeError messages are Node's wording.
- BlogController.UpdateSpec: the validation message is the fixed text "Blog validation failed".
- BlogController.CreateSpec: the validation message is the fixed text "Blog validation failed".
- `getProducts`, `getProductById` and `deleteProduct` are not part of this model. They are plain reads and a delete through `localizeProduct`; their blog counterparts are modelled.
- The route wiring (`server.js`, `routes/*`), the admin, feature and chat controllers, the OpenAI service and the database connection are not part of this model.
- In the blog route, the error `next(err)` of the image processing goes to Express's default handler, which is not modelled.

## Findings

| source | as written | input that shows it | evidently intended | confidence | as-written member | corrected member |
|---|---|---|---|---|---|---|
| utils/upload.js:43-47 | the write stream's `error` handler calls back without removing the original temp file it created | a write that fails after the stream has opened the original temp file (`ENOSPC`, `EIO`) | every exit of the handler removes both temp files, as the success and stage-failure paths do | not executed | Upload.TempArea.HandleFile, Upload.WriteErrorLeavesOriginal | Upload.TempArea.HandleFileCleaned |
