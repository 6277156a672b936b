/**
 * How controllers/productController.js turns a multipart request into a stored
 * product: the parsed `data` form field, overwritten by the uploaded files'
 * URLs, cast into the schema and saved (`createProduct`) or merged into the
 * stored document (`updateProduct`).
 *
 * `JSON.parse` is the parameter `parse`; the clock is the parameter `now`.
 * `files` is `req.files` as the product upload middleware leaves it: absent when
 * the request was not multipart, otherwise one entry per field that had files.
 */
module ProductController {
  import opened Wrappers
  import opened Lang
  import opened Documents
  import opened Ids
  import opened Localized
  import Upload

  /** `{ en: '', fa: '', ar: '' }`, the alt text of every uploaded detail image. */
  const BlankAlt: Translations := map["en" := "", "fa" := "", "ar" := ""]

  /** The detail images made from the uploaded detail files, in upload order. */
  function DetailImages(files: seq<Upload.StoredFile>): (r: seq<ImageRef>)
    ensures |r| == |files|
    ensures forall i :: 0 <= i < |r| ==> r[i].url == Some(files[i].path) && r[i].alt == Some(BlankAlt)
  {
    seq(|files|, i requires 0 <= i < |files| => ImageRef(Some(files[i].path), Some(BlankAlt)))
  }

  /** The blank alt survives the schema cast, so an uploaded detail image is
      stored with its file's URL and reads as an empty alt in every language. */
  lemma UploadedDetailsReadBlank(files: seq<Upload.StoredFile>, lang: string)
    ensures CastImages(Some(DetailImages(files))) == Some(DetailImages(files))
    ensures var shown := LocalizeImages(Some(DetailImages(files)), lang);
            |shown| == |files| &&
            forall i :: 0 <= i < |files| ==> shown[i] == LocalizedImage(Some(files[i].path), "")
  {
    var alt := CastText(Some(BlankAlt)).value;
    assert BlankAlt.Keys == SchemaLanguages;
    assert alt.Keys == BlankAlt.Keys;
    assert alt == BlankAlt;
    var imgs := DetailImages(files);
    var cast := CastImages(Some(imgs)).value;
    forall i | 0 <= i < |imgs| ensures cast[i] == imgs[i] { }
    assert cast == imgs;
  }

  // The TypeErrors the request handling can raise, which the catch answers with 400.
  const NoFilesError: string := "Cannot read properties of undefined (reading 'productImage')"
  const NoPathError: string := "Cannot read properties of undefined (reading 'path')"
  const NoMainImageError: string := "Cannot read properties of undefined (reading '0')"

  /** The draft after the two `if (req.files[...])` blocks of either handler. */
  function WithUploads(data: ProductData, files: Option<Upload.ProductFiles>): (r: Result<ProductData>)
    ensures files.None? ==> r == Err(NoFilesError)
    ensures files.Some? && files.value.productImage == Some([]) ==> r == Err(NoPathError)
    ensures r.Err? ==> files.None? || files.value.productImage == Some([])
    ensures r.Ok? ==> (files.value.productImage.Some? ==>
                         r.value.productImage == Some(files.value.productImage.value[0].path))
    ensures r.Ok? ==> (files.value.productImage.None? ==> r.value.productImage == data.productImage)
    ensures r.Ok? ==> (files.value.productDetailsImages.Some? ==>
                         r.value.productDetailsImages == Some(DetailImages(files.value.productDetailsImages.value)))
    ensures r.Ok? ==> (files.value.productDetailsImages.None? ==>
                         r.value.productDetailsImages == data.productDetailsImages)
    // no other field of the draft is touched
    ensures r.Ok? ==> r.value.(productImage := data.productImage, productDetailsImages := data.productDetailsImages) == data
  {
    match files
    case None => Err(NoFilesError)
    case Some(f) =>
      if f.productImage.Some? && |f.productImage.value| == 0 then Err(NoPathError)
      else
        var withMain := if f.productImage.Some? then data.(productImage := Some(f.productImage.value[0].path)) else data;
        Ok(if f.productDetailsImages.Some?
           then withMain.(productDetailsImages := Some(DetailImages(f.productDetailsImages.value)))
           else withMain)
  }

  /** `new Product(data)`: every multilingual field and alt cast into the schema. */
  function CastProduct(d: ProductData): (r: ProductData)
    ensures r.productname == CastText(d.productname) && r.productDescription == CastText(d.productDescription)
    ensures r.kind == CastText(d.kind) && r.productDetailsImages == CastImages(d.productDetailsImages)
    ensures r.(productname := d.productname, productDescription := d.productDescription, kind := d.kind,
               productDetailsImages := d.productDetailsImages) == d
  {
    d.(productname := CastText(d.productname), productDescription := CastText(d.productDescription),
       kind := CastText(d.kind), productDetailsImages := CastImages(d.productDetailsImages))
  }

  /** The schema defaults applied on save: amount 1, stock 0, an empty detail
      list, and both dates set to the save time. */
  function Defaults(d: ProductData, now: int): (r: ProductData)
    ensures r.productamount.Some? && r.stock.Some? && r.productDetailsImages.Some?
    ensures r.createdAt.Some? && r.updatedAt.Some?
    ensures d.productamount.None? ==> r.productamount == Some(1.0)
    ensures d.stock.None? ==> r.stock == Some(0.0)
    ensures d.productDetailsImages.None? ==> r.productDetailsImages == Some([])
    ensures d.createdAt.None? ==> r.createdAt == Some(now)
    ensures d.updatedAt.None? ==> r.updatedAt == Some(now)
    // a value the draft carries is kept
    ensures d.productamount.Some? ==> r.productamount == d.productamount
    ensures d.stock.Some? ==> r.stock == d.stock
    ensures d.productDetailsImages.Some? ==> r.productDetailsImages == d.productDetailsImages
    ensures d.createdAt.Some? ==> r.createdAt == d.createdAt
    ensures d.updatedAt.Some? ==> r.updatedAt == d.updatedAt
    ensures r.(productamount := d.productamount, stock := d.stock, productDetailsImages := d.productDetailsImages,
               createdAt := d.createdAt, updatedAt := d.updatedAt) == d
  {
    d.(productamount := Some(d.productamount.GetOr(1.0)), stock := Some(d.stock.GetOr(0.0)),
       productDetailsImages := Some(d.productDetailsImages.GetOr([])),
       createdAt := Some(d.createdAt.GetOr(now)), updatedAt := Some(d.updatedAt.GetOr(now)))
  }

  /** The schema's `required` rules: both name texts, the main image URL and
      every detail image's URL. */
  predicate ProductValid(d: ProductData) {
    && RequiredText(d.productname)
    && d.productImage.Some? && d.productImage.value != ""
    && (d.productDetailsImages.Some? ==>
          forall i :: 0 <= i < |d.productDetailsImages.value| ==>
            d.productDetailsImages.value[i].url.Some? && d.productDetailsImages.value[i].url.value != "")
  }

  const ProductValidationFailed: string := "Product validation failed"
  const ProductNotFound: string := "Product not found"

  /** The collection and its id counter. */
  datatype Catalog = Catalog(products: seq<ProductDoc>, nextId: nat)

  function ProductId(p: ProductDoc): nat { p.id }

  /** Every id is below the counter and no two documents share one. */
  predicate CatalogValid(s: Catalog) {
    && (forall i :: 0 <= i < |s.products| ==> s.products[i].id < s.nextId)
    && (forall i, j :: 0 <= i < j < |s.products| ==> s.products[i].id != s.products[j].id)
  }

  datatype Reply = Created(doc: ProductDoc) | Updated(doc: ProductDoc) | Failure(status: nat, message: string)

  /** `createProduct`, specified on values. `dataField` is `req.body.data`;
      `JSON.parse(undefined)` parses the text "undefined". */
  function CreateSpec(s: Catalog, dataField: Option<string>, files: Option<Upload.ProductFiles>,
                      parse: string -> Result<ProductData>, now: int): (Catalog, Reply)
  {
    match parse(dataField.GetOr("undefined"))
    case Err(e) => (s, Failure(400, e))
    case Ok(data) =>
      match WithUploads(data, files)
      case Err(e) => (s, Failure(400, e))
      case Ok(draft) =>
        if files.value.productImage.None? then (s, Failure(400, NoMainImageError))
        else
          var doc := Defaults(CastProduct(draft), now);
          if !ProductValid(doc) then (s, Failure(400, ProductValidationFailed))
          else (Catalog(s.products + [ProductDoc(s.nextId, doc)], s.nextId + 1), Created(ProductDoc(s.nextId, doc)))
  }

  /** A failed creation is a 400 that stores nothing. Creation succeeds exactly
      when the data parses, the files are read, a main file was uploaded and the
      built document meets the schema's `required` rules; it then appends that
      document under a fresh id, whose main image is the first uploaded main
      file and whose details, when uploaded, are those files in order. */
  lemma CreateOutcome(s: Catalog, dataField: Option<string>, files: Option<Upload.ProductFiles>,
                      parse: string -> Result<ProductData>, now: int)
    ensures var (s', r) := CreateSpec(s, dataField, files, parse, now);
            && !r.Updated?
            && (r.Failure? ==> s' == s && r.status == 400)
            && (r.Created? ==>
                  && s'.products == s.products + [r.doc] && s'.nextId == s.nextId + 1
                  && r.doc.id == s.nextId && ProductValid(r.doc.data)
                  && files.Some? && files.value.productImage.Some? && |files.value.productImage.value| > 0
                  && r.doc.data.productImage == Some(files.value.productImage.value[0].path)
                  && (files.value.productDetailsImages.Some? ==>
                        r.doc.data.productDetailsImages == Some(DetailImages(files.value.productDetailsImages.value)))
                  && r.doc.data.createdAt.Some? && r.doc.data.updatedAt.Some?)
    ensures var (s', r) := CreateSpec(s, dataField, files, parse, now);
            var parsed := parse(dataField.GetOr("undefined"));
            r.Created? <==>
              && parsed.Ok? && WithUploads(parsed.value, files).Ok?
              && files.Some? && files.value.productImage.Some?
              && ProductValid(Defaults(CastProduct(WithUploads(parsed.value, files).value), now))
    ensures var (s', r) := CreateSpec(s, dataField, files, parse, now);
            var parsed := parse(dataField.GetOr("undefined"));
            (&& parsed.Ok? && WithUploads(parsed.value, files).Ok?
             && files.Some? && files.value.productImage.Some?
             && ProductValid(Defaults(CastProduct(WithUploads(parsed.value, files).value), now))) ==>
              var doc := ProductDoc(s.nextId, Defaults(CastProduct(WithUploads(parsed.value, files).value), now));
              r == Created(doc) && s' == Catalog(s.products + [doc], s.nextId + 1)
  {
    var (s', r) := CreateSpec(s, dataField, files, parse, now);
    if r.Created? && files.value.productDetailsImages.Some? {
      UploadedDetailsReadBlank(files.value.productDetailsImages.value, English);
    }
  }

  /** Without an uploaded main image creation fails with 400, even when the
      client's data names an image URL: the handler indexes the main file list
      unconditionally. */
  lemma CreateRequiresMainImage(s: Catalog, dataField: Option<string>, files: Option<Upload.ProductFiles>,
                                parse: string -> Result<ProductData>, now: int)
    requires files.None? || files.value.productImage.None?
    ensures CreateSpec(s, dataField, files, parse, now).0 == s
    ensures CreateSpec(s, dataField, files, parse, now).1.Failure?
    ensures CreateSpec(s, dataField, files, parse, now).1.status == 400
  {
  }

  lemma CreateKeepsValid(s: Catalog, dataField: Option<string>, files: Option<Upload.ProductFiles>,
                         parse: string -> Result<ProductData>, now: int)
    requires CatalogValid(s)
    ensures CatalogValid(CreateSpec(s, dataField, files, parse, now).0)
  {
  }

  /** `findByIdAndUpdate(id, patch)`: each top-level field the patch sets
      replaces the stored one; the others stay. */
  function Merge(stored: ProductData, patch: ProductData): ProductData {
    ProductData(
      if patch.productname.Some? then patch.productname else stored.productname,
      if patch.productamount.Some? then patch.productamount else stored.productamount,
      if patch.productPrice.Some? then patch.productPrice else stored.productPrice,
      if patch.discountPrice.Some? then patch.discountPrice else stored.discountPrice,
      if patch.stock.Some? then patch.stock else stored.stock,
      if patch.productDescription.Some? then patch.productDescription else stored.productDescription,
      if patch.productImage.Some? then patch.productImage else stored.productImage,
      if patch.productDetailsImages.Some? then patch.productDetailsImages else stored.productDetailsImages,
      if patch.kind.Some? then patch.kind else stored.kind,
      if patch.createdAt.Some? then patch.createdAt else stored.createdAt,
      if patch.updatedAt.Some? then patch.updatedAt else stored.updatedAt)
  }

  /** An empty patch changes nothing, and applying a patch twice is applying it once. */
  lemma MergeLaws(stored: ProductData, patch: ProductData)
    ensures Merge(stored, EmptyProductData) == stored
    ensures Merge(Merge(stored, patch), patch) == Merge(stored, patch)
  {
  }

  /** `req.body.data || '{}'`. */
  function RawUpdate(dataField: Option<string>): (raw: string)
    ensures dataField.Some? && dataField.value != "" ==> raw == dataField.value
    ensures dataField.None? || dataField.value == "" ==> raw == "{}"
  {
    if dataField.Some? && dataField.value != "" then dataField.value else "{}"
  }

  /** `{ ...data, updatedAt: Date.now() }`, cast into the schema. No validator runs. */
  function UpdatePatch(draft: ProductData, now: int): (p: ProductData)
    ensures p.updatedAt == Some(now)
  {
    CastProduct(draft.(updatedAt := Some(now)))
  }

  /** `updateProduct`, specified on values. */
  function UpdateSpec(s: Catalog, id: string, dataField: Option<string>, files: Option<Upload.ProductFiles>,
                      parse: string -> Result<ProductData>, now: int): (Catalog, Reply)
  {
    match parse(RawUpdate(dataField))
    case Err(e) => (s, Failure(400, e))
    case Ok(data) =>
      match WithUploads(data, files)
      case Err(e) => (s, Failure(400, e))
      case Ok(draft) =>
        match FindById(s.products, ProductId, id)
        case None => (s, Failure(404, ProductNotFound))
        case Some(k) =>
          var doc := ProductDoc(s.products[k].id, Merge(s.products[k].data, UpdatePatch(draft, now)));
          (Catalog(s.products[k := doc], s.nextId), Updated(doc))
  }

  /** An update rewrites at most the one document with that id, always stamps
      `updatedAt`, and fails without change otherwise; a 404 means no document
      has the id. Once the data parses and the files are read, a known id is
      rewritten to the stored data merged with the patch. A parse failure and a
      missing file list (the TypeError on `req.files`) are 400 with their message. */
  lemma UpdateOutcome(s: Catalog, id: string, dataField: Option<string>, files: Option<Upload.ProductFiles>,
                      parse: string -> Result<ProductData>, now: int)
    ensures var (s', r) := UpdateSpec(s, id, dataField, files, parse, now);
            && !r.Created? && |s'.products| == |s.products| && s'.nextId == s.nextId
            && (r.Failure? ==> s' == s && (r.status == 400 || r.status == 404))
            && (r.Failure? && r.status == 404 ==>
                  r.message == ProductNotFound && forall i :: 0 <= i < |s.products| ==> IdText(s.products[i].id) != id)
            && (r.Updated? ==>
                  exists k :: 0 <= k < |s.products| && IdText(s.products[k].id) == id &&
                    r.doc.id == s.products[k].id && s'.products == s.products[k := r.doc])
            && (r.Updated? ==> r.doc.data.updatedAt == Some(now))
    ensures var (s', r) := UpdateSpec(s, id, dataField, files, parse, now);
            var parsed := parse(RawUpdate(dataField));
            && (parsed.Err? ==> r == Failure(400, parsed.error))
            && (parsed.Ok? && WithUploads(parsed.value, files).Err? ==>
                  r == Failure(400, WithUploads(parsed.value, files).error))
            && (r.Updated? ==> parsed.Ok? && WithUploads(parsed.value, files).Ok?)
    ensures var (s', r) := UpdateSpec(s, id, dataField, files, parse, now);
            var parsed := parse(RawUpdate(dataField));
            (parsed.Ok? && WithUploads(parsed.value, files).Ok? && FindById(s.products, ProductId, id).Some?) ==>
              var k := FindById(s.products, ProductId, id).value;
              var doc := ProductDoc(s.products[k].id,
                                    Merge(s.products[k].data, UpdatePatch(WithUploads(parsed.value, files).value, now)));
              r == Updated(doc) && s' == Catalog(s.products[k := doc], s.nextId)
  {
    var (s', r) := UpdateSpec(s, id, dataField, files, parse, now);
    if r.Updated? {
      var k := FindById(s.products, ProductId, id).value;
      assert IdText(s.products[k].id) == id;
    }
  }

  /** An unknown id is answered 404 once the data has parsed and the uploaded
      files have been read. */
  lemma UnknownIdIs404(s: Catalog, id: string, dataField: Option<string>, files: Option<Upload.ProductFiles>,
                       parse: string -> Result<ProductData>, now: int)
    requires parse(RawUpdate(dataField)).Ok? && WithUploads(parse(RawUpdate(dataField)).value, files).Ok?
    requires forall i :: 0 <= i < |s.products| ==> IdText(s.products[i].id) != id
    ensures UpdateSpec(s, id, dataField, files, parse, now) == (s, Failure(404, ProductNotFound))
  {
  }

  /** A request with neither data nor files only refreshes `updatedAt`. */
  lemma UpdateWithoutDataOnlyStamps(s: Catalog, id: string, dataField: Option<string>,
                                    parse: string -> Result<ProductData>, now: int, k: nat)
    requires dataField.None? || dataField.value == ""
    requires parse("{}") == Ok(EmptyProductData)
    requires FindById(s.products, ProductId, id) == Some(k)
    ensures UpdateSpec(s, id, dataField, Some(Upload.ProductFiles(None, None)), parse, now).1 ==
            Updated(ProductDoc(s.products[k].id, s.products[k].data.(updatedAt := Some(now))))
  {
  }

  /** Without uploaded detail files the stored details become the client's, when
      the data names them, and stay as they were otherwise. */
  lemma UpdateKeepsClientDetails(s: Catalog, id: string, dataField: Option<string>,
                                 files: Option<Upload.ProductFiles>, parse: string -> Result<ProductData>, now: int)
    requires files.Some? && files.value.productDetailsImages.None?
    requires parse(RawUpdate(dataField)).Ok?
    ensures var r := UpdateSpec(s, id, dataField, files, parse, now).1;
            var client := parse(RawUpdate(dataField)).value.productDetailsImages;
            r.Updated? ==>
              exists k :: (0 <= k < |s.products| && IdText(s.products[k].id) == id &&
                r.doc.data.productDetailsImages ==
                  (if client.Some? then CastImages(client) else s.products[k].data.productDetailsImages))
  {
    var r := UpdateSpec(s, id, dataField, files, parse, now).1;
    if r.Updated? {
      var k := FindById(s.products, ProductId, id).value;
      assert IdText(s.products[k].id) == id;
    }
  }

  /** The same update sent twice at the same time leaves the catalog as one does. */
  lemma {:induction false} UpdateTwiceIsOnce(s: Catalog, id: string, dataField: Option<string>,
                                             files: Option<Upload.ProductFiles>,
                                             parse: string -> Result<ProductData>, now: int)
    ensures var s1 := UpdateSpec(s, id, dataField, files, parse, now).0;
            UpdateSpec(s1, id, dataField, files, parse, now).0 == s1
  {
    var (s1, r1) := UpdateSpec(s, id, dataField, files, parse, now);
    if r1.Updated? {
      var k := FindById(s.products, ProductId, id).value;
      FindByIdSameIds(s.products, s1.products, ProductId, id);
      var draft := WithUploads(parse(RawUpdate(dataField)).value, files).value;
      MergeLaws(s.products[k].data, UpdatePatch(draft, now));
      assert s1.products[k := s1.products[k]] == s1.products;
    }
  }

  /** The update runs no validator: a stored product can lose its English name. */
  lemma UpdateDoesNotValidate(s: Catalog, id: string, k: nat, now: int)
    requires FindById(s.products, ProductId, id) == Some(k)
    ensures var parse := (_: string) => Ok(EmptyProductData.(productname := Some(map["en" := ""])));
            var r := UpdateSpec(s, id, Some("{}"), Some(Upload.ProductFiles(None, None)), parse, now).1;
            r.Updated? && !ProductValid(r.doc.data)
  {
  }

  lemma UpdateKeepsValid(s: Catalog, id: string, dataField: Option<string>, files: Option<Upload.ProductFiles>,
                         parse: string -> Result<ProductData>, now: int)
    requires CatalogValid(s)
    ensures CatalogValid(UpdateSpec(s, id, dataField, files, parse, now).0)
  {
    var (s', r) := UpdateSpec(s, id, dataField, files, parse, now);
    if r.Updated? {
      var k := FindById(s.products, ProductId, id).value;
      assert forall i :: 0 <= i < |s'.products| ==> s'.products[i].id == s.products[i].id;
    }
  }

  /** The product collection. */
  class ProductStore {
    var products: seq<ProductDoc>
    var nextId: nat

    function State(): Catalog
      reads this
    {
      Catalog(products, nextId)
    }

    constructor ()
      ensures products == [] && nextId == 0
    {
      products := [];
      nextId := 0;
    }

    /** `createProduct`: fills in the parsed draft field by field, then saves. */
    method CreateProduct(dataField: Option<string>, files: Option<Upload.ProductFiles>,
                         parse: string -> Result<ProductData>, now: int) returns (reply: Reply)
      modifies this
      ensures (State(), reply) == CreateSpec(old(State()), dataField, files, parse, now)
    {
      var parsed := parse(dataField.GetOr("undefined"));
      if parsed.Err? {
        return Failure(400, parsed.error);
      }
      var data := parsed.value;
      if files.None? {
        return Failure(400, NoFilesError);
      }
      var f := files.value;
      if f.productImage.Some? {
        if |f.productImage.value| == 0 {
          return Failure(400, NoPathError);
        }
        data := data.(productImage := Some(f.productImage.value[0].path));
      }
      if f.productDetailsImages.Some? {
        data := data.(productDetailsImages := Some(DetailImages(f.productDetailsImages.value)));
      }
      if f.productImage.None? {
        return Failure(400, NoMainImageError);
      }
      var doc := Defaults(CastProduct(data), now);
      if !ProductValid(doc) {
        return Failure(400, ProductValidationFailed);
      }
      var saved := ProductDoc(nextId, doc);
      products := products + [saved];
      nextId := nextId + 1;
      reply := Created(saved);
    }

    /** `updateProduct`: fills in the parsed draft field by field, then merges it. */
    method UpdateProduct(id: string, dataField: Option<string>, files: Option<Upload.ProductFiles>,
                         parse: string -> Result<ProductData>, now: int) returns (reply: Reply)
      modifies this
      ensures (State(), reply) == UpdateSpec(old(State()), id, dataField, files, parse, now)
    {
      var parsed := parse(RawUpdate(dataField));
      if parsed.Err? {
        return Failure(400, parsed.error);
      }
      var data := parsed.value;
      if files.None? {
        return Failure(400, NoFilesError);
      }
      var f := files.value;
      if f.productImage.Some? {
        if |f.productImage.value| == 0 {
          return Failure(400, NoPathError);
        }
        data := data.(productImage := Some(f.productImage.value[0].path));
      }
      if f.productDetailsImages.Some? {
        data := data.(productDetailsImages := Some(DetailImages(f.productDetailsImages.value)));
      }
      var found := FindById(products, ProductId, id);
      if found.None? {
        return Failure(404, ProductNotFound);
      }
      var k := found.value;
      var doc := ProductDoc(products[k].id, Merge(products[k].data, UpdatePatch(data, now)));
      products := products[k := doc];
      reply := Updated(doc);
    }
  }
}
