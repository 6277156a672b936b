/**
 * controllers/blogController.js over an in-memory blog collection: reading the
 * post's data from the request, putting the published image URLs into it,
 * saving or merging it, and the not-found paths of reading and deleting.
 *
 * `JSON.parse` is the parameter `parse`; the clock is the parameter `now`.
 * `uploaded` is `req.uploadedFiles` as the blog image processing leaves it.
 */
module BlogController {
  import opened Wrappers
  import opened Lang
  import opened Documents
  import opened Ids
  import opened Localized
  import opened LocalizeBlog
  import BlogUpload

  /** `req.body.data`: a form-data text, or an object (a JSON body). */
  datatype DataField = TextField(text: string) | ObjectField(value: BlogData)

  /** The request body: its `data` entry, and the body read as post fields. */
  datatype BlogBody = BlogBody(data: Option<DataField>, fields: BlogData)

  const InvalidJson: string := "Invalid JSON data in form-data"
  const BlogValidationFailed: string := "Blog validation failed"
  const BlogNotFound: string := "Blog not found"

  /** `if (req.body.data)`: present and, for a text, not empty. */
  predicate HasData(body: BlogBody) {
    body.data.Some? && (body.data.value.TextField? ==> body.data.value.text != "")
  }

  /** The post data both handlers start from: the body itself, unless `data`
      is set; a text `data` is parsed and a parse failure is reported as such. */
  function ParseBlogData(body: BlogBody, parse: string -> Result<BlogData>): (r: Result<BlogData>)
    ensures !HasData(body) ==> r == Ok(body.fields)
    ensures HasData(body) && body.data.value.ObjectField? ==> r == Ok(body.data.value.value)
    ensures HasData(body) && body.data.value.TextField? ==>
              r == (if parse(body.data.value.text).Ok? then parse(body.data.value.text) else Err(InvalidJson))
    ensures r.Err? ==> r.error == InvalidJson
  {
    if !HasData(body) then Ok(body.fields)
    else match body.data.value
      case ObjectField(d) => Ok(d)
      case TextField(t) =>
        match parse(t)
        case Ok(d) => Ok(d)
        case Err(_) => Err(InvalidJson)
  }

  /** An additional image as `processBlogImages` records it: a URL and no alt. */
  function GalleryImages(urls: seq<BlogUpload.BlogImageUrl>): (r: seq<ImageRef>)
    ensures |r| == |urls|
    ensures forall i :: 0 <= i < |r| ==> r[i] == ImageRef(Some(urls[i].url), None)
  {
    seq(|urls|, i requires 0 <= i < |urls| => ImageRef(Some(urls[i].url), None))
  }

  /** `createBlog` lines 52-59: the uploads overwrite a field only when they
      carry a value for it; otherwise the client's value is kept. */
  function WithUploads(data: BlogData, uploaded: Option<BlogUpload.UploadedFiles>): (r: BlogData)
    ensures uploaded.Some? && uploaded.value.blogImage.Some? && uploaded.value.blogImage.value != "" ==>
              r.blogImage == uploaded.value.blogImage
    ensures !(uploaded.Some? && uploaded.value.blogImage.Some? && uploaded.value.blogImage.value != "") ==>
              r.blogImage == data.blogImage
    ensures uploaded.Some? && uploaded.value.blogImages.Some? ==>
              r.blogImages == Some(GalleryImages(uploaded.value.blogImages.value))
    ensures !(uploaded.Some? && uploaded.value.blogImages.Some?) ==> r.blogImages == data.blogImages
    ensures r.(blogImage := data.blogImage, blogImages := data.blogImages) == data
  {
    match uploaded
    case None => data
    case Some(u) =>
      var withMain := if u.blogImage.Some? && u.blogImage.value != "" then data.(blogImage := u.blogImage) else data;
      if u.blogImages.Some? then withMain.(blogImages := Some(GalleryImages(u.blogImages.value))) else withMain
  }

  /** `new Blog(data)`: both texts and every alt cast into the schema. */
  function CastBlog(d: BlogData): (r: BlogData)
    ensures r.blogTitle == CastText(d.blogTitle) && r.blogInfo == CastText(d.blogInfo)
    ensures r.blogImages == CastImages(d.blogImages)
    ensures r.blogImage == d.blogImage && r.createdAt == d.createdAt && r.updatedAt == d.updatedAt
  {
    d.(blogTitle := CastText(d.blogTitle), blogInfo := CastText(d.blogInfo), blogImages := CastImages(d.blogImages))
  }

  /** The schema defaults applied on save: an empty gallery and both dates set
      to the save time. */
  function BlogDefaults(d: BlogData, now: int): (r: BlogData)
    ensures r.blogImages == Some(d.blogImages.GetOr([]))
    ensures r.createdAt == Some(d.createdAt.GetOr(now)) && r.updatedAt == Some(d.updatedAt.GetOr(now))
    ensures r.blogTitle == d.blogTitle && r.blogInfo == d.blogInfo && r.blogImage == d.blogImage
  {
    d.(blogImages := Some(d.blogImages.GetOr([])), createdAt := Some(d.createdAt.GetOr(now)),
       updatedAt := Some(d.updatedAt.GetOr(now)))
  }

  /** The schema's `required` rules: English and Persian title and content. */
  predicate BlogValid(d: BlogData) {
    RequiredText(d.blogTitle) && RequiredText(d.blogInfo)
  }

  /** `runValidators` on an update. Only the paths the update sets are validated,
      but setting a nested text such as `blogTitle` sets each of its declared
      children, an omitted one as undefined; so a text the patch sets must be
      complete, and a text it leaves out is not checked. */
  predicate BlogPatchValid(patch: BlogData) {
    && (patch.blogTitle.Some? ==> RequiredText(patch.blogTitle))
    && (patch.blogInfo.Some? ==> RequiredText(patch.blogInfo))
  }

  /** The collection and its id counter. */
  datatype Blogs = Blogs(blogs: seq<BlogDoc>, nextId: nat)

  function BlogId(b: BlogDoc): nat { b.id }

  /** Every id is below the counter, no two posts share one, and every stored
      post meets the schema's `required` rules. */
  predicate BlogsValid(s: Blogs) {
    && (forall i :: 0 <= i < |s.blogs| ==> s.blogs[i].id < s.nextId)
    && (forall i, j :: 0 <= i < j < |s.blogs| ==> s.blogs[i].id != s.blogs[j].id)
    && (forall i :: 0 <= i < |s.blogs| ==> BlogValid(s.blogs[i].data))
  }

  datatype Reply =
    | Created(doc: BlogDoc)
    | Updated(doc: BlogDoc)
    | Found(blog: LocalizedBlog)
    | Listed(blogs: seq<LocalizedBlog>)
    | Deleted(message: string)
    | Failure(status: nat, message: string)

  /** `createBlog`, specified on values. */
  function CreateSpec(s: Blogs, body: BlogBody, uploaded: Option<BlogUpload.UploadedFiles>,
                      parse: string -> Result<BlogData>, now: int): (Blogs, Reply)
  {
    match ParseBlogData(body, parse)
    case Err(e) => (s, Failure(400, e))
    case Ok(data) =>
      var doc := BlogDefaults(CastBlog(WithUploads(data, uploaded)), now);
      if !BlogValid(doc) then (s, Failure(400, BlogValidationFailed))
      else (Blogs(s.blogs + [BlogDoc(s.nextId, doc)], s.nextId + 1), Created(BlogDoc(s.nextId, doc)))
  }

  /** A failed creation is a 400 that stores nothing. Creation succeeds exactly
      when the data parses and the built post has complete title and content;
      it then appends that post under a fresh id. */
  lemma CreateOutcome(s: Blogs, body: BlogBody, uploaded: Option<BlogUpload.UploadedFiles>,
                      parse: string -> Result<BlogData>, now: int)
    ensures var (s', r) := CreateSpec(s, body, uploaded, parse, now);
            && (r.Failure? || r.Created?)
            && (r.Failure? ==> s' == s && r.status == 400)
            && (ParseBlogData(body, parse).Err? ==> r == Failure(400, InvalidJson))
            && (r.Created? ==>
                  && s'.blogs == s.blogs + [r.doc] && s'.nextId == s.nextId + 1
                  && r.doc.id == s.nextId && BlogValid(r.doc.data)
                  && r.doc.data.createdAt.Some? && r.doc.data.updatedAt.Some? && r.doc.data.blogImages.Some?)
    ensures var (s', r) := CreateSpec(s, body, uploaded, parse, now);
            var parsed := ParseBlogData(body, parse);
            r.Created? <==>
              parsed.Ok? && BlogValid(BlogDefaults(CastBlog(WithUploads(parsed.value, uploaded)), now))
    ensures var (s', r) := CreateSpec(s, body, uploaded, parse, now);
            var parsed := ParseBlogData(body, parse);
            (parsed.Ok? && BlogValid(BlogDefaults(CastBlog(WithUploads(parsed.value, uploaded)), now))) ==>
              var doc := BlogDoc(s.nextId, BlogDefaults(CastBlog(WithUploads(parsed.value, uploaded)), now));
              r == Created(doc) && s' == Blogs(s.blogs + [doc], s.nextId + 1)
  {
  }

  lemma CreateKeepsValid(s: Blogs, body: BlogBody, uploaded: Option<BlogUpload.UploadedFiles>,
                         parse: string -> Result<BlogData>, now: int)
    requires BlogsValid(s)
    ensures BlogsValid(CreateSpec(s, body, uploaded, parse, now).0)
  {
  }

  /** When the image processing published everything, a created post carries the
      published main image and exactly the published gallery, in upload order. */
  lemma CreatedPostCarriesUploads(s: Blogs, body: BlogBody, files: Option<BlogUpload.BlogFiles>,
                                  st: BlogUpload.BlogStages, parse: string -> Result<BlogData>, now: int)
    requires BlogUpload.ProcessSpec(files, st).Next?
    ensures var up := BlogUpload.ProcessSpec(files, st).uploaded;
            var r := CreateSpec(s, body, Some(up), parse, now).1;
            r.Created? ==>
              && (up.blogImage.Some? && up.blogImage.value != "" ==> r.doc.data.blogImage == up.blogImage)
              && (up.blogImages.Some? ==>
                    && r.doc.data.blogImages.Some?
                    && |r.doc.data.blogImages.value| == |up.blogImages.value|
                    && forall i :: 0 <= i < |up.blogImages.value| ==>
                         r.doc.data.blogImages.value[i] == ImageRef(Some(up.blogImages.value[i].url), None))
  {
  }

  /** With no uploads the post's images are the ones the client sent. */
  lemma CreateWithoutUploadsKeepsClientImages(s: Blogs, body: BlogBody, parse: string -> Result<BlogData>, now: int)
    requires ParseBlogData(body, parse).Ok?
    ensures var r := CreateSpec(s, body, Some(BlogUpload.NoUploads), parse, now).1;
            var client := ParseBlogData(body, parse).value;
            r.Created? ==> r.doc.data.blogImage == client.blogImage &&
                           r.doc.data.blogImages == Some(CastImages(client.blogImages).GetOr([]))
  {
  }

  /** `findByIdAndUpdate(id, patch)`: each top-level field the patch sets
      replaces the stored one; the others stay. */
  function Merge(stored: BlogData, patch: BlogData): BlogData {
    BlogData(
      if patch.blogTitle.Some? then patch.blogTitle else stored.blogTitle,
      if patch.blogInfo.Some? then patch.blogInfo else stored.blogInfo,
      if patch.blogImage.Some? then patch.blogImage else stored.blogImage,
      if patch.blogImages.Some? then patch.blogImages else stored.blogImages,
      if patch.createdAt.Some? then patch.createdAt else stored.createdAt,
      if patch.updatedAt.Some? then patch.updatedAt else stored.updatedAt)
  }

  /** Applying a patch twice is applying it once. */
  lemma MergeIdempotent(stored: BlogData, patch: BlogData)
    ensures Merge(Merge(stored, patch), patch) == Merge(stored, patch)
  {
  }

  /** `{ ...data, updatedAt: Date.now() }`, cast into the schema. */
  function UpdatePatch(data: BlogData, now: int): (p: BlogData)
    ensures p.updatedAt == Some(now)
  {
    CastBlog(data.(updatedAt := Some(now)))
  }

  /** `updateBlog`, specified on values. The update validators run before the
      lookup, so an invalid patch is a 400 even for an unknown id. */
  function UpdateSpec(s: Blogs, id: string, body: BlogBody, parse: string -> Result<BlogData>, now: int): (Blogs, Reply) {
    match ParseBlogData(body, parse)
    case Err(e) => (s, Failure(400, e))
    case Ok(data) =>
      var patch := UpdatePatch(data, now);
      if !BlogPatchValid(patch) then (s, Failure(400, BlogValidationFailed))
      else match FindById(s.blogs, BlogId, id)
        case None => (s, Failure(404, BlogNotFound))
        case Some(k) =>
          var doc := BlogDoc(s.blogs[k].id, Merge(s.blogs[k].data, patch));
          (Blogs(s.blogs[k := doc], s.nextId), Updated(doc))
  }

  /** An update rewrites at most the one post with that id and always stamps
      `updatedAt`; a 404 means no post has the id, and failures change nothing.
      Once the data parses and the patch passes the validators, a known id is
      rewritten to the stored data merged with the patch. A text that does not
      parse is 400 'Invalid JSON data in form-data' and a patch the validators
      refuse is 400 'Blog validation failed'. */
  lemma UpdateOutcome(s: Blogs, id: string, body: BlogBody, parse: string -> Result<BlogData>, now: int)
    ensures var (s', r) := UpdateSpec(s, id, body, parse, now);
            && (r.Failure? || r.Updated?) && |s'.blogs| == |s.blogs| && s'.nextId == s.nextId
            && (r.Failure? ==> s' == s && (r.status == 400 || r.status == 404))
            && (r.Failure? && r.status == 404 ==>
                  r.message == BlogNotFound && forall i :: 0 <= i < |s.blogs| ==> IdText(s.blogs[i].id) != id)
            && (r.Updated? ==>
                  exists k :: 0 <= k < |s.blogs| && IdText(s.blogs[k].id) == id &&
                    r.doc.id == s.blogs[k].id && s'.blogs == s.blogs[k := r.doc])
            && (r.Updated? ==> r.doc.data.updatedAt == Some(now))
    ensures var (s', r) := UpdateSpec(s, id, body, parse, now);
            var parsed := ParseBlogData(body, parse);
            && (parsed.Err? ==> r == Failure(400, InvalidJson))
            && (parsed.Ok? && !BlogPatchValid(UpdatePatch(parsed.value, now)) ==> r == Failure(400, BlogValidationFailed))
            && (r.Updated? ==> parsed.Ok? && BlogPatchValid(UpdatePatch(parsed.value, now)))
    ensures var (s', r) := UpdateSpec(s, id, body, parse, now);
            var parsed := ParseBlogData(body, parse);
            (parsed.Ok? && BlogPatchValid(UpdatePatch(parsed.value, now)) && FindById(s.blogs, BlogId, id).Some?) ==>
              var k := FindById(s.blogs, BlogId, id).value;
              var doc := BlogDoc(s.blogs[k].id, Merge(s.blogs[k].data, UpdatePatch(parsed.value, now)));
              r == Updated(doc) && s' == Blogs(s.blogs[k := doc], s.nextId)
  {
    var (s', r) := UpdateSpec(s, id, body, parse, now);
    if r.Updated? {
      var k := FindById(s.blogs, BlogId, id).value;
      assert IdText(s.blogs[k].id) == id;
    }
  }

  /** An unknown id is answered 404 once the data has parsed and the patch has
      passed the validators. */
  lemma UnknownIdIs404(s: Blogs, id: string, body: BlogBody, parse: string -> Result<BlogData>, now: int)
    requires ParseBlogData(body, parse).Ok? && BlogPatchValid(UpdatePatch(ParseBlogData(body, parse).value, now))
    requires forall i :: 0 <= i < |s.blogs| ==> IdText(s.blogs[i].id) != id
    ensures UpdateSpec(s, id, body, parse, now) == (s, Failure(404, BlogNotFound))
  {
  }

  /** A patch that sets an English title but no Persian one is refused by the
      update validators, whichever post it names. */
  lemma PartialTitleRefused(s: Blogs, id: string, now: int)
    ensures var data := BlogData(Some(map["en" := "title"]), None, None, None, None, None);
            UpdateSpec(s, id, BlogBody(Some(ObjectField(data)), data), (_: string) => Err(""), now)
              == (s, Failure(400, BlogValidationFailed))
  {
    var title := map["en" := "title"];
    assert "fa" !in CastText(Some(title)).value;
  }

  /** Updating keeps ids unique and below the counter, and keeps every stored
      post complete: a patch either leaves a text as stored or replaces it with a
      complete one. */
  lemma UpdateKeepsValid(s: Blogs, id: string, body: BlogBody, parse: string -> Result<BlogData>, now: int)
    requires BlogsValid(s)
    ensures BlogsValid(UpdateSpec(s, id, body, parse, now).0)
  {
    var (s', r) := UpdateSpec(s, id, body, parse, now);
    if r.Updated? {
      assert forall i :: 0 <= i < |s'.blogs| ==> s'.blogs[i].id == s.blogs[i].id;
      assert BlogValid(r.doc.data);
    }
  }

  /** `getBlogs`: every post, localised in the requested language. */
  function GetBlogs(s: Blogs, query: Option<string>): (r: Reply)
    ensures r.Listed? && |r.blogs| == |s.blogs|
    ensures forall i :: 0 <= i < |s.blogs| ==> r.blogs[i] == LocalizeBlog.LocalizeBlog(s.blogs[i], LangOf(query))
  {
    Listed(LocalizeBlogs(s.blogs, LangOf(query)))
  }

  /** `getBlogById`. */
  function GetBlogById(s: Blogs, id: string, query: Option<string>): (r: Reply)
    ensures r.Failure? <==> forall i :: 0 <= i < |s.blogs| ==> IdText(s.blogs[i].id) != id
    ensures r.Failure? ==> r == Failure(404, BlogNotFound)
    ensures r.Found? ==> exists k :: 0 <= k < |s.blogs| && IdText(s.blogs[k].id) == id &&
                                r.blog == LocalizeBlog.LocalizeBlog(s.blogs[k], LangOf(query))
    ensures r.Failure? || r.Found?
  {
    match FindById(s.blogs, BlogId, id)
    case None => Failure(404, BlogNotFound)
    case Some(k) => Found(LocalizeBlog.LocalizeBlog(s.blogs[k], LangOf(query)))
  }

  /** Without a `lang` query a post reads in English, and the post read back
      after its creation is the created one, localised. */
  lemma ReadBackCreated(s: Blogs, body: BlogBody, uploaded: Option<BlogUpload.UploadedFiles>,
                        parse: string -> Result<BlogData>, now: int)
    requires BlogsValid(s)
    ensures var (s', r) := CreateSpec(s, body, uploaded, parse, now);
            r.Created? ==> GetBlogById(s', IdText(r.doc.id), None) == Found(LocalizeBlog.LocalizeBlog(r.doc, English))
  {
    var (s', r) := CreateSpec(s, body, uploaded, parse, now);
    if r.Created? {
      CreateKeepsValid(s, body, uploaded, parse, now);
      FindByIdUnique(s'.blogs, BlogId, IdText(r.doc.id), |s.blogs|);
    }
  }

  /** `deleteBlog`, specified on values. */
  function DeleteSpec(s: Blogs, id: string): (Blogs, Reply) {
    match FindById(s.blogs, BlogId, id)
    case None => (s, Failure(404, BlogNotFound))
    case Some(k) => (Blogs(RemoveAt(s.blogs, k), s.nextId), Deleted("Blog deleted successfully"))
  }

  /** An unknown id is 404 without change; otherwise exactly one post is gone
      and the reply is 'Blog deleted successfully'. */
  lemma DeleteOutcome(s: Blogs, id: string)
    ensures var (s', r) := DeleteSpec(s, id);
            && (r.Failure? || r.Deleted?)
            && ((forall i :: 0 <= i < |s.blogs| ==> IdText(s.blogs[i].id) != id) <==> r == Failure(404, BlogNotFound))
            && ((exists i :: 0 <= i < |s.blogs| && IdText(s.blogs[i].id) == id) ==> r == Deleted("Blog deleted successfully"))
            && (r.Failure? ==> s' == s)
            && (r.Deleted? ==> r.message == "Blog deleted successfully" && |s'.blogs| == |s.blogs| - 1)
            && (r.Deleted? ==>
                  exists k :: 0 <= k < |s.blogs| && IdText(s.blogs[k].id) == id && s'.blogs == RemoveAt(s.blogs, k))
  {
    var (s', r) := DeleteSpec(s, id);
    if r.Deleted? {
      var k := FindById(s.blogs, BlogId, id).value;
      assert IdText(s.blogs[k].id) == id;
    }
  }

  /** After a deletion in a valid collection the post can no longer be read. */
  lemma DeletedIsGone(s: Blogs, id: string, query: Option<string>)
    requires BlogsValid(s)
    ensures GetBlogById(DeleteSpec(s, id).0, id, query) == Failure(404, BlogNotFound)
  {
    match FindById(s.blogs, BlogId, id)
    case None =>
    case Some(k) =>
      var rest := RemoveAt(s.blogs, k);
      forall i | 0 <= i < |rest| ensures IdText(rest[i].id) != id {
        var j := if i < k then i else i + 1;
        assert rest[i] == s.blogs[j];
        if IdText(s.blogs[j].id) == id { IdTextInjective(s.blogs[j].id, s.blogs[k].id); }
      }
  }

  /** The blog collection. */
  class BlogStore {
    var blogs: seq<BlogDoc>
    var nextId: nat

    function State(): Blogs
      reads this
    {
      Blogs(blogs, nextId)
    }

    constructor ()
      ensures blogs == [] && nextId == 0
    {
      blogs := [];
      nextId := 0;
    }

    /** `createBlog`: reassigns and fills in the post data step by step, then saves. */
    method CreateBlog(body: BlogBody, uploaded: Option<BlogUpload.UploadedFiles>,
                      parse: string -> Result<BlogData>, now: int) returns (reply: Reply)
      modifies this
      ensures (State(), reply) == CreateSpec(old(State()), body, uploaded, parse, now)
    {
      var data := body.fields;
      if HasData(body) {
        match body.data.value
        case ObjectField(d) =>
          data := d;
        case TextField(t) =>
          var parsed := parse(t);
          if parsed.Err? {
            return Failure(400, InvalidJson);
          }
          data := parsed.value;
      }
      if uploaded.Some? {
        if uploaded.value.blogImage.Some? && uploaded.value.blogImage.value != "" {
          data := data.(blogImage := uploaded.value.blogImage);
        }
        if uploaded.value.blogImages.Some? {
          data := data.(blogImages := Some(GalleryImages(uploaded.value.blogImages.value)));
        }
      }
      var doc := BlogDefaults(CastBlog(data), now);
      if !BlogValid(doc) {
        return Failure(400, BlogValidationFailed);
      }
      var saved := BlogDoc(nextId, doc);
      blogs := blogs + [saved];
      nextId := nextId + 1;
      reply := Created(saved);
    }

    /** `updateBlog`. */
    method UpdateBlog(id: string, body: BlogBody, parse: string -> Result<BlogData>, now: int) returns (reply: Reply)
      modifies this
      ensures (State(), reply) == UpdateSpec(old(State()), id, body, parse, now)
    {
      var data := ParseBlogData(body, parse);
      if data.Err? {
        return Failure(400, data.error);
      }
      var patch := UpdatePatch(data.value, now);
      if !BlogPatchValid(patch) {
        return Failure(400, BlogValidationFailed);
      }
      var found := FindById(blogs, BlogId, id);
      if found.None? {
        return Failure(404, BlogNotFound);
      }
      var k := found.value;
      var doc := BlogDoc(blogs[k].id, Merge(blogs[k].data, patch));
      blogs := blogs[k := doc];
      reply := Updated(doc);
    }

    /** `deleteBlog`. */
    method DeleteBlog(id: string) returns (reply: Reply)
      modifies this
      ensures (State(), reply) == DeleteSpec(old(State()), id)
    {
      var found := FindById(blogs, BlogId, id);
      if found.None? {
        return Failure(404, BlogNotFound);
      }
      blogs := RemoveAt(blogs, found.value);
      reply := Deleted("Blog deleted successfully");
    }
  }
}
