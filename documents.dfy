/**
 * Language selection shared by the two localisation helpers, and the shapes of
 * the persisted product and blog documents (the Mongoose schemas).
 *
 * A JavaScript field that is `null` or `undefined` is `None` (or a missing map
 * key); the `??` operator treats the two alike, so the model does too.
 */
module Lang {
  import opened Wrappers

  /** A multilingual text: language code to text. A key bound to `null` is absent. */
  type Translations = map<string, string>

  const English: string := "en"

  /** `t(obj, lang = 'en', fallback = '')`: `obj?.[lang] ?? obj?.en ?? fallback`. */
  function T(obj: Option<Translations>, lang: string := English, fallback: string := ""): (r: string)
    ensures obj.Some? && lang in obj.value ==> r == obj.value[lang]
    ensures obj.Some? && lang !in obj.value && English in obj.value ==> r == obj.value[English]
    ensures obj.None? || (lang !in obj.value && English !in obj.value) ==> r == fallback
  {
    if obj.Some? && lang in obj.value then obj.value[lang]
    else if obj.Some? && English in obj.value then obj.value[English]
    else fallback
  }

  /** The selected text is always one of the stored texts or the fallback. */
  lemma TIsStoredOrFallback(obj: Option<Translations>, lang: string, fallback: string)
    ensures T(obj, lang, fallback) == fallback
         || (obj.Some? && T(obj, lang, fallback) in obj.value.Values)
  {
    if obj.Some? && lang in obj.value {
      assert obj.value[lang] in obj.value.Values;
    } else if obj.Some? && English in obj.value {
      assert obj.value[English] in obj.value.Values;
    }
  }

  /** `??` is not `||`: an empty text in the requested language is returned as it
      is, even when an English text exists. */
  lemma EmptyTextIsAHit(obj: Translations, lang: string)
    requires lang in obj && obj[lang] == ""
    ensures T(Some(obj), lang) == ""
  {
  }

  /** `req.query.lang || 'en'`: an absent or empty query parameter selects English. */
  function LangOf(query: Option<string>): (lang: string)
    ensures lang != ""
    ensures query.Some? && query.value != "" ==> lang == query.value
    ensures query.None? || query.value == "" ==> lang == English
  {
    if query.Some? && query.value != "" then query.value else English
  }
}

module Documents {
  import opened Wrappers
  import opened Lang

  /** One entry of `productDetailsImages` (or `blogImages`): a URL and an alt text. */
  datatype ImageRef = ImageRef(url: Option<string>, alt: Option<Translations>)

  /**
   * The fields of a product (models/productModel.js). Numbers are `real`;
   * dates are millisecond timestamps. `kind` is the schema's `type` field.
   * The same record is the client's draft (the parsed `data` form field) and
   * the stored document.
   */
  datatype ProductData = ProductData(
    productname: Option<Translations>,
    productamount: Option<real>,
    productPrice: Option<real>,
    discountPrice: Option<real>,
    stock: Option<real>,
    productDescription: Option<Translations>,
    productImage: Option<string>,
    productDetailsImages: Option<seq<ImageRef>>,
    kind: Option<Translations>,
    createdAt: Option<int>,
    updatedAt: Option<int>)

  /** `{}`: a draft with no field set. */
  const EmptyProductData: ProductData :=
    ProductData(None, None, None, None, None, None, None, None, None, None, None)

  datatype ProductDoc = ProductDoc(id: nat, data: ProductData)

  /** The fields of a blog post (models/blogModel.js). */
  datatype BlogData = BlogData(
    blogTitle: Option<Translations>,
    blogInfo: Option<Translations>,
    blogImage: Option<string>,
    blogImages: Option<seq<ImageRef>>,
    createdAt: Option<int>,
    updatedAt: Option<int>)

  datatype BlogDoc = BlogDoc(id: nat, data: BlogData)

  /** The languages the schemas declare for every multilingual field. */
  const SchemaLanguages: set<string> := {"en", "fa", "ar"}

  /** Casting a multilingual value into the schema keeps the declared
      languages and drops every other key (strict mode). */
  function CastText(t: Option<Translations>): (r: Option<Translations>)
    ensures r.None? <==> t.None?
    ensures r.Some? ==> forall k :: k in r.value <==> k in t.value && k in SchemaLanguages
    ensures r.Some? ==> forall k :: k in r.value ==> r.value[k] == t.value[k]
  {
    match t
    case None => None
    case Some(m) => Some(map k | k in m && k in SchemaLanguages :: m[k])
  }

  /** Casting does not change what a reader sees in a declared language. */
  lemma CastTextReadsTheSame(t: Option<Translations>, lang: string)
    requires lang in SchemaLanguages
    ensures T(CastText(t), lang) == T(t, lang)
  {
  }

  function CastImage(img: ImageRef): (r: ImageRef)
    ensures r.url == img.url && r.alt == CastText(img.alt)
  {
    ImageRef(img.url, CastText(img.alt))
  }

  function CastImages(imgs: Option<seq<ImageRef>>): (r: Option<seq<ImageRef>>)
    ensures r.None? <==> imgs.None?
    ensures r.Some? ==> |r.value| == |imgs.value|
    ensures r.Some? ==> forall i :: 0 <= i < |r.value| ==> r.value[i] == CastImage(imgs.value[i])
  {
    match imgs
    case None => None
    case Some(s) => Some(seq(|s|, i requires 0 <= i < |s| => CastImage(s[i])))
  }

  /** A `{ en: { required: true }, fa: { required: true } }` text passes the
      `required` validator: both texts are there and neither is empty. */
  predicate RequiredText(t: Option<Translations>) {
    t.Some? && "en" in t.value && t.value["en"] != "" && "fa" in t.value && t.value["fa"] != ""
  }
}
