/** The shapes the API returns for one language (utils/localizeProduct.js, utils/localizeBlog.js). */
module Localized {
  import opened Wrappers
  import opened Lang
  import opened Documents

  datatype LocalizedImage = LocalizedImage(url: Option<string>, alt: string)

  /** `images?.map(img => ({ url: img.url, alt: t(img.alt, lang) })) || []`. */
  function LocalizeImages(images: Option<seq<ImageRef>>, lang: string): (r: seq<LocalizedImage>)
    ensures images.None? ==> r == []
    ensures images.Some? ==> |r| == |images.value|
    ensures images.Some? ==> forall i :: 0 <= i < |r| ==>
              r[i].url == images.value[i].url && r[i].alt == T(images.value[i].alt, lang)
  {
    match images
    case None => []
    case Some(imgs) => seq(|imgs|, i requires 0 <= i < |imgs| => LocalizedImage(imgs[i].url, T(imgs[i].alt, lang)))
  }

  /** A missing `alt` localises to the empty fallback. */
  lemma MissingAltIsEmpty(images: seq<ImageRef>, lang: string, i: nat)
    requires i < |images| && images[i].alt.None?
    ensures LocalizeImages(Some(images), lang)[i].alt == ""
  {
  }
}

module LocalizeProduct {
  import opened Wrappers
  import opened Lang
  import opened Documents
  import opened Localized

  datatype LocalizedProduct = LocalizedProduct(
    id: nat,
    productname: string,
    productamount: Option<real>,
    productPrice: Option<real>,
    discountPrice: Option<real>,
    stock: Option<real>,
    productDescription: string,
    productImage: Option<string>,
    productDetailsImages: seq<LocalizedImage>,
    kind: string,
    createdAt: Option<int>,
    updatedAt: Option<int>)

  /** `localizeProduct(product, lang = 'en')`. */
  function LocalizeProduct(p: ProductDoc, lang: string := English): (r: LocalizedProduct)
    // copied unchanged
    ensures r.id == p.id
    ensures r.productamount == p.data.productamount && r.productPrice == p.data.productPrice
    ensures r.discountPrice == p.data.discountPrice && r.stock == p.data.stock
    ensures r.productImage == p.data.productImage
    ensures r.createdAt == p.data.createdAt && r.updatedAt == p.data.updatedAt
    // localised through the fallback chain
    ensures r.productname == T(p.data.productname, lang)
    ensures r.productDescription == T(p.data.productDescription, lang)
    ensures r.kind == T(p.data.kind, lang)
    ensures r.productDetailsImages == LocalizeImages(p.data.productDetailsImages, lang)
  {
    var d := p.data;
    LocalizedProduct(p.id, T(d.productname, lang), d.productamount, d.productPrice, d.discountPrice,
      d.stock, T(d.productDescription, lang), d.productImage,
      LocalizeImages(d.productDetailsImages, lang), T(d.kind, lang), d.createdAt, d.updatedAt)
  }

  /** `localizeProducts(products, lang = 'en')`: an element-wise map. */
  function LocalizeProducts(ps: seq<ProductDoc>, lang: string := English): (r: seq<LocalizedProduct>)
    ensures |r| == |ps|
    ensures forall i :: 0 <= i < |ps| ==> r[i] == LocalizeProduct(ps[i], lang)
  {
    seq(|ps|, i requires 0 <= i < |ps| => LocalizeProduct(ps[i], lang))
  }

  /** Localising a list keeps its documents' ids in their order. */
  lemma LocalizeProductsKeepsIds(ps: seq<ProductDoc>, lang: string, i: nat, j: nat)
    requires i < |ps| && j < |ps|
    ensures LocalizeProducts(ps, lang)[i].id == LocalizeProducts(ps, lang)[j].id <==> ps[i].id == ps[j].id
  {
  }

  /** Localising a concatenation is concatenating the localised parts. */
  lemma LocalizeProductsAppend(a: seq<ProductDoc>, b: seq<ProductDoc>, lang: string)
    ensures LocalizeProducts(a + b, lang) == LocalizeProducts(a, lang) + LocalizeProducts(b, lang)
  {
    var l, r := LocalizeProducts(a + b, lang), LocalizeProducts(a, lang) + LocalizeProducts(b, lang);
    forall i | 0 <= i < |l| ensures l[i] == r[i] {
      if i < |a| { assert (a + b)[i] == a[i]; } else { assert (a + b)[i] == b[i - |a|]; }
    }
  }
}

module LocalizeBlog {
  import opened Wrappers
  import opened Lang
  import opened Documents
  import opened Localized

  datatype LocalizedBlog = LocalizedBlog(
    id: nat,
    blogTitle: string,
    blogInfo: string,
    blogImage: Option<string>,
    blogImages: seq<LocalizedImage>,
    createdAt: Option<int>,
    updatedAt: Option<int>)

  /** `localizeBlog(blog, lang = 'en')`. */
  function LocalizeBlog(b: BlogDoc, lang: string := English): (r: LocalizedBlog)
    ensures r.id == b.id && r.blogImage == b.data.blogImage
    ensures r.createdAt == b.data.createdAt && r.updatedAt == b.data.updatedAt
    ensures r.blogTitle == T(b.data.blogTitle, lang) && r.blogInfo == T(b.data.blogInfo, lang)
    ensures r.blogImages == LocalizeImages(b.data.blogImages, lang)
  {
    var d := b.data;
    LocalizedBlog(b.id, T(d.blogTitle, lang), T(d.blogInfo, lang), d.blogImage,
      LocalizeImages(d.blogImages, lang), d.createdAt, d.updatedAt)
  }

  /** `localizeBlogs(blogs, lang = 'en')`: an element-wise map. */
  function LocalizeBlogs(bs: seq<BlogDoc>, lang: string := English): (r: seq<LocalizedBlog>)
    ensures |r| == |bs|
    ensures forall i :: 0 <= i < |bs| ==> r[i] == LocalizeBlog(bs[i], lang)
  {
    seq(|bs|, i requires 0 <= i < |bs| => LocalizeBlog(bs[i], lang))
  }

  /** Localising a concatenation is concatenating the localised parts. */
  lemma LocalizeBlogsAppend(a: seq<BlogDoc>, b: seq<BlogDoc>, lang: string)
    ensures LocalizeBlogs(a + b, lang) == LocalizeBlogs(a, lang) + LocalizeBlogs(b, lang)
  {
    var l, r := LocalizeBlogs(a + b, lang), LocalizeBlogs(a, lang) + LocalizeBlogs(b, lang);
    forall i | 0 <= i < |l| ensures l[i] == r[i] {
      if i < |a| { assert (a + b)[i] == a[i]; } else { assert (a + b)[i] == b[i - |a|]; }
    }
  }

  /** A blog whose texts all carry English reads, in a language it lacks,
      exactly as it reads in English. */
  lemma MissingLanguageReadsAsEnglish(b: BlogDoc, lang: string)
    requires b.data.blogTitle.Some? && lang !in b.data.blogTitle.value && English in b.data.blogTitle.value
    requires b.data.blogInfo.Some? && lang !in b.data.blogInfo.value && English in b.data.blogInfo.value
    requires b.data.blogImages.Some? ==> forall i :: 0 <= i < |b.data.blogImages.value| ==>
               var alt := b.data.blogImages.value[i].alt; alt.Some? ==> lang !in alt.value
    ensures LocalizeBlog(b, lang) == LocalizeBlog(b, English)
  {
    var l, e := LocalizeBlog(b, lang), LocalizeBlog(b, English);
    if b.data.blogImages.Some? {
      forall i | 0 <= i < |l.blogImages| ensures l.blogImages[i] == e.blogImages[i] { }
    }
  }
}
