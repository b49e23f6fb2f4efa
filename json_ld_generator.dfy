/**
 * The JSON-LD generator's form model: four schema forms, field-by-field updates, the
 * editable FAQ list, and the object tree the page serialises. `window.location.href`
 * (the Product offer's url) is a parameter.
 */
module JsonLdGenerator {
  import opened Common

  datatype SchemaType = Article | Product | FAQPage | LocalBusiness

  function SchemaName(t: SchemaType): string {
    match t
    case Article => "Article"
    case Product => "Product"
    case FAQPage => "FAQPage"
    case LocalBusiness => "LocalBusiness"
  }

  // ---------------------------------------------------------------------------------
  // The forms and their field updates (`{ ...record, [field]: value }`)

  datatype ArticleForm = ArticleForm(headline: string, image: string, datePublished: string, authorName: string)
  datatype ArticleField = ArticleHeadline | ArticleImage | ArticleDatePublished | ArticleAuthorName

  function ArticleGet(a: ArticleForm, f: ArticleField): string {
    match f
    case ArticleHeadline => a.headline
    case ArticleImage => a.image
    case ArticleDatePublished => a.datePublished
    case ArticleAuthorName => a.authorName
  }

  /** The named field takes the value; every other field keeps its own. */
  function WithArticleField(a: ArticleForm, f: ArticleField, value: string): (r: ArticleForm)
    ensures ArticleGet(r, f) == value
    ensures forall g :: g != f ==> ArticleGet(r, g) == ArticleGet(a, g)
  {
    match f
    case ArticleHeadline => a.(headline := value)
    case ArticleImage => a.(image := value)
    case ArticleDatePublished => a.(datePublished := value)
    case ArticleAuthorName => a.(authorName := value)
  }

  datatype ProductForm = ProductForm(
    name: string, image: string, description: string, sku: string,
    brandName: string, currency: string, price: string)
  datatype ProductField = ProductName | ProductImage | ProductDescription | ProductSku | ProductBrandName | ProductCurrency | ProductPrice

  function ProductGet(p: ProductForm, f: ProductField): string {
    match f
    case ProductName => p.name
    case ProductImage => p.image
    case ProductDescription => p.description
    case ProductSku => p.sku
    case ProductBrandName => p.brandName
    case ProductCurrency => p.currency
    case ProductPrice => p.price
  }

  function WithProductField(p: ProductForm, f: ProductField, value: string): (r: ProductForm)
    ensures ProductGet(r, f) == value
    ensures forall g :: g != f ==> ProductGet(r, g) == ProductGet(p, g)
  {
    match f
    case ProductName => p.(name := value)
    case ProductImage => p.(image := value)
    case ProductDescription => p.(description := value)
    case ProductSku => p.(sku := value)
    case ProductBrandName => p.(brandName := value)
    case ProductCurrency => p.(currency := value)
    case ProductPrice => p.(price := value)
  }

  datatype BusinessForm = BusinessForm(name: string, address: string, telephone: string, priceRange: string)
  datatype BusinessField = BusinessName | BusinessAddress | BusinessTelephone | BusinessPriceRange

  function BusinessGet(b: BusinessForm, f: BusinessField): string {
    match f
    case BusinessName => b.name
    case BusinessAddress => b.address
    case BusinessTelephone => b.telephone
    case BusinessPriceRange => b.priceRange
  }

  function WithBusinessField(b: BusinessForm, f: BusinessField, value: string): (r: BusinessForm)
    ensures BusinessGet(r, f) == value
    ensures forall g :: g != f ==> BusinessGet(r, g) == BusinessGet(b, g)
  {
    match f
    case BusinessName => b.(name := value)
    case BusinessAddress => b.(address := value)
    case BusinessTelephone => b.(telephone := value)
    case BusinessPriceRange => b.(priceRange := value)
  }

  // ---------------------------------------------------------------------------------
  // The FAQ list

  datatype Faq = Faq(question: string, answer: string)
  datatype FaqField = Question | Answer

  function FaqGet(q: Faq, f: FaqField): string {
    match f
    case Question => q.question
    case Answer => q.answer
  }

  /** `addFaq`: one empty pair at the end, earlier entries untouched. */
  function AddedFaq(faqs: seq<Faq>): (r: seq<Faq>)
    ensures |r| == |faqs| + 1 && r[..|faqs|] == faqs && r[|faqs|] == Faq("", "")
  {
    faqs + [Faq("", "")]
  }

  /** `faqs.filter((_, i) => i !== index)`: the entries whose position is not `index`. */
  function WithoutIndex(faqs: seq<Faq>, index: int): (r: seq<Faq>)
    ensures |r| <= |faqs|
  {
    if faqs == [] then []
    else (if index == 0 then [] else [faqs[0]]) + WithoutIndex(faqs[1..], index - 1)
  }

  /**
   * `removeFaq` removes exactly entry `index` when it is in range, the others keeping
   * their order, and leaves the list unchanged otherwise.
   */
  lemma {:induction false} RemoveFaqCorrect(faqs: seq<Faq>, index: int)
    ensures 0 <= index < |faqs| ==> WithoutIndex(faqs, index) == faqs[..index] + faqs[index + 1..]
    ensures !(0 <= index < |faqs|) ==> WithoutIndex(faqs, index) == faqs
  {
    if faqs != [] {
      RemoveFaqCorrect(faqs[1..], index - 1);
      if index > 0 && index < |faqs| {
        assert faqs[1..][..index - 1] == faqs[1..index];
        assert faqs[1..][index..] == faqs[index + 1..];
        assert [faqs[0]] + faqs[1..index] == faqs[..index];
      } else if index == 0 {
        assert faqs[1..] == faqs[index + 1..];
      } else {
        assert [faqs[0]] + faqs[1..] == faqs;
      }
    }
  }

  /** `updateFaq` on an entry of the list: only that field of that entry changes. */
  function UpdatedFaq(faqs: seq<Faq>, index: nat, f: FaqField, value: string): (r: seq<Faq>)
    requires index < |faqs|
    ensures |r| == |faqs| && FaqGet(r[index], f) == value
    ensures forall g :: g != f ==> FaqGet(r[index], g) == FaqGet(faqs[index], g)
    ensures forall k :: 0 <= k < |faqs| && k != index ==> r[k] == faqs[k]
  {
    var entry := faqs[index];
    faqs[index := match f case Question => entry.(question := value) case Answer => entry.(answer := value)]
  }

  // ---------------------------------------------------------------------------------
  // The object tree

  /** The member names the page writes; `KeyName` gives each one's text. */
  datatype Key =
    | Context | Type | Headline | Image | DatePublished | Author | Name | Description | Sku | Brand
    | Offers | Url | PriceCurrency | Price | Availability | MainEntity | AcceptedAnswer | Text
    | Address | StreetAddress | Telephone | PriceRange

  function KeyName(k: Key): string {
    match k
    case Context => "@context"
    case Type => "@type"
    case Headline => "headline"
    case Image => "image"
    case DatePublished => "datePublished"
    case Author => "author"
    case Name => "name"
    case Description => "description"
    case Sku => "sku"
    case Brand => "brand"
    case Offers => "offers"
    case Url => "url"
    case PriceCurrency => "priceCurrency"
    case Price => "price"
    case Availability => "availability"
    case MainEntity => "mainEntity"
    case AcceptedAnswer => "acceptedAnswer"
    case Text => "text"
    case Address => "address"
    case StreetAddress => "streetAddress"
    case Telephone => "telephone"
    case PriceRange => "priceRange"
  }

  /**
   * A JSON value as the page builds it. An object is a finite map from member names to
   * values; the order in which the page writes the members only shows in the text.
   */
  datatype Json = JString(s: string) | JArray(items: seq<Json>) | JObject(members: map<Key, Json>)

  /** The value found by following the member names of `path` from `j`, if every step exists. */
  function At(j: Json, path: seq<Key>): Option<Json>
    decreases |path|
  {
    if path == [] then Some(j)
    else if j.JObject? && path[0] in j.members then At(j.members[path[0]], path[1..])
    else None
  }

  /** One step of a path. */
  lemma {:induction false} AtStep(j: Json, key: Key, rest: seq<Key>)
    requires j.JObject? && key in j.members
    ensures At(j, [key] + rest) == At(j.members[key], rest)
  {
    assert ([key] + rest)[1..] == rest;
  }

  function Str(s: string): Json {
    JString(s)
  }

  function QuestionJson(q: Faq): Json {
    JObject(map[Type := Str("Question"), Name := Str(q.question),
                AcceptedAnswer := JObject(map[Type := Str("Answer"), Text := Str(q.answer)])])
  }

  function Questions(faqs: seq<Faq>): (r: seq<Json>)
    ensures |r| == |faqs|
  {
    seq(|faqs|, k requires 0 <= k < |faqs| => QuestionJson(faqs[k]))
  }

  /** The form state the generated object is computed from. */
  datatype Forms = Forms(article: ArticleForm, product: ProductForm, faqs: seq<Faq>, business: BusinessForm)

  function PersonJson(name: string): Json {
    JObject(map[Type := Str("Person"), Name := Str(name)])
  }

  function BrandJson(name: string): Json {
    JObject(map[Type := Str("Brand"), Name := Str(name)])
  }

  function OfferJson(p: ProductForm, pageUrl: string): Json {
    JObject(map[Type := Str("Offer"), Url := Str(pageUrl), PriceCurrency := Str(p.currency),
                Price := Str(p.price), Availability := Str("https://schema.org/InStock")])
  }

  function PostalAddressJson(street: string): Json {
    JObject(map[Type := Str("PostalAddress"), StreetAddress := Str(street)])
  }

  /** `generatedJsonLd` before `JSON.stringify`; `pageUrl` stands for `window.location.href`. */
  function GeneratedJsonLd(schema: SchemaType, forms: Forms, pageUrl: string): Json {
    var head := map[Context := Str("https://schema.org"), Type := Str(SchemaName(schema))];
    match schema
    case Article =>
      var a := forms.article;
      JObject(head[Headline := Str(a.headline)][Image := Str(a.image)][DatePublished := Str(a.datePublished)]
                  [Author := PersonJson(a.authorName)])
    case Product =>
      var p := forms.product;
      JObject(head[Name := Str(p.name)][Image := Str(p.image)][Description := Str(p.description)][Sku := Str(p.sku)]
                  [Brand := BrandJson(p.brandName)][Offers := OfferJson(p, pageUrl)])
    case FAQPage =>
      JObject(head[MainEntity := JArray(Questions(forms.faqs))])
    case LocalBusiness =>
      var b := forms.business;
      JObject(head[Name := Str(b.name)][Address := PostalAddressJson(b.address)]
                  [Telephone := Str(b.telephone)][PriceRange := Str(b.priceRange)])
  }

  /** Every schema's object names `https://schema.org` as its context and the selected schema as its type. */
  lemma {:induction false} ContextAndType(schema: SchemaType, forms: Forms, pageUrl: string)
    ensures var j := GeneratedJsonLd(schema, forms, pageUrl);
      && At(j, [Context]) == Some(JString("https://schema.org"))
      && At(j, [Type]) == Some(JString(SchemaName(schema)))
  {
    var j := GeneratedJsonLd(schema, forms, pageUrl);
    AtStep(j, Context, []);
    AtStep(j, Type, []);
  }

  /** An article's author is a Person named by the form's author field. */
  lemma {:induction false} ArticleAuthor(forms: Forms, pageUrl: string)
    ensures var j := GeneratedJsonLd(Article, forms, pageUrl);
      && At(j, [Author, Type]) == Some(JString("Person"))
      && At(j, [Author, Name]) == Some(JString(forms.article.authorName))
      && At(j, [Headline]) == Some(JString(forms.article.headline))
  {
    var j := GeneratedJsonLd(Article, forms, pageUrl);
    var author := PersonJson(forms.article.authorName);
    AtStep(j, Author, [Type]);
    AtStep(author, Type, []);
    AtStep(j, Author, [Name]);
    AtStep(author, Name, []);
    AtStep(j, Headline, []);
  }

  /** A product's offer carries the page url, the currency and price from the form, and in-stock availability. */
  lemma {:induction false} ProductOffer(forms: Forms, pageUrl: string)
    ensures var j := GeneratedJsonLd(Product, forms, pageUrl);
      && At(j, [Offers, Url]) == Some(JString(pageUrl))
      && At(j, [Offers, PriceCurrency]) == Some(JString(forms.product.currency))
      && At(j, [Offers, Price]) == Some(JString(forms.product.price))
      && At(j, [Offers, Availability]) == Some(JString("https://schema.org/InStock"))
  {
    var j := GeneratedJsonLd(Product, forms, pageUrl);
    var offer := OfferJson(forms.product, pageUrl);
    AtStep(j, Offers, [Url]);
    AtStep(offer, Url, []);
    AtStep(j, Offers, [PriceCurrency]);
    AtStep(offer, PriceCurrency, []);
    AtStep(j, Offers, [Price]);
    AtStep(offer, Price, []);
    AtStep(j, Offers, [Availability]);
    AtStep(offer, Availability, []);
  }

  /** A product's brand is a Brand named by the form's brand field, and its sku is the form's. */
  lemma {:induction false} ProductBrand(forms: Forms, pageUrl: string)
    ensures var j := GeneratedJsonLd(Product, forms, pageUrl);
      && At(j, [Brand, Type]) == Some(JString("Brand"))
      && At(j, [Brand, Name]) == Some(JString(forms.product.brandName))
      && At(j, [Sku]) == Some(JString(forms.product.sku))
  {
    var j := GeneratedJsonLd(Product, forms, pageUrl);
    var brand := BrandJson(forms.product.brandName);
    AtStep(j, Brand, [Type]);
    AtStep(brand, Type, []);
    AtStep(j, Brand, [Name]);
    AtStep(brand, Name, []);
    AtStep(j, Sku, []);
  }

  /**
   * A FAQ page's main entity lists one Question per FAQ, in order, named by its question
   * and answered by its answer.
   */
  lemma {:induction false} FaqMainEntity(forms: Forms, pageUrl: string, k: nat)
    ensures var j := GeneratedJsonLd(FAQPage, forms, pageUrl);
      && At(j, [MainEntity]) == Some(JArray(Questions(forms.faqs)))
      && |Questions(forms.faqs)| == |forms.faqs|
      && (k < |forms.faqs| ==>
        var q := Questions(forms.faqs)[k];
        && At(q, [Type]) == Some(JString("Question"))
        && At(q, [Name]) == Some(JString(forms.faqs[k].question))
        && At(q, [AcceptedAnswer, Text]) == Some(JString(forms.faqs[k].answer)))
  {
    var j := GeneratedJsonLd(FAQPage, forms, pageUrl);
    AtStep(j, MainEntity, []);
    if k < |forms.faqs| {
      var q := QuestionJson(forms.faqs[k]);
      AtStep(q, Type, []);
      AtStep(q, Name, []);
      AtStep(q, AcceptedAnswer, [Text]);
      AtStep(q.members[AcceptedAnswer], Text, []);
    }
  }

  /** A local business's street address is the form's address, inside a PostalAddress. */
  lemma {:induction false} LocalBusinessAddress(forms: Forms, pageUrl: string)
    ensures var j := GeneratedJsonLd(LocalBusiness, forms, pageUrl);
      && At(j, [Address, Type]) == Some(JString("PostalAddress"))
      && At(j, [Address, StreetAddress]) == Some(JString(forms.business.address))
      && At(j, [PriceRange]) == Some(JString(forms.business.priceRange))
  {
    var j := GeneratedJsonLd(LocalBusiness, forms, pageUrl);
    var address := PostalAddressJson(forms.business.address);
    AtStep(j, Address, [Type]);
    AtStep(address, Type, []);
    AtStep(j, Address, [StreetAddress]);
    AtStep(address, StreetAddress, []);
    AtStep(j, PriceRange, []);
  }

  /** The generator page's form state. */
  class JsonLdGeneratorPage {
    var selectedSchema: SchemaType
    var article: ArticleForm
    var product: ProductForm
    var faqPage: seq<Faq>
    var localBusiness: BusinessForm

    function CurrentForms(): Forms
      reads this
    {
      Forms(article, product, faqPage, localBusiness)
    }

    /** The page's `generatedJsonLd` for the current schema and forms. */
    function Generated(pageUrl: string): Json
      reads this
    {
      GeneratedJsonLd(selectedSchema, CurrentForms(), pageUrl)
    }

    /** Article first, empty forms except a USD currency and a `$$` price range, and one empty FAQ. */
    constructor()
      ensures selectedSchema == Article && faqPage == [Faq("", "")]
      ensures article == ArticleForm("", "", "", "")
      ensures product == ProductForm("", "", "", "", "", "USD", "")
      ensures localBusiness == BusinessForm("", "", "", "$$")
    {
      selectedSchema := Article;
      article := ArticleForm("", "", "", "");
      product := ProductForm("", "", "", "", "", "USD", "");
      faqPage := [Faq("", "")];
      localBusiness := BusinessForm("", "", "", "$$");
    }

    method UpdateArticle(f: ArticleField, value: string)
      modifies this
      ensures article == WithArticleField(old(article), f, value)
      ensures product == old(product) && faqPage == old(faqPage) && localBusiness == old(localBusiness)
      ensures selectedSchema == old(selectedSchema)
    {
      article := WithArticleField(article, f, value);
    }

    method UpdateProduct(f: ProductField, value: string)
      modifies this
      ensures product == WithProductField(old(product), f, value)
      ensures article == old(article) && faqPage == old(faqPage) && localBusiness == old(localBusiness)
      ensures selectedSchema == old(selectedSchema)
    {
      product := WithProductField(product, f, value);
    }

    method UpdateLocalBusiness(f: BusinessField, value: string)
      modifies this
      ensures localBusiness == WithBusinessField(old(localBusiness), f, value)
      ensures article == old(article) && product == old(product) && faqPage == old(faqPage)
      ensures selectedSchema == old(selectedSchema)
    {
      localBusiness := WithBusinessField(localBusiness, f, value);
    }

    method AddFaq()
      modifies this
      ensures faqPage == AddedFaq(old(faqPage))
      ensures article == old(article) && product == old(product) && localBusiness == old(localBusiness)
      ensures selectedSchema == old(selectedSchema)
    {
      faqPage := faqPage + [Faq("", "")];
    }

    method RemoveFaq(index: int)
      modifies this
      ensures faqPage == WithoutIndex(old(faqPage), index)
      ensures 0 <= index < |old(faqPage)| ==> faqPage == old(faqPage)[..index] + old(faqPage)[index + 1..]
      ensures !(0 <= index < |old(faqPage)|) ==> faqPage == old(faqPage)
      ensures article == old(article) && product == old(product) && localBusiness == old(localBusiness)
      ensures selectedSchema == old(selectedSchema)
    {
      faqPage := WithoutIndex(faqPage, index);
      RemoveFaqCorrect(old(faqPage), index);
    }

    method UpdateFaq(index: nat, f: FaqField, value: string)
      requires index < |faqPage|
      modifies this
      ensures faqPage == UpdatedFaq(old(faqPage), index, f, value)
      ensures article == old(article) && product == old(product) && localBusiness == old(localBusiness)
      ensures selectedSchema == old(selectedSchema)
    {
      faqPage := UpdatedFaq(faqPage, index, f, value);
    }
  }
}
