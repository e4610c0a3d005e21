/** The product schema: record shape, required fields, numeric bounds, defaults and trimming. */
module ProductModel {
  import opened Js

  /** One stored image: Cloudinary's `secure_url` and `public_id`. */
  datatype Image = Image(url: string, publicId: Option<string>)

  datatype Product = Product(
    name: string,
    description: string,
    price: int,
    image: seq<Image>,
    category: string,
    subCategory: string,
    sizes: seq<string>,
    bestseller: bool,
    discount: int,
    discountPrice: int,
    embedding: seq<int>,
    date: int)

  /**
   * The fields handed to `Product.create`; `None` is a field left undefined. Numbers
   * arrive already coerced, possibly to NaN, which Mongoose refuses to cast.
   */
  datatype Draft = Draft(
    name: Option<string>,
    description: Option<string>,
    price: Number,
    image: seq<Image>,
    category: Option<string>,
    subCategory: Option<string>,
    sizes: seq<string>,
    bestseller: Option<bool>,
    discount: Option<Number>,
    discountPrice: Number,
    date: int)

  /** A required string path: present and non-empty. */
  predicate Present(s: Option<string>) {
    s.Some? && s.value != ""
  }

  /** What every stored product satisfies. */
  predicate Valid(p: Product) {
    p.name != "" && Trim(p.name) == p.name
    && p.description != "" && p.category != "" && p.subCategory != ""
    && p.price >= 0 && 0 <= p.discount <= 99 && p.discountPrice >= 0
  }

  /** The draft's `discount`, with the schema default 0 for an undefined one. */
  function DiscountOf(d: Draft): Number {
    d.discount.GetOr(Int(0))
  }

  /** Whether `Product.create(d)` passes casting and validation. */
  predicate Accepts(d: Draft) {
    d.name.Some? && Trim(d.name.value) != ""
    && Present(d.description) && Present(d.category) && Present(d.subCategory)
    && d.price.Int? && d.price.n >= 0
    && DiscountOf(d).Int? && 0 <= DiscountOf(d).n <= 99
    && d.discountPrice.Int? && d.discountPrice.n >= 0
  }

  /**
   * `Product.create(d)`: the name is trimmed before validation, `bestseller` defaults
   * to false, `discount` to 0 and `embedding` to []. `None` is a ValidationError.
   */
  function Create(d: Draft): (r: Option<Product>)
    ensures r.Some? <==> Accepts(d)
    ensures r.Some? ==> Valid(r.value)
    ensures r.Some? ==> r.value.name == Trim(d.name.value)
    ensures r.Some? ==> r.value.bestseller == d.bestseller.GetOr(false) && r.value.discount == DiscountOf(d).n
    ensures r.Some? ==> r.value.embedding == [] && r.value.image == d.image && r.value.sizes == d.sizes
    ensures r.Some? ==> r.value.price == d.price.n && r.value.discountPrice == d.discountPrice.n
    ensures r.Some? ==> r.value.description == d.description.value && r.value.date == d.date
    ensures r.Some? ==> r.value.category == d.category.value && r.value.subCategory == d.subCategory.value
  {
    if Accepts(d) then
      var name := Trim(d.name.value);
      TrimIdempotent(d.name.value);
      Some(Product(name, d.description.value, d.price.n, d.image, d.category.value, d.subCategory.value,
                   d.sizes, d.bestseller.GetOr(false), DiscountOf(d).n, d.discountPrice.n, [], d.date))
    else None
  }

  lemma TrimIdempotent(s: string)
    ensures Trim(Trim(s)) == Trim(s)
  {
    var t := Trim(s);
    if t != [] {
      TrimKeeps(t);
    }
  }

  /** The draft that stores exactly `p`. */
  function DraftOf(p: Product): Draft {
    Draft(Some(p.name), Some(p.description), Int(p.price), p.image, Some(p.category), Some(p.subCategory),
          p.sizes, Some(p.bestseller), Some(Int(p.discount)), Int(p.discountPrice), p.date)
  }

  /** Validation rejects nothing valid: every valid product without an embedding can be created. */
  lemma CreateAcceptsValid(p: Product)
    requires Valid(p) && p.embedding == []
    ensures Create(DraftOf(p)) == Some(p)
  {
  }
}
