/**
 * The product handlers. `addProduct` picks the uploaded images, pushes them to
 * Cloudinary, coerces the multipart form fields and creates the product, reporting
 * every failure as a 500 with the error's message; the other three handlers look up
 * or delete one product by id, or list them all.
 */
module ProductController {
  import opened Js
  import opened Mongo
  import opened ProductModel

  // ---------------------------------------------------------------------------
  // Image selection

  /** A file multer kept in memory. */
  datatype UploadedFile = UploadedFile(buffer: Option<seq<bv8>>, mimetype: string, originalname: string)

  /** `req.files`: field name to the files uploaded under it. */
  type Files = map<string, seq<UploadedFile>>

  const ImageSlots: seq<string> := ["image1", "image2", "image3", "image4"]

  /** `files[key]?.[0]`, kept only when it exists. */
  function FirstOf(files: Files, key: string): seq<UploadedFile> {
    if key in files && |files[key]| > 0 then [files[key][0]] else []
  }

  /** `keys.map(key => files[key]?.[0]).filter(Boolean)` */
  function FirstFiles(keys: seq<string>, files: Files): (r: seq<UploadedFile>)
    ensures |r| <= |keys|
    decreases |keys|
  {
    if keys == [] then [] else FirstOf(files, keys[0]) + FirstFiles(keys[1..], files)
  }

  /** Selection works slot by slot: the picks for a list of keys are the picks for its parts, in order. */
  lemma {:induction false} FirstFilesAppend(a: seq<string>, b: seq<string>, files: Files)
    ensures FirstFiles(a + b, files) == FirstFiles(a, files) + FirstFiles(b, files)
    decreases |a|
  {
    if a == [] {
      assert a + b == b;
    } else {
      assert (a + b)[1..] == a[1..] + b;
      FirstFilesAppend(a[1..], b, files);
    }
  }

  /** The images of `addProduct`: the first file of each of image1..image4 that has one, in slot order. */
  lemma SlotImages(files: Files)
    ensures FirstFiles(ImageSlots, files)
         == FirstOf(files, "image1") + FirstOf(files, "image2") + FirstOf(files, "image3") + FirstOf(files, "image4")
  {
    assert FirstFiles(["image4"], files) == FirstOf(files, "image4") by {
      assert ["image4"][1..] == [];
    }
    assert FirstFiles(["image3", "image4"], files) == FirstOf(files, "image3") + FirstFiles(["image4"], files) by {
      assert ["image3", "image4"][1..] == ["image4"];
    }
    assert FirstFiles(["image2", "image3", "image4"], files)
        == FirstOf(files, "image2") + FirstFiles(["image3", "image4"], files) by {
      assert ["image2", "image3", "image4"][1..] == ["image3", "image4"];
    }
    assert ImageSlots[1..] == ["image2", "image3", "image4"];
  }

  /** No image is selected exactly when none of the four slots has a file. */
  lemma NoImagesIffEmptySlots(files: Files)
    ensures FirstFiles(ImageSlots, files) == [] <==> forall k :: k in ImageSlots ==> FirstOf(files, k) == []
  {
    SlotImages(files);
  }

  // ---------------------------------------------------------------------------
  // Field coercion

  /** `Math.round((price * 100 - price * discount) / 100)` on integers. */
  function DiscountPrice(price: int, discount: int): int {
    (price * 100 - price * discount + 50) / 100
  }

  /** The discounted price is `price * (100 - discount) / 100` rounded to the nearest integer, halves up. */
  lemma DiscountPriceRounds(price: int, discount: int)
    ensures var r := DiscountPrice(price, discount);
      var exact := (price * (100 - discount)) as real / 100.0;
      (r as real) - 0.5 <= exact < (r as real) + 0.5
  {
    var r := DiscountPrice(price, discount);
    var x := price * 100 - price * discount;
    assert x == price * (100 - discount);
    assert 100 * r <= x + 50 < 100 * r + 100;
  }

  /** No discount, full price. */
  lemma DiscountPriceNoDiscount(price: int)
    ensures DiscountPrice(price, 0) == price
  {
  }

  /** Within the schema's bounds the discounted price lies between 0 and the price. */
  lemma DiscountPriceBounds(price: int, discount: int)
    requires price >= 0 && 0 <= discount <= 99
    ensures 0 <= DiscountPrice(price, discount) <= price
  {
    var x := price * 100 - price * discount;
    assert x == price * (100 - discount);
    assert price * (100 - discount) >= price * 1;
    assert x <= price * 100;
  }

  /** The arithmetic of line 44 in JavaScript numbers: NaN in, NaN out. */
  function RawDiscountPrice(price: Number, discount: Number): Number {
    if price.Int? && discount.Int? then Int(DiscountPrice(price.n, discount.n)) else NaN
  }

  /** The multipart fields of `addProduct`; every value is a string or absent. */
  datatype Form = Form(
    name: Option<string>,
    description: Option<string>,
    price: Option<string>,
    category: Option<string>,
    subCategory: Option<string>,
    sizes: Option<string>,
    discount: Option<string>,
    bestseller: Option<string>)

  /** `discount ? Number(discount) : 0` */
  function StoredDiscount(discount: Option<string>): Number {
    if TruthyStr(discount) then ToNumber(discount) else Int(0)
  }

  /**
   * `productData`: the price coerced with `Number`, the stored discount defaulted when
   * falsy, but the discounted price computed from the raw discount field.
   */
  function ProductDraft(form: Form, images: seq<Image>, sizes: seq<string>, now: int): Draft {
    Draft(form.name, form.description, ToNumber(form.price), images, form.category, form.subCategory,
          sizes, Some(form.bestseller == Some("true")), Some(StoredDiscount(form.discount)),
          RawDiscountPrice(ToNumber(form.price), ToNumber(form.discount)), now)
  }

  /**
   * A form with no discount field never creates a product: the stored discount would
   * default to 0, but the discounted price is NaN and fails to cast.
   */
  lemma MissingDiscountRejected(form: Form, images: seq<Image>, sizes: seq<string>, now: int)
    requires form.discount.None?
    ensures Create(ProductDraft(form, images, sizes, now)).None?
  {
  }

  /** An empty discount field is stored as 0 and leaves the full price. */
  lemma EmptyDiscountKeepsPrice(form: Form, images: seq<Image>, sizes: seq<string>, now: int, price: nat)
    requires form.discount == Some("") && form.price == Some(DecimalString(price))
    ensures var d := ProductDraft(form, images, sizes, now);
      d.discount == Some(Int(0)) && d.discountPrice == Int(price)
  {
    ToNumberOfDecimal(price);
    assert Trim("") == "";
    var empty := ToNumber(form.discount);
    assert empty == Int(0);
    DiscountPriceNoDiscount(price);
    assert RawDiscountPrice(ToNumber(form.price), empty) == Int(price);
  }

  /**
   * A form with a decimal price and an in-range decimal discount, all text fields
   * filled, creates the product with the rounded discounted price; `bestseller` is
   * true exactly for the string "true".
   */
  lemma DecimalFormCreates(form: Form, images: seq<Image>, sizes: seq<string>, now: int, price: nat, discount: nat)
    requires form.price == Some(DecimalString(price)) && form.discount == Some(DecimalString(discount))
    requires discount <= 99
    requires form.name.Some? && Trim(form.name.value) != ""
    requires Present(form.description) && Present(form.category) && Present(form.subCategory)
    ensures var p := Create(ProductDraft(form, images, sizes, now));
      p.Some? && p.value.price == price && p.value.discount == discount
      && p.value.discountPrice == DiscountPrice(price, discount)
      && (p.value.bestseller <==> form.bestseller == Some("true"))
  {
    var d := ProductDraft(form, images, sizes, now);
    ToNumberOfDecimal(price);
    ToNumberOfDecimal(discount);
    assert d.price == Int(price);
    assert DiscountOf(d) == Int(discount);
    assert d.discountPrice == Int(DiscountPrice(price, discount));
    DiscountPriceBounds(price, discount);
    assert Accepts(d);
  }

  // ---------------------------------------------------------------------------
  // Oracles

  /** What `uploadOnCloudinary` settles with: the upload result, or a rejection. */
  datatype Upload = Uploaded(secureUrl: Option<string>, publicId: Option<string>) | UploadRejected

  /** The message an upload ends with when it fails, if it fails. */
  function UploadFailure(u: Upload): Option<string> {
    match u
    case UploadRejected => Some("Cloudinary upload failed")
    case Uploaded(url, _) => if TruthyStr(url) then None else Some("Image upload failed")
  }

  /** `JSON.parse(sizes)` cast to `[String]`, or the SyntaxError it throws. */
  datatype SizesParse = Sizes(list: seq<string>) | Unparseable(message: string)

  /** What `cloudinary.uploader.destroy` settles with. */
  datatype Destroy = Destroyed | DestroyFailed(error: Thrown)

  // ---------------------------------------------------------------------------
  // Handlers

  /** The body of an `addProduct` response. */
  datatype AddReply = Added(product: Product) | Failure(message: string)

  const NoImagesUploaded := "No images uploaded"
  const ImageRequired := "At least one image is required"
  const InvalidBuffer := "Invalid file buffer"
  const InvalidProductId := "Invalid product ID"
  const ProductNotFound := "Product not found"
  const NoProducts := "No products found"

  function Buffered(images: seq<UploadedFile>): (r: seq<UploadedFile>)
    ensures forall f :: f in r <==> f in images && f.buffer.Some?
    decreases |images|
  {
    if images == [] then []
    else (if images[0].buffer.Some? then [images[0]] else []) + Buffered(images[1..])
  }

  /** The upload of each image, in slot order; every image has a buffer. */
  function UploadAll(images: seq<UploadedFile>, upload: (seq<bv8>, string) -> Upload): (r: seq<Upload>)
    requires forall i :: i in images ==> i.buffer.Some?
    ensures |r| == |images|
    ensures forall k :: 0 <= k < |r| ==> r[k] == upload(images[k].buffer.value, images[k].mimetype)
    decreases |images|
  {
    if images == [] then []
    else [upload(images[0].buffer.value, images[0].mimetype)] + UploadAll(images[1..], upload)
  }

  /** `{ url: secure_url, public_id }` for each upload, when none failed. */
  function StoredImages(results: seq<Upload>): (r: seq<Image>)
    requires forall k :: 0 <= k < |results| ==> results[k].Uploaded? && results[k].secureUrl.Some?
    ensures |r| == |results|
    ensures forall k :: 0 <= k < |r| ==> r[k] == Image(results[k].secureUrl.value, results[k].publicId)
    decreases |results|
  {
    if results == [] then []
    else [Image(results[0].secureUrl.value, results[0].publicId)] + StoredImages(results[1..])
  }

  /**
   * How `addProduct` settles once every image has a buffer: 500 with the message of a
   * failed upload (whichever rejects first), else 500 for a sizes parse error or a
   * validation failure, else 201 with the created product.
   */
  predicate Settles(r: Outcome<AddReply>, form: Form, images: seq<UploadedFile>,
                    upload: (seq<bv8>, string) -> Upload, parseSizes: string -> SizesParse, now: int)
    requires forall i :: i in images ==> i.buffer.Some?
  {
    var results := UploadAll(images, upload);
    if exists k :: 0 <= k < |results| && UploadFailure(results[k]).Some? then
      r.Reply? && r.status == 500 && r.body.Failure?
      && exists k :: 0 <= k < |results| && UploadFailure(results[k]) == Some(r.body.message)
    else
      var stored := StoredImages(results);
      match parseSizes(Show(form.sizes))
      case Unparseable(m) => r == Reply(500, Failure(m))
      case Sizes(list) =>
        var made := Create(ProductDraft(form, stored, list, now));
        if made.None? then r == Reply(500, Failure(ValidationError.message))
        else r == Reply(201, Added(made.value))
  }

  /** The part of `addProduct` after the buffer check: upload, parse the sizes, create, store. */
  method StoreProduct(products: Collection<Product>, form: Form, images: seq<UploadedFile>,
                      upload: (seq<bv8>, string) -> Upload, parseSizes: string -> SizesParse,
                      newId: string, now: int)
    returns (r: Outcome<AddReply>)
    requires IsObjectId(newId) && newId !in products.docs
    requires forall i :: i in images ==> i.buffer.Some?
    modifies products
    ensures Settles(r, form, images, upload, parseSizes, now)
    ensures r.Reply? && (r.status == 201 <==> products.docs != old(products.docs))
    ensures r.status == 201 ==>
      r.body.Added? && products.docs == old(products.docs)[newId := r.body.product] && Valid(r.body.product)
    ensures r.status != 201 ==> r.body.Failure? && products.docs == old(products.docs)
  {
    var results := UploadAll(images, upload);
    if exists k :: 0 <= k < |results| && UploadFailure(results[k]).Some? {
      var k :| 0 <= k < |results| && UploadFailure(results[k]).Some?;
      return Reply(500, Failure(UploadFailure(results[k]).value));
    }
    var stored := StoredImages(results);
    var parsed := parseSizes(Show(form.sizes));
    if parsed.Unparseable? {
      return Reply(500, Failure(parsed.message));
    }
    var made := Create(ProductDraft(form, stored, parsed.list, now));
    if made.None? {
      return Reply(500, Failure(ValidationError.message));
    }
    products.docs := products.docs[newId := made.value];
    r := Reply(201, Added(made.value));
  }

  /**
   * `addProduct`. The buffer check of every image runs before any upload settles, so a
   * missing buffer wins; otherwise the reported upload failure is one of the failed
   * uploads, whichever rejects first. Every upload with a buffer is attempted even when
   * the product is then not created. `attempted` lists them.
   */
  method AddProduct(products: Collection<Product>, form: Form, files: Option<Files>,
                    upload: (seq<bv8>, string) -> Upload, parseSizes: string -> SizesParse,
                    newId: string, now: int)
    returns (r: Outcome<AddReply>, attempted: seq<UploadedFile>)
    requires IsObjectId(newId) && newId !in products.docs
    modifies products
    ensures r.Reply?
    ensures r.status == 201 <==> products.docs != old(products.docs)
    ensures r.status == 201 ==>
      r.body.Added? && products.docs == old(products.docs)[newId := r.body.product] && Valid(r.body.product)
    ensures r.status != 201 ==> r.body.Failure? && products.docs == old(products.docs)
    ensures files.None? || files.value == map[] ==> r == Reply(400, Failure(NoImagesUploaded)) && attempted == []
    ensures files.Some? && files.value != map[] ==>
      var images := FirstFiles(ImageSlots, files.value);
      if images == [] then r == Reply(400, Failure(ImageRequired)) && attempted == []
      else
        attempted == Buffered(images)
        && ((exists i :: i in images && i.buffer.None?) ==> r == Reply(500, Failure(InvalidBuffer)))
        && ((forall i :: i in images ==> i.buffer.Some?) ==> Settles(r, form, images, upload, parseSizes, now))
  {
    attempted := [];
    if files.None? || |files.value| == 0 {
      return Reply(400, Failure(NoImagesUploaded)), attempted;
    }
    var images := FirstFiles(ImageSlots, files.value);
    if images == [] {
      return Reply(400, Failure(ImageRequired)), attempted;
    }
    attempted := Buffered(images);
    if exists i :: i in images && i.buffer.None? {
      return Reply(500, Failure(InvalidBuffer)), attempted;
    }
    r := StoreProduct(products, form, images, upload, parseSizes, newId, now);
  }

  /** `handleAllProducts`: every product, or 404 when there are none. */
  method HandleAllProducts(products: Collection<Product>) returns (r: Outcome<map<string, Product>>)
    ensures products.docs == map[] <==> r.Raised(404)
    ensures r.Reply? ==> r.status == 200 && r.body == products.docs
  {
    if |products.docs| == 0 {
      return Throw(ApiError(404, NoProducts));
    }
    r := Reply(200, products.docs);
  }

  /** `singleProduct`: 400 for a malformed id, 404 for an unknown one, else the product. */
  method SingleProduct(products: Collection<Product>, id: string) returns (r: Outcome<Product>)
    ensures !IsObjectId(id) <==> r.Raised(400)
    ensures IsObjectId(id) && id !in products.docs <==> r.Raised(404)
    ensures r.Reply? ==> r.status == 200 && id in products.docs && r.body == products.docs[id]
  {
    if !IsObjectId(id) {
      return Throw(ApiError(400, InvalidProductId));
    }
    if id !in products.docs {
      return Throw(ApiError(404, ProductNotFound));
    }
    r := Reply(200, products.docs[id]);
  }

  /** The `public_id` of each stored image, in order. */
  function PublicIds(images: seq<Image>): seq<Option<string>> {
    seq(|images|, k requires 0 <= k < |images| => images[k].publicId)
  }

  /**
   * `removeProduct`: one Cloudinary destroy per stored image (`destroyed` lists the
   * ids), then the delete. A failed destroy propagates and the product stays.
   */
  method RemoveProduct(products: Collection<Product>, id: string, destroy: Option<string> -> Destroy)
    returns (r: Outcome<()>, destroyed: seq<Option<string>>)
    modifies products
    ensures !IsObjectId(id) ==>
      r == Throw(ApiError(400, InvalidProductId)) && destroyed == [] && products.docs == old(products.docs)
    ensures IsObjectId(id) && id !in old(products.docs) ==>
      r == Throw(ApiError(404, ProductNotFound)) && destroyed == [] && products.docs == old(products.docs)
    ensures IsObjectId(id) && id in old(products.docs) ==>
      destroyed == PublicIds(old(products.docs)[id].image)
      && if exists k :: 0 <= k < |destroyed| && destroy(destroyed[k]).DestroyFailed? then
           products.docs == old(products.docs) && r.Throw?
           && exists k :: 0 <= k < |destroyed| && destroy(destroyed[k]) == DestroyFailed(r.error)
         else
           r == Reply(200, ()) && products.docs == old(products.docs) - {id}
  {
    destroyed := [];
    if !IsObjectId(id) {
      return Throw(ApiError(400, InvalidProductId)), destroyed;
    }
    if id !in products.docs {
      return Throw(ApiError(404, ProductNotFound)), destroyed;
    }
    destroyed := PublicIds(products.docs[id].image);
    if exists k :: 0 <= k < |destroyed| && destroy(destroyed[k]).DestroyFailed? {
      var k :| 0 <= k < |destroyed| && destroy(destroyed[k]).DestroyFailed?;
      return Throw(destroy(destroyed[k]).error), destroyed;
    }
    products.docs := products.docs - {id};
    r := Reply(200, ());
  }
}
