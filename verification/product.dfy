/**
 * The product record that the cart consults: its price, stock, category,
 * active flag and rating, the constraints the schema places on them, the
 * defaults applied when a field is absent, and the derived `IsAvailable`.
 * Prices are whole cents so that cart totals are exact.
 */
module ProductModel {
  import opened Wrappers

  type ProductId = string

  /** The seven categories the schema's enum admits. */
  datatype Category =
    | Electronics | Clothing | Books | HomeAndGarden | Sports | Beauty | Other

  /** The spelling of each category as stored. */
  function CategoryName(c: Category): string {
    match c
    case Electronics => "Electronics"
    case Clothing => "Clothing"
    case Books => "Books"
    case HomeAndGarden => "Home & Garden"
    case Sports => "Sports"
    case Beauty => "Beauty"
    case Other => "Other"
  }

  /** The enum check: a stored string names a category exactly or is rejected. */
  function ParseCategory(s: string): (r: Option<Category>)
    ensures r.Some? ==> CategoryName(r.value) == s
    ensures r.None? ==> forall c: Category :: CategoryName(c) != s
  {
    if s == "Electronics" then Some(Electronics)
    else if s == "Clothing" then Some(Clothing)
    else if s == "Books" then Some(Books)
    else if s == "Home & Garden" then Some(HomeAndGarden)
    else if s == "Sports" then Some(Sports)
    else if s == "Beauty" then Some(Beauty)
    else if s == "Other" then Some(Other)
    else None
  }

  /** Parsing the stored spelling of a category gives that category back. */
  lemma ParseCategoryName(c: Category)
    ensures ParseCategory(CategoryName(c)) == Some(c)
  {
  }

  const DefaultCategory: Category := Other

  datatype Ratings = Ratings(average: real, count: int)

  datatype Product = Product(
    price: int,
    stock: int,
    category: Category,
    isActive: bool,
    ratings: Ratings)

  /** The schema constraints on a stored product. */
  predicate Valid(p: Product) {
    && p.price >= 0
    && p.stock >= 0
    && 0.0 <= p.ratings.average <= 5.0
  }

  /** The `isAvailable` virtual: in stock and not deactivated. */
  predicate IsAvailable(p: Product) {
    p.stock > 0 && p.isActive
  }

  /** The fields of a product as submitted; `None` is an absent field. */
  datatype ProductInput = ProductInput(
    price: Option<int>,
    stock: Option<int>,
    category: Option<string>,
    isActive: Option<bool>,
    ratingsAverage: Option<real>,
    ratingsCount: Option<int>)

  /** The schema paths that can fail validation. */
  datatype Field = PricePath | StockPath | CategoryPath | RatingsAveragePath

  /** The field's value once its default has been applied. */
  function StockOrDefault(input: ProductInput): int {
    if input.stock.Some? then input.stock.value else 0
  }

  function CategoryOrDefault(input: ProductInput): string {
    if input.category.Some? then input.category.value else CategoryName(DefaultCategory)
  }

  function AverageOrDefault(input: ProductInput): real {
    if input.ratingsAverage.Some? then input.ratingsAverage.value else 0.0
  }

  /** The paths whose constraint the input, after defaults, violates. */
  function Violations(input: ProductInput): set<Field> {
    (if input.price.None? || input.price.value < 0 then {PricePath} else {})
    + (if StockOrDefault(input) < 0 then {StockPath} else {})
    + (if ParseCategory(CategoryOrDefault(input)).None? then {CategoryPath} else {})
    + (if !(0.0 <= AverageOrDefault(input) <= 5.0) then {RatingsAveragePath} else {})
  }

  /**
   * Creating a product document: defaults fill the absent fields, then every
   * path is validated and all failing paths are reported together.
   */
  function Create(input: ProductInput): (r: Result<Product, set<Field>>)
    ensures r.Ok? ==> Valid(r.value)
    ensures r.Ok? && input.stock.None? ==> r.value.stock == 0
    ensures r.Ok? && input.category.None? ==> r.value.category == Other
    ensures r.Ok? && input.isActive.None? ==> r.value.isActive
    ensures r.Ok? && input.ratingsAverage.None? ==> r.value.ratings.average == 0.0
    ensures r.Ok? && input.ratingsCount.None? ==> r.value.ratings.count == 0
    ensures r.Ok? ==> input.price.Some? && r.value.price == input.price.value
    ensures r.Ok? && input.stock.Some? ==> r.value.stock == input.stock.value
    ensures r.Ok? && input.category.Some? ==> CategoryName(r.value.category) == input.category.value
    ensures r.Ok? && input.isActive.Some? ==> r.value.isActive == input.isActive.value
    ensures r.Ok? && input.ratingsAverage.Some? ==> r.value.ratings.average == input.ratingsAverage.value
    ensures r.Ok? && input.ratingsCount.Some? ==> r.value.ratings.count == input.ratingsCount.value
    ensures r.Err? ==> r.error != {}
    ensures input.price.None? || input.price.value < 0 ==> r.Err? && PricePath in r.error
    ensures input.stock.Some? && input.stock.value < 0 ==> r.Err? && StockPath in r.error
    ensures input.category.Some? && ParseCategory(input.category.value).None? ==>
      r.Err? && CategoryPath in r.error
    ensures input.ratingsAverage.Some? && !(0.0 <= input.ratingsAverage.value <= 5.0) ==>
      r.Err? && RatingsAveragePath in r.error
    ensures r.Err? ==> (PricePath in r.error <==> input.price.None? || input.price.value < 0)
    ensures r.Err? ==> (StockPath in r.error <==> input.stock.Some? && input.stock.value < 0)
    ensures r.Err? ==>
      (CategoryPath in r.error <==> input.category.Some? && ParseCategory(input.category.value).None?)
    ensures r.Err? ==>
      (RatingsAveragePath in r.error
       <==> input.ratingsAverage.Some? && !(0.0 <= input.ratingsAverage.value <= 5.0))
  {
    var errors := Violations(input);
    if errors != {} then Err(errors)
    else
      Ok(Product(
        input.price.value,
        StockOrDefault(input),
        ParseCategory(CategoryOrDefault(input)).value,
        if input.isActive.Some? then input.isActive.value else true,
        Ratings(AverageOrDefault(input),
                if input.ratingsCount.Some? then input.ratingsCount.value else 0)))
  }

  /** The input that spells out every field of a product. */
  function InputOf(p: Product): ProductInput {
    ProductInput(Some(p.price), Some(p.stock), Some(CategoryName(p.category)),
                 Some(p.isActive), Some(p.ratings.average), Some(p.ratings.count))
  }

  /** Creation accepts exactly the valid products, unchanged. */
  lemma CreateRoundTrip(p: Product)
    ensures Create(InputOf(p)) == (if Valid(p) then Ok(p) else Err(Violations(InputOf(p))))
  {
  }

  /** A product given only a non-negative price is active, in category Other, with no stock. */
  lemma CreateDefaults(price: int)
    requires price >= 0
    ensures var r := Create(ProductInput(Some(price), None, None, None, None, None));
      && r.Ok?
      && r.value == Product(price, 0, Other, true, Ratings(0.0, 0))
      && !IsAvailable(r.value)
  {
  }
}
