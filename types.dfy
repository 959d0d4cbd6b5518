/** The records of src/types/index.ts that the model works on. */
module Types {
  import opened Wrappers

  /** The `{min, max}` price range carried by the filter state. */
  datatype PriceRange = PriceRange(min: int, max: int)

  /** FilterState: a search term, a category (empty means any) and a price range. */
  datatype FilterState = FilterState(searchTerm: string, category: string, priceRange: PriceRange)

  /** A catalogue product; prices are whole numbers here. */
  datatype Product = Product(id: int, name: string, category: string, price: int, description: Option<string>)

  /** A post as the remote list returns it. */
  datatype Post = Post(id: int, title: string, body: string, userId: int)
}
