/**
 * The shared product types of the front end and the API (src/types/product.ts).
 * An optional TypeScript field (`x?: T | null`) is an Option: absent and null
 * read the same everywhere in the app.
 */
module ProductTypes {
  import opened Wrappers

  /** A physical quantity: a number and its unit, e.g. 250 "g" or 12 "cm". */
  datatype Measure = Measure(value: real, unit: string)

  /** A catalogue product as the pages display it. */
  datatype Product = Product(
    id: int,
    productName: string,
    brand: string,
    images: Option<seq<string>>,
    barcode: Option<string>,
    itemWeight: Option<Measure>,
    ingredients: seq<string>,
    description: Option<string>,
    storage: seq<string>,
    itemsPerPack: Option<real>,
    color: Option<string>,
    material: Option<string>,
    width: Option<Measure>,
    height: Option<Measure>,
    warranty: Option<real>)

  /** A product before the store has given it an id: `Omit<Product, 'id'>`. */
  datatype ProductCreate = ProductCreate(
    productName: string,
    brand: string,
    images: Option<seq<string>>,
    barcode: Option<string>,
    itemWeight: Option<Measure>,
    ingredients: seq<string>,
    description: Option<string>,
    storage: seq<string>,
    itemsPerPack: Option<real>,
    color: Option<string>,
    material: Option<string>,
    width: Option<Measure>,
    height: Option<Measure>,
    warranty: Option<real>)

  /** The product `c` becomes once the store assigns it `id`. */
  function WithId(c: ProductCreate, id: int): (p: Product)
    ensures p.id == id
  {
    Product(id, c.productName, c.brand, c.images, c.barcode, c.itemWeight, c.ingredients,
            c.description, c.storage, c.itemsPerPack, c.color, c.material, c.width, c.height,
            c.warranty)
  }

  /** Every field of `p` except its id. */
  function WithoutId(p: Product): ProductCreate {
    ProductCreate(p.productName, p.brand, p.images, p.barcode, p.itemWeight, p.ingredients,
                  p.description, p.storage, p.itemsPerPack, p.color, p.material, p.width,
                  p.height, p.warranty)
  }

  /** A ProductCreate is exactly a Product without its id: the two conversions are inverse. */
  lemma OmitIdRoundTrip(p: Product, c: ProductCreate, id: int)
    ensures WithId(WithoutId(p), p.id) == p
    ensures WithoutId(WithId(c, id)) == c
  {
  }
}
