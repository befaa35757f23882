/** The documents the pages read and write: products of the catalog,
    categories, and sales with their lines. Every field a document may lack
    is an `Option`. */
module Records {
  import opened Basics

  type ProductId = string

  datatype Product = Product(
    id: ProductId,
    name: Option<string>,
    sku: Option<string>,
    description: Option<string>,
    category: Option<string>,
    price: Option<Money>,
    cost: Option<Money>,
    quantity: Option<int>,
    imageUrl: Option<string>)

  datatype Category = Category(id: string, name: string)

  /** One line of a sale, as the checkout writes it. */
  datatype SaleItem = SaleItem(
    productId: ProductId,
    productName: Option<string>,
    quantity: int,
    price: Option<Money>,
    subtotal: Option<Money>)

  /** A sale as it is stored and read back. */
  datatype Sale = Sale(
    id: string,
    createdAt: Option<Time>,
    items: Option<seq<SaleItem>>,
    total: Option<Money>,
    paymentMethod: Option<string>,
    notes: Option<string>)

  /** The record the checkout hands to `registerSale`. */
  datatype SaleDraft = SaleDraft(
    items: seq<SaleItem>,
    total: Option<Money>,
    paymentMethod: string,
    notes: Option<string>)
}
