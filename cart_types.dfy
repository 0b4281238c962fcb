/** Values exchanged by the cart store: catalog and stock records, cart lines,
    the notifications the store raises, and the outcome of one operation. */
module CartTypes {

  /** The result of an external lookup: None stands for a read that failed. */
  datatype Option<+T> = None | Some(value: T)

  /** A catalog record. Price is not modelled; no cart rule reads it. */
  datatype Product = Product(id: int, title: string, image: string)

  /** Available quantity of one product at the time of the lookup. */
  datatype Stock = Stock(id: int, amount: int)

  /** A cart line: the product record spread together with its quantity. */
  datatype Item = Item(product: Product, amount: int) {
    function Id(): int { product.id }
  }

  /** The four user-facing notifications the store can raise. */
  datatype Toast =
    | OutOfStock    // "Quantidade solicitada fora de estoque"
    | AddFailed     // "Erro na adição do produto"
    | RemoveFailed  // "Erro na remoção do produto"
    | UpdateFailed  // "Erro na alteração de quantidade do produto"

  /** What one store operation does: write a new cart (to state and storage),
      return silently without a write, or raise a notification without a write. */
  datatype Transition =
    | Write(next: seq<Item>)
    | Skip
    | Fail(toast: Toast)
}
