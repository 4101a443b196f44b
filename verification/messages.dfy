/**
 * Message composition for the two reactive handlers: fixed titles, an
 * interpolated body and a string-to-string `data` map.
 */
module Messages {
  import opened Base
  import Decimal

  type Data = map<string, string>

  /** A product document as the handlers read it. */
  datatype Product = Product(name: string, stock: int)

  /** A notification: the `notification` title and body plus the `data` payload. */
  datatype Message = Message(title: string, body: string, data: Data)

  // The titles, exactly as the handlers send them.
  const CreatedTitle: string := "\U{1F389} Nuevo Producto"
  const LowStockTitle: string := "\U{26A0}\U{FE0F} Stock Bajo"

  const CreatedBodyPrefix: string := "Se agreg\U{F3}: "
  const LowStockInfix: string := " tiene solo "
  const LowStockSuffix: string := " unidades"

  /** The middle of `s` between `prefix` and `suffix`, if `s` has that shape. */
  function Unwrap(s: string, prefix: string, suffix: string): Option<string> {
    if |prefix| + |suffix| <= |s| && s[..|prefix|] == prefix && s[|s| - |suffix|..] == suffix
    then Some(s[|prefix|..|s| - |suffix|])
    else None
  }

  lemma UnwrapWrapped(prefix: string, middle: string, suffix: string)
    ensures Unwrap(prefix + middle + suffix, prefix, suffix) == Some(middle)
  {
  }

  /** The product name a product-created body announces. */
  function CreatedBodyName(body: string): Option<string> {
    Unwrap(body, CreatedBodyPrefix, "")
  }

  /** The stock figure a low-stock body for a product called `name` announces. */
  function LowStockBodyStock(body: string, name: string): Option<int> {
    match Unwrap(body, name + LowStockInfix, LowStockSuffix)
    case None => None
    case Some(figure) => Decimal.ParseInt(figure)
  }

  /** The message sent when product `productId` is created. */
  function ComposeCreated(productId: string, product: Product): (m: Message)
    ensures m.title == CreatedTitle
    ensures CreatedBodyName(m.body) == Some(product.name)
    ensures m.data.Keys == {"type", "productId", "productName"}
    ensures m.data["type"] == "product_created"
    ensures m.data["productId"] == productId
    ensures m.data["productName"] == product.name
  {
    UnwrapWrapped(CreatedBodyPrefix, product.name, "");
    assert CreatedBodyPrefix + product.name + "" == CreatedBodyPrefix + product.name;
    Message(
      CreatedTitle,
      CreatedBodyPrefix + product.name,
      map["type" := "product_created", "productId" := productId, "productName" := product.name])
  }

  /** The message sent when the stock of `productId` drops to `product.stock`. */
  function ComposeLowStock(productId: string, product: Product): (m: Message)
    ensures m.title == LowStockTitle
    ensures LowStockBodyStock(m.body, product.name) == Some(product.stock)
    ensures m.data.Keys == {"type", "productId", "stock"}
    ensures Unwrap(m.body, product.name + LowStockInfix, LowStockSuffix) == Some(m.data["stock"])
    ensures m.data["type"] == "low_stock"
    ensures m.data["productId"] == productId
    ensures m.data["stock"] == Decimal.IntToString(product.stock)
    ensures Decimal.ParseInt(m.data["stock"]) == Some(product.stock)
  {
    var figure := Decimal.IntToString(product.stock);
    Decimal.IntRoundTrip(product.stock);
    UnwrapWrapped(product.name + LowStockInfix, figure, LowStockSuffix);
    assert product.name + LowStockInfix + figure + LowStockSuffix
        == product.name + (LowStockInfix + figure + LowStockSuffix);
    Message(
      LowStockTitle,
      product.name + LowStockInfix + figure + LowStockSuffix,
      map["type" := "low_stock", "productId" := productId, "stock" := figure])
  }

  /** The two reactive messages are never confused: titles and `type` tags differ. */
  lemma CreatedAndLowStockDistinct(id1: string, p1: Product, id2: string, p2: Product)
    ensures ComposeCreated(id1, p1).title != ComposeLowStock(id2, p2).title
    ensures ComposeCreated(id1, p1).data["type"] != ComposeLowStock(id2, p2).data["type"]
  {
  }
}
