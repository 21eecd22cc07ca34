/**
 * The storefront's `Product` record: five attributes stored verbatim by the
 * constructor, no validation and no normalisation. `stock` is a mutable
 * field; nothing in the modelled file changes it after construction.
 */
module Store {
  import opened Wrappers
  import opened PySyntax
  import opened SourceClasses
  import opened PyInterp

  class Product {
    var productId: int
    var name: string
    var price: real
    var stock: int
    var category: string

    /** The object's `__dict__` as Python keeps it. */
    function Attributes(): Attrs
      reads this
    {
      map["product_id" := Num(productId as real), "name" := Str(name), "price" := Num(price),
          "stock" := Num(stock as real), "category" := Str(category)]
    }

    /**
     * `Product(product_id, name, price, stock, category)`: every field is the
     * argument given, so a negative or zero stock and any price are kept as
     * they are, and the object is the one Python's `__init__` builds.
     */
    constructor (productId: int, name: string, price: real, stock: int, category: string)
      ensures this.productId == productId && this.name == name && this.category == category
      ensures this.price == price
      ensures this.stock == stock
      ensures Construct(ProductClass, [Num(productId as real), Str(name), Num(price), Num(stock as real), Str(category)])
           == Ok(Instance(ProductClass, Attributes()))
    {
      this.productId := productId;
      this.name := name;
      this.price := price;
      this.stock := stock;
      this.category := category;
      new;
      ProductInitStoresArgs(Num(productId as real), Str(name), Num(price), Num(stock as real), Str(category));
    }
  }

  /** `Product.__init__` stores its five arguments under their attribute names, whatever the values are. */
  lemma ProductInitStoresArgs(productId: Value, name: Value, price: Value, stock: Value, category: Value)
    ensures Construct(ProductClass, [productId, name, price, stock, category])
         == Ok(Instance(ProductClass, map["product_id" := productId, "name" := name, "price" := price,
                                          "stock" := stock, "category" := category]))
  {
  }

  /** The constructor raises only for a wrong number of arguments, and then a `TypeError`. */
  lemma ProductInitChecksOnlyArity(args: seq<Value>)
    ensures Construct(ProductClass, args).Ok? <==> |args| == 5
    ensures !Construct(ProductClass, args).Ok? ==> Construct(ProductClass, args) == Err(TypeError)
  {
  }
}
