/** Package `chapter3`: the order line that derives its own subtotal and can
    check a product against the one product that may not be ordered. Its
    `Money` and `Product` are those of `Chapter1`. */
module Chapter3 {
  import opened Java
  import C1 = Chapter1

  const NotOrderableProductName: string := "notOrderAbleProduct"
  const NotOrderable: string := "못사는 상품이에요"

  /** `OrderLine`: as in chapter 1, set once with a private copy of the
      price, plus `verifyValidProduct`. */
  class OrderLine {
    const product: Option<C1.Product>
    const price: C1.Money
    const quantity: Int32
    const amounts: C1.Money

    /** The subtotal is price times quantity, in its own `Money` object. */
    ghost predicate Valid()
      reads price, amounts
    {
      price != amounts && amounts.value == Wrap(price.value * quantity)
    }

    /** Copies the price, stores product and quantity as given, derives the
        subtotal and ignores the `amounts` argument, which may be null. The product is NOT
        checked here: a line may hold the product that cannot be ordered. */
    constructor (product: Option<C1.Product>, price: C1.Money, quantity: Int32, amounts: C1.Money?)
      ensures this.product == product && this.quantity == quantity
      ensures fresh(this.price) && this.price.value == price.value
      ensures fresh(this.amounts) && this.amounts.value == Wrap(price.value * quantity)
      ensures Valid()
    {
      var copy := new C1.Money(price.GetValue());
      var subtotal := copy.Multiply(quantity);
      this.product := product;
      this.price := copy;
      this.quantity := quantity;
      this.amounts := subtotal;
    }

    /** `getAmounts()`: the subtotal, which is price times quantity. */
    function GetAmounts(): (r: Int32)
      reads price, amounts
      ensures Valid() ==> r == Wrap(price.value * quantity)
    {
      amounts.GetValue()
    }

    /** `verifyValidProduct(product)`: throws exactly for the product named
        "notOrderAbleProduct", and dereferences a null product. It reads no
        field of the line, so its outcome depends on the argument alone, and
        it changes nothing. */
    function VerifyValidProduct(product: Option<C1.Product>): (r: Outcome<Exception>)
      ensures product == None ==> r == Fail(NullPointerException)
      ensures r.Pass? <==> product != None && product.value.name != NotOrderableProductName
      ensures product != None && r.Fail? ==> r.error == IllegalArgumentException(NotOrderable)
    {
      match product
      case None => Fail(NullPointerException)
      case Some(p) =>
        if p.name == NotOrderableProductName then
          Fail(IllegalArgumentException(NotOrderable))
        else
          Pass
    }
  }

  /** One line of `Ch3Test`: price 100, quantity 1, and an amount of 200 that
      the line ignores. */
  method TestLine(product: Option<C1.Product>) returns (line: OrderLine)
    ensures fresh(line.amounts) && line.GetAmounts() == 100
    ensures line.product == product
  {
    var price := new C1.Money(100);
    var amount := new C1.Money(200);
    line := new OrderLine(product, price, 1, amount);
  }

  /** `Ch3Test.getOrderTotalAmount`, at the level of the lines: three lines
      of price 100, quantity 1 and amount argument 200 add up to 300. */
  method LineTotalScenario()
  {
    var line1 := TestLine(Some(C1.Product("상품1", "001")));
    var line2 := TestLine(Some(C1.Product("상품2", "002")));
    var line3 := TestLine(Some(C1.Product("상품3", "003")));
    var subtotals := [line1.GetAmounts(), line2.GetAmounts(), line3.GetAmounts()];
    assert subtotals == [100, 100, 100];
    assert [100, 100, 100][..2] == [100, 100] && [100, 100][..1] == [100] && [100][..0] == [];
    assert Sum([100, 100, 100]) == 300;
    IntStreamSumExact(subtotals);
    assert IntStreamSum(subtotals) == 300;
  }

  /** `Ch3Test.test`, at the level of the line: the line holding the product
      that cannot be ordered is built without error, and only an explicit
      `verifyValidProduct` call rejects it, with the expected message. */
  method NotOrderableScenario()
  {
    var line := TestLine(Some(C1.Product(NotOrderableProductName, "003")));
    var verdict := line.VerifyValidProduct(line.product);
    assert verdict == Fail(IllegalArgumentException("못사는 상품이에요"));
    var other := line.VerifyValidProduct(Some(C1.Product("상품1", "001")));
    assert other == Pass;
    var nothing := line.VerifyValidProduct(None);
    assert nothing == Fail(NullPointerException);
  }
}
