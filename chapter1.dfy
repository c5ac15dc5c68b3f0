/** Package `chapter1`: the purchase-order aggregate and its value objects. */
module Chapter1 {
  import opened Java

  // ---------------------------------------------------------------- Money

  /** `Money`: a mutable `int` amount (Lombok getter and setter). The
      constructor checks nothing, so negative amounts are accepted. */
  class Money {
    var value: Int32

    constructor (value: Int32)
      ensures this.value == value
    {
      this.value := value;
    }

    function GetValue(): Int32
      reads this
    {
      value
    }

    /** Changes this one instance and nothing else. */
    method SetValue(value: Int32)
      modifies this
      ensures this.value == value
    {
      this.value := value;
    }

    /** A new `Money` holding the 32-bit sum; neither operand changes (the
        method has no `modifies` clause). The distinctness from the operands
        follows from `fresh(r)` and is spelled out for the reader. */
    method Add(money: Money) returns (r: Money)
      ensures fresh(r) && r != this && r != money
      ensures r.value == Wrap(value + money.value)
      ensures INT_MIN <= value + money.value <= INT_MAX ==> r.value == value + money.value
    {
      r := new Money(Wrap(value + money.value));
    }

    /** A new `Money` holding the 32-bit product; the receiver does not
        change. `r != this` follows from `fresh(r)` and is spelled out for
        the reader. */
    method Multiply(multiplier: Int32) returns (r: Money)
      ensures fresh(r) && r != this
      ensures r.value == Wrap(value * multiplier)
      ensures INT_MIN <= value * multiplier <= INT_MAX ==> r.value == value * multiplier
    {
      r := new Money(Wrap(value * multiplier));
    }
  }

  // ---------------------------------------------------------------- Product

  /** `Product` (its class is not part of this model): a name and a code. */
  datatype Product = Product(name: string, code: string)

  // ---------------------------------------------------------------- OrderLine

  /** `OrderLine`: the fields are set once by the constructor and there are
      only getters, so they are `const`. The `Money` objects they point to are
      owned by the line. */
  class OrderLine {
    const product: Option<Product>
    const price: Money
    const quantity: Int32
    const amounts: Money

    /** The line's subtotal is its price times its quantity, in its own
        `Money` object, distinct from its price. */
    ghost predicate Valid()
      reads price, amounts
    {
      price != amounts && amounts.value == Wrap(price.value * quantity)
    }

    /** Copies the caller's price into a fresh `Money`, stores product and
        quantity as given (no validation, a null product included), and derives the subtotal with
        `calculateAmounts`; the `amounts` argument, which may be null, is ignored. */
    constructor (product: Option<Product>, price: Money, quantity: Int32, amounts: Money?)
      ensures this.product == product && this.quantity == quantity
      ensures fresh(this.price) && this.price.value == price.value
      ensures fresh(this.amounts) && this.amounts.value == Wrap(price.value * quantity)
      ensures Valid()
    {
      var copy := new Money(price.GetValue());
      var subtotal := copy.Multiply(quantity);
      this.product := product;
      this.price := copy;
      this.quantity := quantity;
      this.amounts := subtotal;
    }

    /** `getAmounts()`: the subtotal, which is price times quantity. */
    function GetAmounts(): (r: Int32)
      reads price, amounts
      ensures Valid() ==> r == Wrap(price.value * quantity)
    {
      amounts.GetValue()
    }
  }

  /** The objects whose values the subtotals of `lines` are read from. */
  ghost function AmountObjects(lines: seq<OrderLine>): set<Money>
  {
    set l | l in lines :: l.amounts
  }

  /** The subtotals of `lines`, in order (`mapToInt(x -> x.getAmounts())`). */
  function LineAmounts(lines: seq<OrderLine>): (r: seq<Int32>)
    reads AmountObjects(lines)
    ensures |r| == |lines|
    ensures forall i :: 0 <= i < |lines| ==> r[i] == lines[i].amounts.value
  {
    if lines == [] then []
    else LineAmounts(lines[..|lines| - 1]) + [lines[|lines| - 1].amounts.GetValue()]
  }

  /** A `java.util.List<OrderLine>` owned by whoever created it; `Order`
      keeps a reference to it rather than a copy. */
  class OrderLineList {
    var elems: seq<OrderLine>

    constructor ()
      ensures elems == []
    {
      elems := [];
    }

    method Add(line: OrderLine)
      modifies this
      ensures elems == old(elems) + [line]
    {
      elems := elems + [line];
    }
  }

  // ---------------------------------------------------------------- OrderNo

  /** `OrderNo`: an identifier with one field and no setter. */
  datatype OrderNo = OrderNo(id: Option<string>)
  {
    /** `equals`: same class and `Objects.equals` on `id`. */
    function Equals(o: ObjectRef<OrderNo>): (r: bool)
      ensures r <==> o.Instance? && o.value.id == id
    {
      if o == Instance(this) then true
      else if !o.Instance? then false
      else id == o.value.id
    }

    /** `hashCode`: `Objects.hash(id)`, with the hash left abstract. */
    function HashCode(hash: seq<Option<string>> -> int): int
    {
      hash([id])
    }
  }

  /** `OrderNo.equals` is an equivalence relation on instances and never
      holds against `null` or another class. */
  lemma OrderNoEqualsIsEquivalence(a: OrderNo, b: OrderNo, c: OrderNo)
    ensures a.Equals(Instance(a))
    ensures a.Equals(Instance(b)) <==> b.Equals(Instance(a))
    ensures a.Equals(Instance(b)) && b.Equals(Instance(c)) ==> a.Equals(Instance(c))
    ensures !a.Equals(Null) && !a.Equals(OtherClass)
  {
  }

  /** Equal `OrderNo`s have equal hashes, whatever the hash of the fields. */
  lemma OrderNoHashAgreesWithEquals(a: OrderNo, b: OrderNo, hash: seq<Option<string>> -> int)
    requires a.Equals(Instance(b))
    ensures a.HashCode(hash) == b.HashCode(hash)
  {
  }

  // ---------------------------------------------------------------- ShippingInfo

  /** `Address` (its class is not part of this model). */
  datatype Address = Address(address1: string, address2: string, zipCode: string)

  /** `ShippingInfo`: the constructor stores all three fields, nulls
      included, without validation. */
  datatype ShippingInfo = ShippingInfo(
    receiverName: Option<string>,
    receiverPhoneNumber: Option<string>,
    address: Option<Address>)
  {
    /** `equals`: same class, and equal receiver name and phone number; the
        address takes no part. */
    function Equals(o: ObjectRef<ShippingInfo>): (r: bool)
      ensures r <==> o.Instance?
                     && o.value.receiverName == receiverName
                     && o.value.receiverPhoneNumber == receiverPhoneNumber
    {
      if o == Instance(this) then true
      else if !o.Instance? then false
      else receiverName == o.value.receiverName && receiverPhoneNumber == o.value.receiverPhoneNumber
    }

    /** `hashCode`: `Objects.hash(receiverName, receiverPhoneNumber)`. */
    function HashCode(hash: seq<Option<string>> -> int): int
    {
      hash([receiverName, receiverPhoneNumber])
    }
  }

  /** Two shipping infos that differ only in their address are equal and
      hash alike; equality is reflexive and symmetric and fails against
      `null` and other classes. */
  lemma ShippingInfoIgnoresAddress(s: ShippingInfo, address: Option<Address>, t: ShippingInfo,
                                   hash: seq<Option<string>> -> int)
    ensures s.Equals(Instance(s.(address := address)))
    ensures s.HashCode(hash) == s.(address := address).HashCode(hash)
    ensures s.Equals(Instance(s))
    ensures s.Equals(Instance(t)) <==> t.Equals(Instance(s))
    ensures !s.Equals(Null) && !s.Equals(OtherClass)
  {
  }

  /** Equal shipping infos have equal hashes. */
  lemma ShippingInfoHashAgreesWithEquals(a: ShippingInfo, b: ShippingInfo, hash: seq<Option<string>> -> int)
    requires a.Equals(Instance(b))
    ensures a.HashCode(hash) == b.HashCode(hash)
  {
  }

  // ---------------------------------------------------------------- Order

  /** `OrderState` (the enum is not part of this model). */
  datatype OrderState = PaymentWaiting | Preparing | Shipped | Delivered | Cancelled

  const NoShippingInfo: string := "배송 정보가 없어요."
  const NoOrderLines: string := "구매할 상품이 없어요!!"
  const AlreadyShipped: string := "이미 배송이 완료"

  /** `isShippingChangeable()`: the order has not been shipped yet. A null
      state is not changeable. */
  predicate IsShippingChangeable(state: Option<OrderState>)
  {
    state == Some(PaymentWaiting) || state == Some(Preparing)
  }

  /** `verifyNotYetShipped()`: throws unless the state is one of the two
      states before shipment. */
  function VerifyNotYetShipped(state: Option<OrderState>): (r: Outcome<Exception>)
    ensures r.Pass? <==> state in {Some(PaymentWaiting), Some(Preparing)}
    ensures r.Fail? ==> r.error == IllegalStateException(AlreadyShipped)
    ensures r.Pass? <==> IsShippingChangeable(state)
  {
    if state != Some(PaymentWaiting) && state != Some(Preparing) then
      Fail(IllegalStateException(AlreadyShipped))
    else
      Pass
  }

  /** `verifyAtLastOneOrMoreOrderLines`: throws on a null or empty list. */
  function VerifyAtLeastOneOrderLine(orderLines: OrderLineList?): (r: Outcome<Exception>)
    reads orderLines
    ensures r.Pass? <==> orderLines != null && |orderLines.elems| >= 1
    ensures r.Fail? ==> r.error == IllegalArgumentException(NoOrderLines)
  {
    if orderLines == null || orderLines.elems == [] then
      Fail(IllegalArgumentException(NoOrderLines))
    else
      Pass
  }

  /** `Order`: the aggregate root. The fields are Java's (nullable) fields;
      the constructor assigns neither `orderNumber` nor `state`. */
  class Order {
    var orderNumber: Option<string>
    var state: Option<OrderState>
    var shippingInfo: Option<ShippingInfo>
    var orderLines: OrderLineList?
    var totalAmounts: Money?

    /** An object whose fields hold Java's defaults, before the body of the
        `Order` constructor runs. */
    constructor Allocate()
      ensures orderNumber == None && state == None && shippingInfo == None
      ensures orderLines == null && totalAmounts == null
    {
      orderNumber, state, shippingInfo := None, None, None;
      orderLines, totalAmounts := null, null;
    }

    /** `new Order(orderLines, shippingInfo)`: sets the shipping info first,
        then the lines (stored by reference, not copied), then caches the
        total. A failure in either setter means no `Order` is returned. */
    static method Create(orderLines: OrderLineList?, shippingInfo: Option<ShippingInfo>)
      returns (r: Result<Order, Exception>)
      ensures shippingInfo == None ==> r == Failure(IllegalArgumentException(NoShippingInfo))
      ensures shippingInfo != None && (orderLines == null || orderLines.elems == []) ==>
                r == Failure(IllegalArgumentException(NoOrderLines))
      ensures r.Success? <==> shippingInfo != None && orderLines != null && orderLines.elems != []
      ensures r.Success? ==>
                var o := r.value;
                fresh(o) && o.orderNumber == None && o.state == None
                && o.shippingInfo == shippingInfo && o.orderLines == orderLines
                && o.totalAmounts != null && fresh(o.totalAmounts)
                && o.totalAmounts.value == IntStreamSum(LineAmounts(orderLines.elems))
    {
      var o := new Order.Allocate();
      var out := o.SetShippingInfo(shippingInfo);
      if out.Fail? {
        return Failure(out.error);
      }
      out := o.SetOrderLines(orderLines);
      if out.Fail? {
        return Failure(out.error);
      }
      return Success(o);
    }

    /** `setShippingInfo`: rejects null, otherwise replaces the whole value. */
    method SetShippingInfo(shippingInfo: Option<ShippingInfo>) returns (r: Outcome<Exception>)
      modifies this`shippingInfo
      ensures r.Fail? <==> shippingInfo == None
      ensures r.Fail? ==> r.error == IllegalArgumentException(NoShippingInfo)
      ensures this.shippingInfo == if r.Pass? then shippingInfo else old(this.shippingInfo)
    {
      if shippingInfo == None {
        return Fail(IllegalArgumentException(NoShippingInfo));
      }
      this.shippingInfo := shippingInfo;
      return Pass;
    }

    /** `setOrderLines`: verifies the list, keeps the caller's reference, and
        recomputes the cached total. */
    method SetOrderLines(orderLines: OrderLineList?) returns (r: Outcome<Exception>)
      modifies this`orderLines, this`totalAmounts
      ensures r == VerifyAtLeastOneOrderLine(orderLines)
      ensures r.Fail? ==> unchanged(this)
      ensures r.Pass? ==>
                this.orderLines == orderLines && totalAmounts != null && fresh(totalAmounts)
                && totalAmounts.value == IntStreamSum(LineAmounts(orderLines.elems))
    {
      r := VerifyAtLeastOneOrderLine(orderLines);
      if r.Fail? {
        return;
      }
      this.orderLines := orderLines;
      CalculateTotalAmounts();
    }

    /** `calculateTotalAmounts`: a fresh `Money` holding the stream sum of
        the line subtotals. */
    method CalculateTotalAmounts()
      requires orderLines != null
      modifies this`totalAmounts
      ensures totalAmounts != null && fresh(totalAmounts)
      ensures totalAmounts.value == IntStreamSum(LineAmounts(orderLines.elems))
    {
      var sum := IntStreamSum(LineAmounts(orderLines.elems));
      var total := new Money(sum);
      totalAmounts := total;
      assert LineAmounts(orderLines.elems) == old(LineAmounts(orderLines.elems));
    }

    /** `changeShippingInfo`: the state guard runs first, then the null
        check; on success only `shippingInfo` changes. */
    method ChangeShippingInfo(shippingInfo: Option<ShippingInfo>) returns (r: Outcome<Exception>)
      modifies this`shippingInfo
      ensures !IsShippingChangeable(state) ==> r == Fail(IllegalStateException(AlreadyShipped))
      ensures IsShippingChangeable(state) && shippingInfo == None ==>
                r == Fail(IllegalArgumentException(NoShippingInfo))
      ensures r.Pass? <==> IsShippingChangeable(state) && shippingInfo != None
      ensures this.shippingInfo == if r.Pass? then shippingInfo else old(this.shippingInfo)
    {
      r := VerifyNotYetShipped(state);
      if r.Fail? {
        return;
      }
      r := SetShippingInfo(shippingInfo);
      if r.Fail? {
        return;
      }
      if !IsShippingChangeable(state) {
        // The guard that throws IllegalStateException("배송 변경 불가 ::: " + state):
        // `verifyNotYetShipped` has already ruled it out.
        assert false;
      }
      this.shippingInfo := shippingInfo;
    }

    /** `cancel`: from the two states before shipment the order becomes
        `CANCELLED`; otherwise it throws and the state stays as it was. */
    method Cancel() returns (r: Outcome<Exception>)
      modifies this`state
      ensures r == VerifyNotYetShipped(old(state))
      ensures state == if r.Pass? then Some(Cancelled) else old(state)
    {
      r := VerifyNotYetShipped(state);
      if r.Fail? {
        return;
      }
      state := Some(Cancelled);
    }

    /** `equals`: an `Order` is identified by its `orderNumber` alone. */
    function Equals(o: ObjectRef<Order>): (r: bool)
      reads this, if o.Instance? then {o.value} else {}
      ensures r <==> o.Instance? && o.value.orderNumber == orderNumber
    {
      if o == Instance(this) then true
      else if !o.Instance? then false
      else orderNumber == o.value.orderNumber
    }

    /** `hashCode`: `Objects.hash(orderNumber)`, with the hash left abstract. */
    function HashCode(hash: seq<Option<string>> -> int): int
      reads this
    {
      hash([orderNumber])
    }
  }

  /** Two `cancel`s in a row on an order that has not been shipped: the
      first succeeds, the second throws, and the order stays `CANCELLED`. */
  method CancelTwice(o: Order) returns (first: Outcome<Exception>, second: Outcome<Exception>)
    requires IsShippingChangeable(o.state)
    modifies o
    ensures first == Pass
    ensures second == Fail(IllegalStateException(AlreadyShipped))
    ensures o.state == Some(Cancelled)
  {
    first := o.Cancel();
    second := o.Cancel();
  }

  /** Equal orders have equal hashes. */
  lemma OrderHashAgreesWithEquals(a: Order, b: Order, hash: seq<Option<string>> -> int)
    requires a.Equals(Instance(b))
    ensures a.HashCode(hash) == b.HashCode(hash)
  {
  }

  // ---------------------------------------------------------------- Scenarios

  /** `Ch1Test.MoneyImmutable`: changing the caller's `Money` after building a
      line leaves the line's price and subtotal as they were. */
  method MoneyImmutableScenario()
  {
    var price := new Money(1000);
    var ignored := new Money(20000);
    var line := new OrderLine(Some(Product("상품1", "001")), price, 1, ignored);
    price.SetValue(2000);
    assert line.price.GetValue() == 1000;
    assert line.GetAmounts() == 1000;
  }

  /** One line of `Ch1Test.order`: price 100, quantity 1, and an amount of
      200 that the line ignores. */
  method TestLine(product: Option<Product>) returns (line: OrderLine)
    ensures fresh(line.amounts) && line.amounts.value == 100
  {
    var price := new Money(100);
    var amount := new Money(200);
    line := new OrderLine(product, price, 1, amount);
  }

  /** The caller's list of `Ch1Test.order`, holding three such lines. */
  method ThreeLines() returns (lines: OrderLineList)
    ensures fresh(lines) && |lines.elems| == 3
    ensures forall k :: 0 <= k < 3 ==> lines.elems[k].amounts.value == 100
  {
    lines := new OrderLineList();
    var line1 := TestLine(Some(Product("상품1", "001")));
    var line2 := TestLine(Some(Product("상품2", "002")));
    var line3 := TestLine(Some(Product("상품3", "003")));
    lines.Add(line1);
    lines.Add(line2);
    lines.Add(line3);
  }

  const TestShippingInfo: ShippingInfo :=
    ShippingInfo(Some("이름"), Some("01000000000"), Some(Address("1번지", "2번지", "123-333")))

  /** `Ch1Test.order`: the order built from the three lines totals 300, the
      sum of the derived subtotals and not of the amounts passed in. */
  method OrderTotalScenario()
  {
    var lines := ThreeLines();
    var r := Order.Create(lines, Some(TestShippingInfo));
    var order := r.value;
    assert LineAmounts(lines.elems) == [100, 100, 100];
    assert [100, 100, 100][..2] == [100, 100] && [100, 100][..1] == [100] && [100][..0] == [];
    assert Sum([100, 100, 100]) == 300;
    IntStreamSumExact([100, 100, 100]);
    assert order.totalAmounts.value == 300;
  }

  /** A freshly built order has no state, so it can be neither cancelled nor
      re-addressed, and any two built orders are equal. */
  method FreshOrderScenario()
  {
    var lines := ThreeLines();
    var r := Order.Create(lines, Some(TestShippingInfo));
    var order := r.value;
    var cancelled := order.Cancel();
    assert cancelled == Fail(IllegalStateException(AlreadyShipped));
    var changed := order.ChangeShippingInfo(Some(TestShippingInfo.(receiverName := None)));
    assert changed.Fail? && order.shippingInfo == Some(TestShippingInfo);
    var r2 := Order.Create(lines, Some(TestShippingInfo));
    assert order.Equals(Instance(r2.value));
  }

  /** The order keeps the caller's list: a line the caller adds afterwards
      shows up in the order, but the cached total is not recomputed. */
  method SharedLinesScenario()
  {
    var lines := ThreeLines();
    var r := Order.Create(lines, Some(TestShippingInfo));
    var order := r.value;
    var total := order.totalAmounts.value;
    var price := new Money(500);
    var amount := new Money(500);
    var extra := new OrderLine(Some(Product("상품4", "004")), price, 1, amount);
    lines.Add(extra);
    assert |order.orderLines.elems| == 4;
    assert order.totalAmounts.value == total;
  }
}
