# First-DDD-Study: the purchase order and the join service, in Dafny

This project models the Java code of the `jongwan` study track of the
First-DDD-Study repository:

- the chapter 1 purchase-order aggregate: `Order` with its lines,
  shipping info, cached total, two guarded mutators (`cancel`,
  `changeShippingInfo`) and identity-based equality; the mutable `Money`
  value; `OrderLine`, which copies its price and derives its subtotal;
  `OrderNo` and `ShippingInfo`, whose `equals`/`hashCode` look at chosen
  fields only;
- the chapter 3 `OrderLine`, which adds `verifyValidProduct`;
- the chapter 6 `JoinService` (fail-fast `join`, collect-all
  `joinUsingValidator`, `createUser`) and `User.changePassword`.

Layout: `java.dfy` holds the Java semantics the code relies on (module
`Java`: 32-bit `int` with explicit two's-complement wrap-around, `Option`
for nullable references, `Outcome`/`Result` for "returns or throws", the
exception kinds, and `ObjectRef` for the argument of `equals(Object)`).
`chapter1.dfy`, `chapter3.dfy` and `chapter6.dfy` hold one module per Java
package.

How the Java is rendered:

- Objects whose fields change (`Money`, `Order`, the caller's
  `List<OrderLine>`) are classes. `User` is a class too, because its methods
  read its `password` field, but no code ever changes that field; `OrderLine`'s fields are set once, so they
  are `const`, but the `Money` objects they point to stay mutable.
  `OrderNo`, `ShippingInfo`, `Address`, `Product`, `JoinRequest` and
  `ValidationError` are never mutated and are datatypes.
- A thrown exception is a `Fail`/`Failure` value carrying the exception
  kind and message; a method that throws after changing nothing is
  modelled by its `ensures` saying the state is as before.
- `Order`'s constructor can throw, which a Dafny constructor cannot, so it
  is the static method `Order.Create`: it allocates an object holding
  Java's field defaults (`Order.Allocate`) and then runs the two private
  setters in the source's order.
- `hashCode` takes the hash of the field list as a parameter
  (`hash: seq<Option<string>> -> int`), so every statement about it holds
  for whatever `Objects.hash` computes, and the signature itself shows
  which fields are hashed.
- Test methods of `Ch1Test` and `Ch3Test` are rendered as scenario
  methods whose assertions are verified: `MoneyImmutableScenario`
  (`MoneyImmutable`), `OrderTotalScenario` (`order`, with its total
  checked), `LineTotalScenario` (`getOrderTotalAmount`) and
  `NotOrderableScenario` (`test`), each at the level the modelled code
  reaches. The model adds scenarios of its own: `FreshOrderScenario` for
  the null state and order number a constructed order has
  (jongwan/java/chapter1/Order.java:15-18), `SharedLinesScenario` for the
  caller's list the order shares (jongwan/java/chapter1/Order.java:27),
  and, for chapter 6, `EmptyStringScenario` and `ChangePasswordScenario`.
- Five predicates and functions carry no contract of their own, so they
  have no row in the table below; what they model is stated by the members
  that use them:
  - `Chapter1.Money.GetValue` is Lombok's `getValue`
    (jongwan/java/chapter1/Money.java:6), read by the `OrderLine`
    constructor and `getAmounts` and stated through their contracts;
  - `Chapter1.IsShippingChangeable` is `isShippingChangeable`
    (jongwan/java/chapter1/Order.java:59-62), tied to the state guard by
    `Chapter1.VerifyNotYetShipped`;
  - `Java.IntStreamSum` is the `.sum()` of the line subtotals
    (jongwan/java/chapter1/Order.java:36), characterised by
    `Java.IntStreamSumIsWrappedSum`;
  - `Chapter6.IsEmpty` is `isEmpty` (jongwan/java/chapter6/User.java:14-16)
    and the test in `checkEmpty`
    (jongwan/java/chapter6/JoinService.java:37-41), stated outright by the
    contracts of `Chapter6.User.SetPassword` and `Chapter6.CheckEmpty`;
  - `Chapter6.IsDuplicateIdExist` is `isDuplicateIdExist`
    (jongwan/java/chapter6/JoinService.java:58-61), always true because of
    the stubbed count; `Chapter6.JoinUsingValidator`'s contract states its
    consequence, a duplicate-id error in every error list.

Behaviour of the code that the model reproduces as written:

- The `Order` constructor assigns neither `state` nor `orderNumber`
  (`jongwan/java/chapter1/Order.java:15-18`), so both are null. A null
  state is not one of the two "not yet shipped" states, so every `cancel`
  and every `changeShippingInfo` on a constructed order fails
  (`FreshOrderScenario`), and any two constructed orders are equal.
- The constructor checks the shipping info before the lines
  (`Order.java:16-17`), so a null shipping info together with an empty list
  reports the shipping error.
- The order keeps the caller's list (`Order.java:27`); the total is cached
  once, so a line the caller adds afterwards is in the order but not in its
  total (`SharedLinesScenario`).
- `Money` is mutable (Lombok `@Setter`) and accepts negative values.
- The chapter 3 `OrderLine` constructor does not call `verifyValidProduct`
  (`jongwan/java/chapter3/OrderLine.java:12-17`); a line holding the
  unorderable product is built without error.
- `changeShippingInfo`'s second guard (`Order.java:43-45`) can never fire
  after `verifyNotYetShipped`; the model proves that branch unreachable.

## Model

| member | source | states |
|---|---|---|
| `Java.Wrap` | jongwan/java/chapter1/Money.java:9-20 | Java `int` arithmetic: the result is in the 32-bit range, congruent to the exact result modulo 2^32, and equal to it when it fits |
| `Java.IntStreamSumIsWrappedSum` | jongwan/java/chapter1/Order.java:35-38 | the `IntStream.sum()` of the line subtotals, wrapping at each addition, equals the exact sum wrapped once |
| `Java.IntStreamSumExact` | jongwan/java/chapter1/Order.java:36 | when the exact sum of the subtotals fits in an `int`, the stream sum is that exact sum |
| `Chapter1.Money.constructor` | jongwan/java/chapter1/Money.java:10-12 | stores the given value, negative ones included, with no check |
| `Chapter1.Money.SetValue` | jongwan/java/chapter1/Money.java:6-9 | the Lombok setter changes this instance's value and no other object |
| `Chapter1.Money.Add` | jongwan/java/chapter1/Money.java:14-16 | a freshly allocated `Money`, distinct from both operands, holding the 32-bit sum (the exact sum when it fits); neither operand changes |
| `Chapter1.Money.Multiply` | jongwan/java/chapter1/Money.java:18-20 | a freshly allocated `Money`, distinct from the receiver, holding the 32-bit product; the receiver does not change |
| `Chapter1.OrderLine.constructor` | jongwan/java/chapter1/OrderLine.java:12-21 | product (possibly null) and quantity stored as given, without validation; the price is a fresh copy with the caller's value (so later changes to the caller's `Money` cannot reach it); the subtotal is a fresh `Money` equal to price times quantity, distinct from the price; the `amounts` argument, which may be null, is ignored |
| `Chapter1.OrderLine.GetAmounts` | jongwan/java/chapter1/OrderLine.java:23-25 | on a line as its constructor leaves it, `getAmounts()` is the price's value times the quantity |
| `Chapter1.LineAmounts` | jongwan/java/chapter1/Order.java:36 | `mapToInt(x -> x.getAmounts())`: one subtotal per line, in list order |
| `Chapter1.OrderLineList.constructor` | jongwan/java/chapter1/Ch1Test.java:16 | `new ArrayList<OrderLine>()`: a new, empty list |
| `Chapter1.OrderLineList.Add` | jongwan/java/chapter1/Ch1Test.java:16-19 | the caller's `ArrayList.add` appends one line to the list the order will share |
| `Chapter1.TestLine` | jongwan/java/chapter1/Ch1Test.java:17 | a test line of price 100, quantity 1 and amount argument 200 has subtotal 100 |
| `Chapter1.ThreeLines` | jongwan/java/chapter1/Ch1Test.java:16-19 | the test's list holds three lines, each of subtotal 100 |
| `Chapter1.OrderNo.Equals` | jongwan/java/chapter1/OrderNo.java:15-21 | `equals` holds exactly for another `OrderNo` with the same (possibly null) `id`; never for null or another class |
| `Chapter1.OrderNoEqualsIsEquivalence` | jongwan/java/chapter1/OrderNo.java:15-21 | `OrderNo.equals` is reflexive, symmetric and transitive, and false against null and other classes |
| `Chapter1.OrderNoHashAgreesWithEquals` | jongwan/java/chapter1/OrderNo.java:23-26 | equal `OrderNo`s have equal hash codes, for any hash of the `id` |
| `Chapter1.ShippingInfo.Equals` | jongwan/java/chapter1/ShippingInfo.java:16-22 | `equals` holds exactly when receiver name and phone number are equal (null-safe); the address plays no part |
| `Chapter1.ShippingInfoIgnoresAddress` | jongwan/java/chapter1/ShippingInfo.java:10-26 | two infos differing only in address are equal and hash alike; equality is reflexive and symmetric and false against null and other classes |
| `Chapter1.ShippingInfoHashAgreesWithEquals` | jongwan/java/chapter1/ShippingInfo.java:23-26 | equal shipping infos have equal hash codes, for any hash of name and phone |
| `Chapter1.VerifyNotYetShipped` | jongwan/java/chapter1/Order.java:54-62 | passes exactly in `PAYMENT_WAITING` and `PREPARING` (the states where `isShippingChangeable` holds); in every other state, null included, throws `IllegalStateException("이미 배송이 완료")` |
| `Chapter1.VerifyAtLeastOneOrderLine` | jongwan/java/chapter1/Order.java:30-34 | passes exactly for a non-null, non-empty list; otherwise throws `IllegalArgumentException("구매할 상품이 없어요!!")` |
| `Chapter1.Order.Allocate` | jongwan/java/chapter1/Order.java:6-13 | a new order's fields hold Java's defaults: every field null |
| `Chapter1.Order.Create` | jongwan/java/chapter1/Order.java:15-18 | null shipping info fails with "배송 정보가 없어요." before the lines are looked at; otherwise a null or empty list fails with "구매할 상품이 없어요!!"; otherwise a fresh order holding the caller's list itself, the shipping info, a null state and order number, and a fresh total equal to the stream sum of the subtotals |
| `Chapter1.Order.SetShippingInfo` | jongwan/java/chapter1/Order.java:20-23 | throws on null and leaves the field; otherwise replaces the whole shipping info |
| `Chapter1.Order.SetOrderLines` | jongwan/java/chapter1/Order.java:25-29 | on a null or empty list throws and changes nothing; otherwise stores the caller's reference and a fresh total of its subtotals |
| `Chapter1.Order.CalculateTotalAmounts` | jongwan/java/chapter1/Order.java:35-38 | the total is a fresh `Money` holding the stream sum of the current lines' subtotals |
| `Chapter1.Order.ChangeShippingInfo` | jongwan/java/chapter1/Order.java:40-47 | outside `PAYMENT_WAITING`/`PREPARING` throws `IllegalStateException`; in those states a null argument throws `IllegalArgumentException`; either way the shipping info is untouched; otherwise the shipping info becomes the argument and nothing else changes (the later state guard is proved unreachable) |
| `Chapter1.Order.Cancel` | jongwan/java/chapter1/Order.java:49-57 | from `PAYMENT_WAITING` or `PREPARING` the state becomes `CANCELLED`; from any other state, null included, throws and leaves the state as it was; nothing else changes |
| `Chapter1.CancelTwice` | jongwan/java/chapter1/Order.java:49-57 | on an order in `PAYMENT_WAITING` or `PREPARING`, a first `cancel` succeeds, a second one throws `IllegalStateException("이미 배송이 완료")`, and the order stays `CANCELLED` |
| `Chapter1.Order.Equals` | jongwan/java/chapter1/Order.java:64-70 | two orders are equal exactly when their `orderNumber`s are equal (null-safe); never against null or another class |
| `Chapter1.OrderHashAgreesWithEquals` | jongwan/java/chapter1/Order.java:72-75 | equal orders have equal hash codes, for any hash of the order number |
| `Chapter3.OrderLine.constructor` | jongwan/java/chapter3/OrderLine.java:12-21 | as in chapter 1: a private copy of the price, subtotal price times quantity, `amounts` (possibly null) ignored, and no product check |
| `Chapter3.OrderLine.GetAmounts` | jongwan/java/chapter3/OrderLine.java:23-25 | on a line as its constructor leaves it, `getAmounts()` is price times quantity |
| `Chapter3.OrderLine.VerifyValidProduct` | jongwan/java/chapter3/OrderLine.java:27-31 | a null argument throws `NullPointerException`; otherwise throws `IllegalArgumentException("못사는 상품이에요")` exactly when the argument's name is "notOrderAbleProduct"; depends on the argument only and changes nothing |
| `Chapter3.TestLine` | jongwan/java/chapter3/Ch3Test.java:17-19 | a test line of price 100, quantity 1 and amount argument 200 has subtotal 100 and keeps its product |
| `Chapter6.User.constructor` | jongwan/java/chapter6/User.java:3-4 | a new user's password is null |
| `Chapter6.User.MatchPassword` | jongwan/java/chapter6/User.java:18-20 | with a null stored password throws `NullPointerException`; otherwise true exactly when the argument equals the stored password (false for null) |
| `Chapter6.User.SetPassword` | jongwan/java/chapter6/User.java:10-16 | throws exactly when the new password is null or ""; stores nothing |
| `Chapter6.User.ChangePassword` | jongwan/java/chapter6/User.java:5-8 | the old password is checked first (null stored password: `NullPointerException`; mismatch: `Exception`), then the new one (null or "": `Exception`); succeeds exactly when both pass; the stored password never changes |
| `Chapter6.CheckExistMember` | jongwan/java/chapter6/JoinService.java:13-17 | throws exactly when the request's email equals the known email (a null email does not) |
| `Chapter6.CreateUser` | jongwan/java/chapter6/JoinService.java:7-11 | throws exactly for the email "1234@naver.com"; otherwise returns a new `User` with no password |
| `Chapter6.Save` | jongwan/java/chapter6/JoinService.java:19-21 | a new `User`; nothing from the request is stored |
| `Chapter6.CheckEmpty` | jongwan/java/chapter6/JoinService.java:37-41 | throws `EmptyPropertyException(propertyName)` exactly when the value is null or "" |
| `Chapter6.CheckDuplicateId` | jongwan/java/chapter6/JoinService.java:30-35 | with the stubbed count of 1, always throws `DuplicateIdException("동일한 아이디가 존재합니다.")` |
| `Chapter6.Join` | jongwan/java/chapter6/JoinService.java:23-28 | never returns normally; reports the first of id, name, password that is null or "", in that order, and the duplicate id exactly when all three are present |
| `Chapter6.JoinUsingValidator` | jongwan/java/chapter6/JoinService.java:43-61 | always throws `ValidationErrorException`; the list holds the id, password and name errors exactly for the null (not "") fields, has length 1 plus the number of null fields, keeps the fixed order id, password, name, duplicate, and ends with the duplicate-id error |

## Left out

- `MemberController` (presentation-layer exception translation), the
  chapter 2 discount services and their test, and chapter 3's `Store`: they
  delegate to classes that are not part of this model.
- The chapter 3 `Order`, `Money` and `Product` classes are not part of this
  model; chapter 3's line reuses chapter 1's `Money` and a `Product`
  datatype of name and code.
- The `Order.builder()` used in `Ch1Test` does not exist in the chapter 1
  `Order` and is not modelled; the UUID test tests only the library.
- The Java classes `Product`, `Address`, `OrderState` and `JoinRequest`
  are not part of this model; it defines stand-in types of its own instead:
  `Product`, `Address` and `JoinRequest` as datatypes with the fields the
  code and tests use; `OrderState` with the three values the code names
  (`PaymentWaiting`, `Preparing`, `Cancelled`) plus `Shipped` and
  `Delivered`, which are invented stand-ins for the already-shipped states.
- A `Product` whose `name` is null is not representable (a null product is:
  lines store it, and `verifyValidProduct` throws on it).
- A null price, a null argument to `Money.add`, null elements in the line
  list and a null join request, each of which would throw
  `NullPointerException` in the code, are excluded by
  the parameter types; the null cases the code tests for itself are
  modelled.
- `Chapter1.Order.HashCode`, `Chapter1.OrderNo.HashCode` and
  `Chapter1.ShippingInfo.HashCode` carry no contract of their own: the hash
  is a parameter, and what the code promises about it is stated by the
  `...HashAgreesWithEquals` lemmas; concrete `Objects.hash` values are not
  modelled.
- The `this == o` short-cut of the three `equals` methods is modelled as
  equality of the argument with the receiver; for the datatypes that is
  value equality, which `equals` then accepts anyway.
- The Lombok getter `getPrice()` hands out the line's own `Money`, through
  which a caller could change a line's price after construction; no such
  caller is modelled, and `OrderLine.Valid` holds only for a line as its
  constructor leaves it.
- Exception class hierarchies, messages built from `state` in the
  unreachable guard of `changeShippingInfo`, and catching are not
  modelled; failures are values carrying the kind and message.
