/** The records the point of sale keeps: products, clients, cart lines, payments,
    sales and exchanges. Money is `real`; quantities and stock are unbounded `int`;
    dates are integer timestamps. */
module Records {
  import opened Wrappers

  /** A catalogue product. `barcode` is optional (`product.barcode?.…` in the screens). */
  datatype Product = Product(
    id: int,
    name: string,
    description: string,
    price: real,
    cost: real,
    stock: int,
    minStock: int,
    category: string,
    barcode: Option<string>,
    brand: string,
    model: string,
    supplier: string)

  datatype Client = Client(id: int, name: string, email: string, phone: string, address: string)

  /** A cart line: product id, name and price snapshots, quantity, and the stock
      ceiling copied from the product when the line was created. */
  datatype CartItem = CartItem(id: int, name: string, price: real, quantity: int, stock: int)

  /** The four payment methods offered by the payment dialog. */
  datatype PaymentMethod = Credit | Debit | Pix | Cash

  /** The method-specific part of a payment record. */
  datatype PaymentExtra =
    | CreditExtra(installments: int, installmentValue: real, cardBrand: string)
    | CashExtra(cashAmount: real, change: real)
    | NoExtra

  /** The payment record handed from the payment dialog to the checkout (its `method` field is `paymentMethod` here, `method` being a Dafny keyword). */
  datatype Payment = Payment(paymentMethod: PaymentMethod, total: real, clientId: Option<int>, extra: PaymentExtra)

  /** A sale line: snapshots of the cart line plus its line total. */
  datatype SaleItem = SaleItem(productId: int, name: string, quantity: int, price: real, total: real)

  /** The sale built by the checkout screen before it is stored. */
  datatype SaleData = SaleData(
    date: int,
    items: seq<SaleItem>,
    subtotal: real,
    discount: real,
    total: real,
    paymentMethod: PaymentMethod,
    paymentDetails: Payment,
    clientId: Option<int>)

  /** The `{id, name}` client snapshot attached to a stored sale. */
  datatype ClientRef = ClientRef(id: int, name: string)

  /** A stored sale: the sale data, the client snapshot and the store-assigned id. */
  datatype Sale = Sale(id: int, data: SaleData, client: Option<ClientRef>)

  /** The exchange statuses offered by the history table ('Pendente', 'Concluída', 'Cancelada'). */
  datatype ExchangeStatus = Pendente | Concluida | Cancelada

  /** The fields of an exchange other than its id. */
  datatype ExchangeInfo = ExchangeInfo(saleId: string, reason: string, description: string, status: ExchangeStatus, date: int)

  datatype Exchange = Exchange(id: int, info: ExchangeInfo)

  /** The sort key of the sale lists: the sale's date. */
  function SaleDate(s: Sale): int { s.data.date }

  /** JavaScript truthiness of an optional numeric id: `null` and `0` are falsy. */
  predicate IsTruthyId(id: Option<int>)
  {
    id.Some? && id.value != 0
  }
}
