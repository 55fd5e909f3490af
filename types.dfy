/** The records the screens and services exchange (src/types/index.ts), with the
    component-local shapes that several of them share. Money is in integer cents;
    timestamps are abstract milliseconds. */
module Types {
  import opened Seqs

  type Timestamp = int

  const MsPerDay: int := 86400000

  /** The calendar day of a timestamp, the key `toDateString()` compares. */
  function DayOf(t: Timestamp): int
  {
    t / MsPerDay
  }

  datatype SaleItem = SaleItem(productId: int, productName: string, quantity: int, price: int, subtotal: int)

  /** `Sale.paymentMethod` is declared as a payment-type id or null, while the point-of-sale
      screen stores the method's name (`'cash'`, `'card'`, `'transfer'`) in it. */
  datatype PaymentMethod = NoMethod | MethodId(id: int) | MethodName(name: string)

  datatype Sale = Sale(
    id: string,
    items: seq<SaleItem>,
    total: int,
    customerName: Option<string>,
    date: Timestamp,
    paymentMethod: PaymentMethod)

  datatype Category = Category(id: int, descripcion: string)

  /** A product as the backend returns it; `stock` is declared as a string. */
  datatype Product = Product(
    id: int,
    documentId: string,
    descripcion: string,
    precioUnitario: int,
    stock: string,
    barCode: string,
    stockMin: int,
    category: Option<Category>)

  datatype Customer = Customer(id: string, name: string, email: string, phone: string, address: string)

  datatype AdjustmentType = Increase | Decrease

  /** One entry of the inventory-adjustment history as the backend returns it. */
  datatype InventoryAdjustment = InventoryAdjustment(
    id: int,
    product: Option<Product>,
    adjustmentType: AdjustmentType,
    quantity: int,
    reason: string,
    adjustmentDate: Timestamp)

  /** A payment type (`typePayment`). */
  datatype PaymentType = PaymentType(id: int, descripcion: string)
}
