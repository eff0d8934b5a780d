// Record shapes of src/types/index.ts. The string unions of the source
// ('ok' | 'low' | 'critical', 'in' | 'out', ...) stay strings, because the
// pages compare them with filter values such as 'all' and count them one
// by one. An optional field is an Option, or "" where the source only ever
// tests it for truthiness.

module Records {
  import opened Seqs
  import opened Js

  datatype Product = Product(
    id: int, name: string, category: string, stock: real, unit: string,
    unitWeight: real, minStock: real, price: real, status: string,
    location: string, batch: Option<string>, expirationDate: Option<string>)

  datatype Transaction = Transaction(
    id: int, description: string, category: string, amount: real, date: string,
    status: string, kind: string, entity: string)

  datatype Task = Task(
    id: int, text: string, priority: string, due: string, done: bool, assignee: string)

  datatype PropertyAttachment = PropertyAttachment(
    id: string, name: string, url: string, kind: string, size: int, createdAt: string)

  datatype Property = Property(
    id: int, name: string, location: string, totalArea: real, cultivatedArea: real,
    mainCrop: string, manager: string, status: string, attachments: seq<PropertyAttachment>)

  datatype Collaborator = Collaborator(
    id: int, name: string, role: string, department: string, phone: string,
    email: string, status: string, salary: real, hireDate: string)

  datatype Client = Client(
    id: int, name: string, kind: string, contact: string, email: string, phone: string,
    cnpj: string, address: string, city: string, rating: int, status: string,
    creditLimit: Option<real>, usedCredit: Option<real>, lastPurchase: string)

  /** A supplier; "" in status stands for a record saved without one. */
  datatype Supplier = Supplier(
    id: int, name: string, category: string, contact: string, email: string, phone: string,
    cnpj: string, address: string, leadTime: string, rating: int, status: string,
    lastOrder: string)

  datatype Activity = Activity(id: int, action: string, target: string, time: string, kind: string)

  datatype Plot = Plot(id: int, propertyId: int, name: string, area: real, crop: string)

  /** One product of an application's mix. dose, totalQuantity and cost come
      out of parseFloat and can be NaN. */
  datatype AppliedProduct = AppliedProduct(
    productId: int, productName: string, dose: Num, doseUnit: string,
    normalizedDose: real, totalQuantity: Num, unit: string, cost: Num)

  /** plotId is the text of the plot selector: the page saves the form as it
      is, so the field holds the selector's string. */
  datatype FieldApplication = FieldApplication(
    id: int, date: string, plotId: string, plotName: string, target: string, status: string,
    areaApplied: Num, totalCost: Num, sprayVolume: string, operator: string,
    equipment: string, appliedProducts: seq<AppliedProduct>, observations: string)

  /** cost is what the caller passed (NaN when parseValue failed); appId ties a
      movement to the field application that caused it. */
  datatype StockMovement = StockMovement(
    id: int, productId: int, productName: string, kind: string, quantity: real,
    quantityUnit: string, realChange: real, date: string, reason: string,
    user: string, batch: string, cost: Num, appId: Option<int>)

  /** What the clock would say at the moment of a handler: Date.now(),
      new Date().toISOString() and the HH:MM:SS part of toTimeString(). */
  datatype Clock = Clock(now: int, iso: string, time: string)

  /** An editing id used as a condition (`if (editingId)`): null and 0 both
      mean a new record. */
  predicate Editing(e: Option<int>)
  {
    e.Some? && e.value != 0
  }

  predicate UniqueIds<T>(s: seq<T>, id: T -> int)
  {
    forall i, j :: 0 <= i < j < |s| ==> id(s[i]) != id(s[j])
  }
}
