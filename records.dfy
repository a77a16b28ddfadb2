/** The records the application keeps: a point in time, a stored buy-back
    transaction (a document of the `purchases` collection) and the
    new-transaction form. */
module Records {
  import opened Wrappers

  /** A local point in time: calendar year, month as `Date.getMonth()`
      numbers it (0 = January), and the milliseconds elapsed since local
      midnight on the first day of that month. */
  datatype Date = Date(year: int, month: int, offset: nat)

  /** The chronological order `<=` on dates compares with. */
  predicate DateLeq(a: Date, b: Date)
  {
    a.year < b.year
    || (a.year == b.year && a.month < b.month)
    || (a.year == b.year && a.month == b.month && a.offset <= b.offset)
  }

  /** `new Date(now.getFullYear(), now.getMonth(), 1)`: local midnight on
      the first of `now`'s month. */
  function StartOfMonth(now: Date): (d: Date)
    ensures DateLeq(d, now)
    ensures forall e: Date :: e.year == now.year && e.month == now.month ==> DateLeq(d, e)
  {
    Date(now.year, now.month, 0)
  }

  /** `DateLeq` is a total order, as the `>=` on dates needs it to be. */
  lemma DateLeqTotalOrder(a: Date, b: Date, c: Date)
    ensures DateLeq(a, a)
    ensures DateLeq(a, b) || DateLeq(b, a)
    ensures DateLeq(a, b) && DateLeq(b, a) ==> a == b
    ensures DateLeq(a, b) && DateLeq(b, c) ==> DateLeq(a, c)
  {
  }

  /** A stored transaction. Documents come back from the store with any
      field possibly absent, so every field is optional; `id` is the
      document id the store assigned. */
  datatype Purchase = Purchase(
    id: Option<string>,
    itemType: Option<string>,
    customerName: Option<string>,
    customerId: Option<string>,
    phone: Option<string>,
    itemDescription: Option<string>,
    weight: Option<real>,
    karat: Option<string>,
    brand: Option<string>,
    model: Option<string>,
    serialNumber: Option<string>,
    stoneCarat: Option<string>,
    stoneClarity: Option<string>,
    price: Option<real>,
    paymentMethod: Option<string>,
    notes: Option<string>,
    idImage: Option<string>,
    signatureImage: Option<string>,
    date: Option<Date>,
    createdBy: Option<string>)

  /** `p.price || 0` */
  function PriceOrZero(p: Purchase): real { p.price.GetOr(0.0) }

  /** `p.weight || 0` */
  function WeightOrZero(p: Purchase): real { p.weight.GetOr(0.0) }

  /** The new-transaction form as typed: every input is text, the two
      images are data URLs or null. */
  datatype Form = Form(
    itemType: string,
    customerName: string,
    customerId: string,
    phone: string,
    itemDescription: string,
    weight: string,
    karat: string,
    brand: string,
    model: string,
    serialNumber: string,
    stoneCarat: string,
    stoneClarity: string,
    price: string,
    paymentMethod: string,
    notes: string,
    idImage: Option<string>,
    signatureImage: Option<string>)

  /** The form's starting contents, which it is also reset to after a save. */
  const BlankForm: Form :=
    Form("Gold", "", "", "", "", "", "14k", "", "", "", "", "", "", "Cash", "", None, None)

  /** The screens of the application (`view`). */
  datatype View = Dashboard | NewPurchase | History | Reports | Settings
}
