/** Saving a new buy-back from the form: refused without a signed-in user
    or a signature, otherwise the form becomes a document that the store
    is asked to add; only a successful add resets the form and moves to
    the history screen. */
module Submission {
  import opened Wrappers
  import opened Records
  import opened Numbers
  import Reports

  /** The signed-in (anonymous) user; only its uid is used. */
  datatype User = User(uid: string)

  /** A failure reported by the document store. */
  datatype StoreError = StoreError(code: string, message: string)

  /** How a submission ended: refused before the store was called, saved
      (with the record the receipt is printed from), or rejected by the store
      (with the document that was sent). */
  datatype SubmitResult =
    | NotSignedIn
    | SignatureMissing
    | Saved(receipt: Purchase)
    | SaveFailed(sent: Purchase, error: StoreError)

  /** `!formData.signatureImage` is false: null and the empty string are
      both missing signatures. */
  predicate HasSignature(form: Form)
  {
    form.signatureImage.Some? && form.signatureImage.value != ""
  }

  /** `dataToSave`: the form's fields, the weight and price read as numbers,
      stamped with the time and the creating user. */
  function ToSave(form: Form, now: Date, uid: string): (p: Purchase)
    // no id yet: the store assigns it
    ensures p.id.None?
    // stamped with the time and the creating user
    ensures p.date == Some(now) && p.createdBy == Some(uid)
    // both images are passed through as they are
    ensures p.idImage == form.idImage && p.signatureImage == form.signatureImage
    // weight and price are numbers read from the typed text
    ensures (forall i :: 0 <= i < |form.price| ==> !IsDigit(form.price[i])) ==> p.price == Some(0.0)
    ensures (forall i :: 0 <= i < |form.weight| ==> !IsDigit(form.weight[i])) ==> p.weight == Some(0.0)
  {
    Purchase(
      None, Some(form.itemType), Some(form.customerName), Some(form.customerId), Some(form.phone),
      Some(form.itemDescription), Some(Coerce(form.weight)), Some(form.karat), Some(form.brand),
      Some(form.model), Some(form.serialNumber), Some(form.stoneCarat), Some(form.stoneClarity),
      Some(Coerce(form.price)), Some(form.paymentMethod), Some(form.notes), form.idImage,
      form.signatureImage, Some(now), Some(uid))
  }

  /** `handleSubmit` as a function of the signed-in user, the form, the
      clock and the store's answer to the add (a new id or an error). */
  function SubmitSpec(user: Option<User>, form: Form, now: Date, added: Result<string, StoreError>): (r: SubmitResult)
    ensures r.NotSignedIn? <==> user.None?
    ensures r.SignatureMissing? <==> user.Some? && !HasSignature(form)
    ensures r.Saved? <==> user.Some? && HasSignature(form) && added.Success?
    ensures r.SaveFailed? <==> user.Some? && HasSignature(form) && added.Failure?
    ensures r.Saved? ==> r.receipt.id == Some(added.value) && r.receipt.date == Some(now)
                         && r.receipt.createdBy == Some(user.value.uid)
    ensures r.SaveFailed? ==> r.sent.id == None && r.error == added.error
  {
    if user.None? then NotSignedIn
    else if !HasSignature(form) then SignatureMissing
    else
      var doc := ToSave(form, now, user.value.uid);
      match added
      case Success(id) => Saved(doc.(id := Some(id)))
      case Failure(e) => SaveFailed(doc, e)
  }

  /** The saved record is the form itself except for the two numbers, which
      are read with `parseFloat(...) || 0`, and the stamps. */
  lemma SavedRecordMatchesForm(user: Option<User>, form: Form, now: Date, added: Result<string, StoreError>)
    requires user.Some? && HasSignature(form) && added.Success?
    ensures var p := SubmitSpec(user, form, now, added).receipt;
      && p.itemType == Some(form.itemType) && p.customerName == Some(form.customerName)
      && p.customerId == Some(form.customerId) && p.phone == Some(form.phone)
      && p.itemDescription == Some(form.itemDescription) && p.karat == Some(form.karat)
      && p.brand == Some(form.brand) && p.model == Some(form.model)
      && p.serialNumber == Some(form.serialNumber) && p.stoneCarat == Some(form.stoneCarat)
      && p.stoneClarity == Some(form.stoneClarity) && p.paymentMethod == Some(form.paymentMethod)
      && p.notes == Some(form.notes) && p.idImage == form.idImage
      && p.signatureImage == form.signatureImage
      && p.weight == Some(Coerce(form.weight)) && p.price == Some(Coerce(form.price))
  {
  }

  /** A Gold buy-back typed as 5.5 g of 14k for 100.00 is saved with the
      numbers 5.5 and 100. */
  lemma GoldExampleSaved(uid: string, form: Form, now: Date, id: string)
    requires form.itemType == "Gold" && form.karat == "14k"
    requires form.weight == "5.5" && form.price == "100.00" && HasSignature(form)
    ensures var r := SubmitSpec(Some(User(uid)), form, now, Success(id));
      && r.Saved? && r.receipt.itemType == Some("Gold") && r.receipt.karat == Some("14k")
      && r.receipt.weight == Some(5.5) && r.receipt.price == Some(100.0)
  {
    ReadsFivePointFive();
    ReadsHundred();
  }

  /** No check is made on the price: a zero, negative or unreadable price is
      saved as its number (0 for unreadable text). */
  lemma NoPriceCheck(uid: string, form: Form, now: Date, id: string)
    requires HasSignature(form)
    ensures form.price == "" ==> SubmitSpec(Some(User(uid)), form, now, Success(id)).receipt.price == Some(0.0)
    ensures form.price == "-5" ==> SubmitSpec(Some(User(uid)), form, now, Success(id)).receipt.price == Some(-5.0)
    ensures SubmitSpec(Some(User(uid)), form, now, Success(id)).Saved?
  {
    NonNumbersReadAsZero();
    ReadsNegative();
  }

  /** A purchase just saved is dated now, so it joins this month's
      dashboard figures: one more transaction, its price added, and its
      weight added when it is Gold. */
  lemma SavedPurchaseCountsThisMonth(purchases: seq<Purchase>, user: Option<User>, form: Form, now: Date,
                                     added: Result<string, StoreError>)
    requires user.Some? && HasSignature(form) && added.Success?
    ensures var p := SubmitSpec(user, form, now, added).receipt;
      var before, after := Reports.GetAnalytics(purchases, now), Reports.GetAnalytics(purchases + [p], now);
      && after.count == before.count + 1
      && after.totalSpentMonth == before.totalSpentMonth + Coerce(form.price)
      && after.totalGramsMonth
         == before.totalGramsMonth + (if form.itemType == "Gold" then Coerce(form.weight) else 0.0)
  {
    var p := SubmitSpec(user, form, now, added).receipt;
    Reports.AnalyticsAddOne(purchases, p, now);
  }

  /** The part of the component's state that submission reads and writes. */
  class Desk {
    var user: Option<User>
    var formData: Form
    var view: View
    var purchases: seq<Purchase>

    /** The component's initial state: nobody signed in, a blank form, the dashboard. */
    constructor ()
      ensures user == None && formData == BlankForm && view == Dashboard && purchases == []
    {
      user := None;
      formData := BlankForm;
      view := Dashboard;
      purchases := [];
    }

    /** The identity callback: a user that signs in is remembered; a null
        identity leaves the previous one in place. */
    method AuthStateChanged(u: Option<User>)
      modifies this`user
      ensures user == if u.Some? then u else old(user)
    {
      if u.Some? {
        user := u;
      }
    }

    /** The live subscription: every snapshot replaces the list wholesale. */
    method ReceiveSnapshot(docs: seq<Purchase>)
      modifies this`purchases
      ensures purchases == docs
    {
      purchases := docs;
    }

    /** `handleSubmit`; `added` is the store's answer to the add. */
    method HandleSubmit(now: Date, added: Result<string, StoreError>) returns (r: SubmitResult)
      modifies this`formData, this`view
      ensures r == SubmitSpec(user, old(formData), now, added)
      ensures r.Saved? ==> formData == BlankForm && view == History
      ensures !r.Saved? ==> formData == old(formData) && view == old(view)
    {
      if user.None? {
        return NotSignedIn;
      }
      if !HasSignature(formData) {
        return SignatureMissing;
      }
      var dataToSave := ToSave(formData, now, user.value.uid);
      match added {
        case Failure(e) =>
          r := SaveFailed(dataToSave, e);
        case Success(id) =>
          r := Saved(dataToSave.(id := Some(id)));
          formData := BlankForm;
          view := History;
      }
    }
  }
}
