/**
 * The order store and the three endpoints that change it: creating an order,
 * updating a pending order, and uploading the proof of payment that moves an
 * order from `pending` to `successful` and triggers the notifications.
 */
module OrderStore {
  import opened Wrappers
  import opened JsonValue
  import opened Uploads
  import opened Codes
  import opened Orders
  import opened Validation
  import opened Notifications

  /** The endpoints' outcomes: 2xx with a payload, 400, 404 and 403. */
  datatype Response<T> = Ok(value: T) | BadRequest(error: ApiError) | NotFound | Forbidden(error: ApiError)

  /** A created order with the id the database assigned it. */
  datatype Created = Created(id: nat, order: Order)

  /** `emails_sent` of the upload response. */
  datatype EmailsSent = EmailsSent(customer: bool, admin: bool)

  datatype Receipt = Receipt(order: Order, emailsSent: EmailsSent)

  /** The `proof_of_payment` part of a multipart request. */
  datatype FileUpload = FileUpload(filename: string)

  /** What holds of every stored order. */
  predicate WellFormedOrder(o: Order) {
    IsReferenceCode(o.referenceCode) && IsCode(o.paymentCode, PaymentCodeLength) && |o.items| > 0 &&
    (o.proofOfPayment.Some? <==> o.status == Successful)
  }

  /** The order `create_order` builds from an accepted request and the two generated codes. */
  function NewOrder(data: map<string, Json>, referenceCode: string, paymentCode: string): Order
    requires CreateError(data).None?
  {
    CreateAccepted(data);
    Order(data["name"], data["email"], data["phone_number"], data["street"], data["city"], data["state"],
          data["country"], referenceCode, paymentCode, Pending, None, ItemsOf(data["items"].elems))
  }

  /** The order `update_order` commits for an accepted request. */
  function UpdatedOrder(o: Order, data: map<string, Json>): Order
    requires UpdateError(data).None?
  {
    var c := ApplyContactFields(o, data, ContactFields);
    if "items" in data then c.(items := ItemsOf(data["items"].elems)) else c
  }

  /**
   * An accepted update sets exactly the contact fields the request carries,
   * replaces the whole item list when the request carries items, and leaves
   * the codes, the status and the proof of payment alone.
   */
  lemma UpdatedOrderEffect(o: Order, data: map<string, Json>)
    requires UpdateError(data).None?
    ensures forall g :: Contact(UpdatedOrder(o, data), g) == if g in data && Contact(o, g).Some? then Some(data[g]) else Contact(o, g)
    ensures var u := UpdatedOrder(o, data);
      u.referenceCode == o.referenceCode && u.paymentCode == o.paymentCode &&
      u.status == o.status && u.proofOfPayment == o.proofOfPayment &&
      u.items == if "items" in data then ItemsOf(data["items"].elems) else o.items
  {
    ApplyContactFieldsEffect(o, data, ContactFields);
    ContactFieldsAreContacts(o);
  }

  /** Storing the proof: the status becomes `successful` and the proof is recorded. */
  function Finalized(o: Order, proof: string): Order {
    o.(status := Successful, proofOfPayment := Some(proof))
  }

  /**
   * The name a stored proof receives, `f"{timestamp}_{filename}"`: the
   * timestamp and the sanitised name can be read back on either side of the
   * underscore.
   */
  function StoredProofName(timestamp: string, safeName: string): (r: string)
    ensures |r| == |timestamp| + 1 + |safeName|
    ensures r[..|timestamp|] == timestamp && r[|timestamp|] == '_' && r[|timestamp| + 1..] == safeName
  {
    timestamp + "_" + safeName
  }

  /** The file checks of `upload_payment_proof`, in the order app.py makes them. */
  function UploadError(file: Option<FileUpload>): Option<ApiError> {
    match file
    case None => Some(MissingProofFile)
    case Some(f) =>
      if f.filename == "" then Some(NoFileSelected)
      else if !AllowedFile(f.filename) then Some(InvalidFileType)
      else None
  }

  /** The two notifications' outcomes for a finalized order. */
  function EmailsOutcome(o: Order, adminEmail: Option<string>, mail: Notice -> bool): EmailsSent {
    EmailsSent(mail(CustomerNotice(o)), AdminConfigured(adminEmail) && mail(AdminNotice(o, adminEmail.value)))
  }

  /** Ids below `next`, well-formed orders, and the two unique constraints of the `order` table. */
  ghost predicate TableInvariant(orders: map<nat, Order>, next: nat) {
    next >= 1 &&
    (forall id :: id in orders ==> 1 <= id < next && WellFormedOrder(orders[id])) &&
    (forall i, j :: i in orders && j in orders && i != j ==>
       orders[i].referenceCode != orders[j].referenceCode && orders[i].paymentCode != orders[j].paymentCode)
  }

  function ReferenceCodesOf(orders: map<nat, Order>): set<string> {
    set id | id in orders :: orders[id].referenceCode
  }

  function PaymentCodesOf(orders: map<nat, Order>): set<string> {
    set id | id in orders :: orders[id].paymentCode
  }

  /** Inserting a well-formed order with unused codes under the next id keeps the invariant. */
  lemma InsertKeepsInvariant(orders: map<nat, Order>, next: nat, o: Order)
    requires TableInvariant(orders, next) && WellFormedOrder(o)
    requires o.referenceCode !in ReferenceCodesOf(orders) && o.paymentCode !in PaymentCodesOf(orders)
    ensures TableInvariant(orders[next := o], next + 1)
  {
    var m := orders[next := o];
    forall id | id in m
      ensures 1 <= id < next + 1 && WellFormedOrder(m[id])
    {
      if id != next { assert m[id] == orders[id]; }
    }
    forall i, j | i in m && j in m && i != j
      ensures m[i].referenceCode != m[j].referenceCode && m[i].paymentCode != m[j].paymentCode
    {
      if i == next {
        assert orders[j].referenceCode in ReferenceCodesOf(orders) && orders[j].paymentCode in PaymentCodesOf(orders);
      } else if j == next {
        assert orders[i].referenceCode in ReferenceCodesOf(orders) && orders[i].paymentCode in PaymentCodesOf(orders);
      }
    }
  }

  /** Replacing a stored order by a well-formed one with the same codes keeps the invariant. */
  lemma ReplaceKeepsInvariant(orders: map<nat, Order>, next: nat, id: nat, o: Order)
    requires TableInvariant(orders, next) && id in orders && WellFormedOrder(o)
    requires o.referenceCode == orders[id].referenceCode && o.paymentCode == orders[id].paymentCode
    ensures TableInvariant(orders[id := o], next)
  {
  }

  /** The `order` table: rows by id, and the id the next insert receives. */
  class Store {
    var orders: map<nat, Order>
    var nextId: nat

    /** Ids below `nextId`, well-formed orders, and the two unique constraints. */
    ghost predicate Valid()
      reads this
    {
      TableInvariant(orders, nextId)
    }

    /** The reference codes in use: what `Order.query.filter_by(reference_code=...)` searches. */
    function ReferenceCodes(): set<string>
      reads this
    {
      ReferenceCodesOf(orders)
    }

    /** The payment codes in use. */
    function PaymentCodes(): set<string>
      reads this
    {
      PaymentCodesOf(orders)
    }

    constructor ()
      ensures Valid() && orders == map[] && nextId == 1
    {
      orders := map[];
      nextId := 1;
    }

    /**
     * `create_order`: a rejected request stores nothing; an accepted one adds
     * exactly one pending order, under a new id, with fresh codes, the
     * request's contact fields and its items in order.
     */
    method CreateOrder(data: map<string, Json>, attempts: seq<Attempt>, draws: seq<string>)
      returns (res: Response<Created>)
      requires Valid()
      requires WellFormedAttempts(attempts)
      requires exists k :: 0 <= k < |attempts| && AttemptCode(attempts[k]) !in ReferenceCodes()
      requires WellFormedDraws(draws)
      requires exists k :: 0 <= k < |draws| && draws[k] !in PaymentCodes()
      modifies this
      ensures Valid()
      ensures CreateError(data).Some? ==>
                res == BadRequest(CreateError(data).value) && orders == old(orders) && nextId == old(nextId)
      ensures CreateError(data).None? ==>
                res.Ok? && res.value.id == old(nextId) && res.value.id !in old(orders) &&
                FirstFreeAttempt(attempts, old(ReferenceCodes()), res.value.order.referenceCode) &&
                FirstFreeDraw(draws, old(PaymentCodes()), res.value.order.paymentCode) &&
                res.value.order == NewOrder(data, res.value.order.referenceCode, res.value.order.paymentCode) &&
                orders == old(orders)[res.value.id := res.value.order] && nextId == old(nextId) + 1
    {
      if data == map[] {
        return BadRequest(NotJson);
      }
      var missing := CheckRequiredFields(data);
      if missing.Some? {
        return BadRequest(MissingField(missing.value));
      }
      assert RequiredFields[7] == "items";
      var itemsData := data["items"];
      var itemsError := ValidateItems(itemsData);
      if itemsError.Some? {
        return BadRequest(itemsError.value);
      }
      ItemsAccepted(itemsData);
      CreateAccepted(data);
      var referenceCode := GenerateOrderCode(ReferenceCodes(), attempts);
      var paymentCode := GeneratePaymentCode(PaymentCodes(), draws);
      var items := BuildItems(itemsData.elems);
      var order := Order(data["name"], data["email"], data["phone_number"], data["street"], data["city"],
                         data["state"], data["country"], referenceCode, paymentCode, Pending, None, items);
      assert order == NewOrder(data, referenceCode, paymentCode);
      var id := nextId;
      InsertKeepsInvariant(orders, nextId, order);
      orders := orders[id := order];
      nextId := nextId + 1;
      res := Ok(Created(id, order));
    }

    /**
     * `update_order`: an unknown id is 404 and an order that is no longer
     * pending is 403, both changing nothing; a rejected body changes nothing
     * either, not even the contact fields already set; an accepted body
     * commits `UpdatedOrder`.
     */
    method UpdateOrder(id: nat, data: map<string, Json>) returns (res: Response<Order>)
      requires Valid()
      modifies this
      ensures Valid() && nextId == old(nextId)
      ensures id !in old(orders) ==> res == NotFound && orders == old(orders)
      ensures id in old(orders) && old(orders[id]).status != Pending ==>
                res == Forbidden(NotPending) && orders == old(orders)
      ensures id in old(orders) && old(orders[id]).status == Pending && UpdateError(data).Some? ==>
                res == BadRequest(UpdateError(data).value) && orders == old(orders)
      ensures id in old(orders) && old(orders[id]).status == Pending && UpdateError(data).None? ==>
                res == Ok(UpdatedOrder(old(orders[id]), data)) &&
                orders == old(orders)[id := UpdatedOrder(old(orders[id]), data)]
    {
      if id !in orders {
        return NotFound;
      }
      var order := orders[id];
      if order.status != Pending {
        return Forbidden(NotPending);
      }
      if data == map[] {
        return BadRequest(NotJson);
      }
      order := SetContactFields(order, data);
      if "items" in data {
        var itemsError := ValidateItems(data["items"]);
        if itemsError.Some? {
          // The contact fields set above are never committed.
          return BadRequest(itemsError.value);
        }
        ItemsAccepted(data["items"]);
        var items := BuildItems(data["items"].elems);
        order := order.(items := items);
      }
      UpdatedOrderEffect(orders[id], data);
      ReplaceKeepsInvariant(orders, nextId, id, order);
      orders := orders[id := order];
      res := Ok(order);
    }

    /**
     * `upload_payment_proof`: only a pending order with an acceptable file
     * changes, and it becomes `successful` with the stored file name as its
     * proof; the notifications are attempted afterwards, cannot undo the
     * change, and are only reported.
     */
    method UploadPaymentProof(id: nat, file: Option<FileUpload>, timestamp: string, safeName: string,
                              adminEmail: Option<string>, mail: Notice -> bool)
      returns (res: Response<Receipt>)
      requires Valid()
      modifies this
      ensures Valid() && nextId == old(nextId)
      ensures id !in old(orders) ==> res == NotFound && orders == old(orders)
      ensures id in old(orders) && old(orders[id]).status != Pending ==>
                res == Forbidden(ProofAlreadySubmitted) && orders == old(orders)
      ensures id in old(orders) && old(orders[id]).status == Pending && UploadError(file).Some? ==>
                res == BadRequest(UploadError(file).value) && orders == old(orders)
      ensures id in old(orders) && old(orders[id]).status == Pending && UploadError(file).None? ==>
                var done := Finalized(old(orders[id]), StoredProofName(timestamp, safeName));
                orders == old(orders)[id := done] && res == Ok(Receipt(done, EmailsOutcome(done, adminEmail, mail)))
    {
      if id !in orders {
        return NotFound;
      }
      var order := orders[id];
      if order.status != Pending {
        return Forbidden(ProofAlreadySubmitted);
      }
      if file.None? {
        return BadRequest(MissingProofFile);
      }
      if file.value.filename == "" {
        return BadRequest(NoFileSelected);
      }
      if !AllowedFile(file.value.filename) {
        return BadRequest(InvalidFileType);
      }
      var uniqueFilename := StoredProofName(timestamp, safeName);
      order := order.(proofOfPayment := Some(uniqueFilename), status := Successful);
      ReplaceKeepsInvariant(orders, nextId, id, order);
      orders := orders[id := order];
      var customerSent := SendCustomerEmail(order, mail);
      var adminSent := SendAdminEmail(order, adminEmail, mail);
      res := Ok(Receipt(order, EmailsSent(customerSent, adminSent)));
    }
  }

  /** A request body for one book at 12.00, from a customer named Ada. */
  function ExampleRequest(): map<string, Json> {
    map[
      "name" := JString("Ada"), "email" := JString("a@b.com"), "phone_number" := JString("555-0100"),
      "street" := JString("1 Main St"), "city" := JString("Lagos"), "state" := JString("Lagos"),
      "country" := JString("Nigeria"),
      "items" := JArray([JObject(map["name" := JString("Book"), "amount" := JFloat(12.0), "quantity" := JInt(1)])])]
  }

  /** The example's one book: a valid item that becomes one `OrderItem`. */
  lemma ExampleBookAccepted()
    ensures ItemsError(ExampleRequest()["items"]).None?
    ensures ItemsOf(ExampleRequest()["items"].elems) == [OrderItem(JString("Book"), 12.0, 1)]
  {
    var book := JObject(map["name" := JString("Book"), "amount" := JFloat(12.0), "quantity" := JInt(1)]);
    assert ValidItem(book);
    assert ExampleRequest()["items"] == JArray([book]);
    ItemsAccepted(JArray([book]));
  }

  /** The example request is accepted, with Ada's contact fields and one book. */
  lemma ExampleRequestAccepted(referenceCode: string, paymentCode: string)
    ensures CreateError(ExampleRequest()).None?
    ensures NewOrder(ExampleRequest(), referenceCode, paymentCode) ==
              Order(JString("Ada"), JString("a@b.com"), JString("555-0100"), JString("1 Main St"), JString("Lagos"),
                    JString("Lagos"), JString("Nigeria"), referenceCode, paymentCode, Pending, None,
                    [OrderItem(JString("Book"), 12.0, 1)])
  {
    ExampleBookAccepted();
    CreateAccepted(ExampleRequest());
  }

  lemma ReceiptNameAllowed()
    ensures AllowedFile("receipt.png")
  {
    assert IsLastDot("receipt.png", 7) && "receipt.png"[8..] == "png" && Lower("png") == "png";
  }

  lemma ProofName()
    ensures StoredProofName("20261014_093000", "receipt.png") == "20261014_093000_receipt.png"
  {
  }

  lemma ExampleDraws()
    ensures WellFormedAttempts([Attempt("20261014", "AB12")]) && WellFormedDraws(["XY34Z9"])
    ensures AttemptCode(Attempt("20261014", "AB12")) == "ORD-20261014-AB12"
  {
  }

  /** Places the example request in an empty table, with one attempt and one draw. */
  method PlaceExampleOrder(store: Store) returns (created: Response<Created>)
    requires store.Valid() && store.orders == map[]
    modifies store
    ensures store.Valid()
    ensures created.Ok? && store.orders == map[created.value.id := created.value.order]
    ensures created.Ok? && created.value.order.status == Pending && created.value.order.paymentCode == "XY34Z9"
    ensures created.Ok? && created.value.order.referenceCode == "ORD-20261014-AB12"
    ensures created.Ok? && created.value.order.items == [OrderItem(JString("Book"), 12.0, 1)]
  {
    var attempt := Attempt("20261014", "AB12");
    ExampleDraws();
    assert store.ReferenceCodes() == {} && store.PaymentCodes() == {};
    assert [attempt][0] == attempt && ["XY34Z9"][0] == "XY34Z9";
    ExampleRequestAccepted("", "");
    created := store.CreateOrder(ExampleRequest(), [attempt], ["XY34Z9"]);
    var order := created.value.order;
    FirstFreeSingleAttempt(attempt, {}, order.referenceCode);
    FirstFreeSingleDraw("XY34Z9", {}, order.paymentCode);
    ExampleRequestAccepted(order.referenceCode, order.paymentCode);
  }

  /**
   * One order's life: created pending, finalized by the first upload of a
   * proof, then closed both to a second upload and to updates, whatever the
   * mail transport does.
   */
  method OrderLifecycle(mail: Notice -> bool)
    returns (created: Response<Created>, receipt: Response<Receipt>, again: Response<Receipt>, late: Response<Order>)
    ensures created.Ok? && StatusText(created.value.order.status) == "pending" && created.value.order.paymentCode == "XY34Z9"
    ensures created.Ok? && created.value.order.referenceCode == "ORD-20261014-AB12"
    ensures created.Ok? && Total(created.value.order.items) == 12.0
    ensures receipt.Ok? && StatusText(receipt.value.order.status) == "successful"
    ensures receipt.Ok? && receipt.value.order.proofOfPayment == Some("20261014_093000_receipt.png")
    ensures again == Forbidden(ProofAlreadySubmitted)
    ensures late == Forbidden(NotPending)
  {
    var store := new Store();
    created := PlaceExampleOrder(store);
    var id := created.value.id;
    assert Total(created.value.order.items) == 12.0 by {
      TotalAppend([], created.value.order.items);
    }
    ReceiptNameAllowed();
    ProofName();
    var proof := Some(FileUpload("receipt.png"));
    receipt := store.UploadPaymentProof(id, proof, "20261014_093000", "receipt.png", Some("admin@example.com"), mail);
    again := store.UploadPaymentProof(id, proof, "20261014_093500", "receipt.png", Some("admin@example.com"), mail);
    late := store.UpdateOrder(id, map["city" := JString("Abuja")]);
  }
}
