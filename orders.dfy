/** The `Order` and `OrderItem` records and the order total. */
module Orders {
  import opened Wrappers
  import opened JsonValue

  /** The two values `order_status` takes. */
  datatype Status = Pending | Successful

  /** The text stored in the `order_status` column. */
  function StatusText(s: Status): (t: string)
    ensures s == Pending <==> t == "pending"
    ensures s == Successful <==> t == "successful"
  {
    match s
    case Pending => "pending"
    case Successful => "successful"
  }

  /**
   * One line of an order: `amount` is what `float()` made of the request's
   * amount and `quantity` what `int()` made of its quantity; the name is
   * stored as it arrived.
   */
  datatype OrderItem = OrderItem(name: Json, amount: real, quantity: int)

  /**
   * An order. The seven contact and address fields hold the request's values
   * unchanged, since app.py checks only that they are present.
   */
  datatype Order = Order(
    name: Json, email: Json, phoneNumber: Json, street: Json, city: Json, state: Json, country: Json,
    referenceCode: string, paymentCode: string,
    status: Status, proofOfPayment: Option<string>,
    items: seq<OrderItem>)

  /** The fields an update may set, under their request keys, in the order app.py visits them. */
  const ContactFields: seq<string> := ["name", "email", "phone_number", "street", "city", "state", "country"]

  /** `getattr(order, field)` for a contact field; `None` for any other key. */
  function Contact(o: Order, field: string): Option<Json> {
    if field == "name" then Some(o.name)
    else if field == "email" then Some(o.email)
    else if field == "phone_number" then Some(o.phoneNumber)
    else if field == "street" then Some(o.street)
    else if field == "city" then Some(o.city)
    else if field == "state" then Some(o.state)
    else if field == "country" then Some(o.country)
    else None
  }

  /** The parts of an order that are not contact fields. */
  predicate SameNonContact(a: Order, b: Order) {
    a.referenceCode == b.referenceCode && a.paymentCode == b.paymentCode &&
    a.status == b.status && a.proofOfPayment == b.proofOfPayment && a.items == b.items
  }

  /** `setattr(order, field, v)`: only the named contact field changes. */
  function WithContact(o: Order, field: string, v: Json): (r: Order)
    ensures SameNonContact(r, o)
    ensures forall g :: Contact(r, g) == if g == field && Contact(o, g).Some? then Some(v) else Contact(o, g)
  {
    if field == "name" then o.(name := v)
    else if field == "email" then o.(email := v)
    else if field == "phone_number" then o.(phoneNumber := v)
    else if field == "street" then o.(street := v)
    else if field == "city" then o.(city := v)
    else if field == "state" then o.(state := v)
    else if field == "country" then o.(country := v)
    else o
  }

  lemma ContactFieldsAreContacts(o: Order)
    ensures forall f :: f in ContactFields <==> Contact(o, f).Some?
  {
  }

  /** The update loop over the contact fields: each field of `fields` that `data` carries is set, in turn. */
  function ApplyContactFields(o: Order, data: map<string, Json>, fields: seq<string>): Order {
    if fields == [] then o
    else
      var before := ApplyContactFields(o, data, fields[..|fields| - 1]);
      var f := fields[|fields| - 1];
      if f in data then WithContact(before, f, data[f]) else before
  }

  /**
   * After the loop, a contact field holds the request's value when the field
   * was visited and the request carries it, and its old value otherwise;
   * nothing but contact fields changes.
   */
  lemma {:induction false} ApplyContactFieldsEffect(o: Order, data: map<string, Json>, fields: seq<string>)
    ensures SameNonContact(ApplyContactFields(o, data, fields), o)
    ensures forall g :: Contact(ApplyContactFields(o, data, fields), g)
                        == if g in fields && g in data && Contact(o, g).Some? then Some(data[g]) else Contact(o, g)
  {
    if fields != [] {
      var prefix := fields[..|fields| - 1];
      ApplyContactFieldsEffect(o, data, prefix);
      assert forall g :: g in fields <==> g in prefix || g == fields[|fields| - 1] by {
        assert fields == prefix + [fields[|fields| - 1]];
      }
    }
  }

  /** The loop of `update_order` over the updateable fields, calling `setattr` for each one present. */
  method SetContactFields(o: Order, data: map<string, Json>) returns (r: Order)
    ensures r == ApplyContactFields(o, data, ContactFields)
  {
    r := o;
    for k := 0 to |ContactFields|
      invariant r == ApplyContactFields(o, data, ContactFields[..k])
    {
      assert ContactFields[..k + 1][..k] == ContactFields[..k];
      var field := ContactFields[k];
      if field in data {
        r := WithContact(r, field, data[field]);
      }
    }
    assert ContactFields[..|ContactFields|] == ContactFields;
  }

  function LineTotal(it: OrderItem): real {
    it.amount * it.quantity as real
  }

  /** The order total of the notifications: the sum of amount times quantity over the items. */
  function Total(items: seq<OrderItem>): real {
    if items == [] then 0.0 else Total(items[..|items| - 1]) + LineTotal(items[|items| - 1])
  }

  /** The total of two runs of items is the sum of their totals. */
  lemma {:induction false} TotalAppend(a: seq<OrderItem>, b: seq<OrderItem>)
    ensures Total(a + b) == Total(a) + Total(b)
  {
    if b != [] {
      var ab := a + b;
      assert ab[..|ab| - 1] == a + b[..|b| - 1];
      assert ab[|ab| - 1] == b[|b| - 1];
      TotalAppend(a, b[..|b| - 1]);
    } else {
      assert a + b == a;
    }
  }

  /** Exchanging two adjacent items leaves the total unchanged. */
  lemma {:induction false} TotalSwap(a: seq<OrderItem>, x: OrderItem, y: OrderItem, b: seq<OrderItem>)
    ensures Total(a + [x, y] + b) == Total(a + [y, x] + b)
  {
    TotalAppend(a + [x, y], b);
    TotalAppend(a + [y, x], b);
    TotalAppend(a, [x, y]);
    TotalAppend(a, [y, x]);
    assert [x, y][..1] == [x] && [y, x][..1] == [y];
  }

  /** With no negative amount and no negative quantity, the total is not negative. */
  lemma {:induction false} TotalNonNegative(items: seq<OrderItem>)
    requires forall k :: 0 <= k < |items| ==> items[k].amount >= 0.0 && items[k].quantity >= 0
    ensures Total(items) >= 0.0
  {
    if items != [] {
      var last := items[|items| - 1];
      assert LineTotal(last) >= 0.0 by {
        assert last.amount >= 0.0 && last.quantity as real >= 0.0;
      }
      TotalNonNegative(items[..|items| - 1]);
    }
  }

  /** Two widgets at 10.50 times three and two gadgets at 5.00 times two come to 41.50. */
  lemma TotalExample()
    ensures Total([OrderItem(JString("Widget"), 10.50, 3), OrderItem(JString("Gadget"), 5.00, 2)]) == 41.50
  {
    var w, g := OrderItem(JString("Widget"), 10.50, 3), OrderItem(JString("Gadget"), 5.00, 2);
    assert [w, g][..1] == [w];
    assert [w][..0] == [];
  }
}
