/**
 * The two notifications sent once a proof of payment is stored: one to the
 * customer and one to the administrator. Delivery is an oracle `mail` that
 * says whether handing a given notice to the mail transport succeeded.
 */
module Notifications {
  import opened Wrappers
  import opened JsonValue
  import opened Orders

  /**
   * What a notification carries, short of its rendered text: the recipient,
   * the subject, the two codes, the total of the items and the stored proof
   * file the message tries to attach.
   */
  datatype Notice = Notice(
    recipient: Json, subject: string, referenceCode: string, paymentCode: string,
    total: real, proofFile: Option<string>)

  function CustomerNotice(o: Order): Notice {
    Notice(o.email, "Thank You for Your Order!", o.referenceCode, o.paymentCode, Total(o.items), o.proofOfPayment)
  }

  function AdminNotice(o: Order, admin: string): Notice {
    Notice(JString(admin), "New Order Created - " + o.referenceCode, o.referenceCode, o.paymentCode,
           Total(o.items), o.proofOfPayment)
  }

  /** `if not admin_email`: an unset or empty address turns the administrator's notification off. */
  predicate AdminConfigured(adminEmail: Option<string>) {
    adminEmail.Some? && adminEmail.value != ""
  }

  /** The loop of both send functions that accumulates `total_amount`. */
  method OrderTotal(items: seq<OrderItem>) returns (total: real)
    ensures total == Total(items)
  {
    total := 0.0;
    for k := 0 to |items|
      invariant total == Total(items[..k])
    {
      var itemTotal := items[k].amount * items[k].quantity as real;
      assert items[..k + 1][..k] == items[..k];
      total := total + itemTotal;
    }
    assert items[..|items|] == items;
  }

  /** `send_customer_email(order)`: the customer's notice is handed to the transport, and its verdict returned. */
  method SendCustomerEmail(o: Order, mail: Notice -> bool) returns (sent: bool)
    ensures sent == mail(CustomerNotice(o))
  {
    var total := OrderTotal(o.items);
    var notice := Notice(o.email, "Thank You for Your Order!", o.referenceCode, o.paymentCode, total, o.proofOfPayment);
    sent := mail(notice);
  }

  /**
   * `send_admin_email(order)`: `false` at once without an administrator
   * address; otherwise the transport's verdict on the administrator's notice.
   */
  method SendAdminEmail(o: Order, adminEmail: Option<string>, mail: Notice -> bool) returns (sent: bool)
    ensures sent == (AdminConfigured(adminEmail) && mail(AdminNotice(o, adminEmail.value)))
  {
    if adminEmail.None? || adminEmail.value == "" {
      return false;
    }
    var admin := adminEmail.value;
    var total := OrderTotal(o.items);
    var notice := Notice(JString(admin), "New Order Created - " + o.referenceCode, o.referenceCode, o.paymentCode,
                         total, o.proofOfPayment);
    sent := mail(notice);
  }
}
