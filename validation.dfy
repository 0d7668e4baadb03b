/**
 * Validation of order request bodies: the required fields, the items array and
 * each item, checked in the order app.py makes them, with the first failure reported.
 */
module Validation {
  import opened Wrappers
  import opened JsonValue
  import opened PyNumbers
  import opened Orders

  /** Why one item of the items array is rejected. */
  datatype ItemFault = NotAnObject | MissingItemFields | InvalidNumber

  /** The client errors the endpoints answer with 400 or 403. */
  datatype ApiError =
    | NotJson
    | MissingField(field: string)
    | ItemsNotNonEmptyArray
    | BadItem(index: nat, fault: ItemFault)
    | NotPending
    | ProofAlreadySubmitted
    | MissingProofFile
    | NoFileSelected
    | InvalidFileType

  /** The `error` text of each response. */
  function Message(e: ApiError): string {
    match e
    case NotJson => "Request must be JSON"
    case MissingField(f) => "Missing required field: " + f
    case ItemsNotNonEmptyArray => "Items must be a non-empty array"
    case BadItem(i, f) => BadItemText(i, f)
    case NotPending => "Order cannot be updated after proof of payment has been submitted"
    case ProofAlreadySubmitted => "Proof of payment has already been submitted for this order"
    case MissingProofFile => "Missing proof of payment file"
    case NoFileSelected => "No file selected"
    case InvalidFileType => "Invalid file type. Allowed types: png, jpg, jpeg, gif, pdf"
  }

  function BadItemText(i: nat, f: ItemFault): string {
    "Item at index " + (NatToString(i) + FaultText(f))
  }

  function FaultText(f: ItemFault): (t: string)
    ensures |t| > 0 && t[0] == ' '
  {
    match f
    case NotAnObject => " must be an object"
    // Written in two parts so that the verifier sees the leading space.
    case MissingItemFields => " " + "missing required fields (name, amount, quantity)"
    case InvalidNumber => " has invalid amount or quantity"
  }

  /** A digit string followed by a text that starts with a space splits in one way only. */
  lemma {:induction false} DigitsThenSpace(a: string, s: string, b: string, t: string)
    requires forall k :: 0 <= k < |a| ==> IsDigit(a[k])
    requires forall k :: 0 <= k < |b| ==> IsDigit(b[k])
    requires |s| > 0 && s[0] == ' ' && |t| > 0 && t[0] == ' '
    requires a + s == b + t
    ensures a == b && s == t
  {
    assert a == (a + s)[..|a|] && b == (b + t)[..|b|];
    assert s == (a + s)[|a|..] && t == (b + t)[|b|..];
  }

  /** The message of a rejected item names its index and its fault unambiguously. */
  lemma MessageIdentifiesItem(i: nat, f: ItemFault, j: nat, g: ItemFault)
    requires Message(BadItem(i, f)) == Message(BadItem(j, g))
    ensures i == j && f == g
  {
    var prefix := "Item at index ";
    var x, y := NatToString(i) + FaultText(f), NatToString(j) + FaultText(g);
    assert BadItemText(i, f) == prefix + x && BadItemText(j, g) == prefix + y;
    assert x == (prefix + x)[|prefix|..] && y == (prefix + y)[|prefix|..];
    DigitsThenSpace(NatToString(i), FaultText(f), NatToString(j), FaultText(g));
    DigitsValueOfNatToString(i);
    DigitsValueOfNatToString(j);
  }

  /** The keys `create_order` requires, in the order it checks them. */
  const RequiredFields: seq<string> := ["name", "email", "phone_number", "street", "city", "state", "country", "items"]

  /** The first of `fields` that `data` lacks. */
  function FirstMissing(data: map<string, Json>, fields: seq<string>): (r: Option<string>)
    ensures r.None? <==> forall k :: 0 <= k < |fields| ==> fields[k] in data
    ensures r.Some? ==> exists k :: 0 <= k < |fields| && fields[k] == r.value && r.value !in data
                                    && forall j :: 0 <= j < k ==> fields[j] in data
  {
    if fields == [] then None
    else if fields[0] !in data then Some(fields[0])
    else
      var rest := FirstMissing(data, fields[1..]);
      assert rest.Some? ==> exists k :: 1 <= k < |fields| && fields[k] == rest.value && rest.value !in data
                                        && forall j :: 0 <= j < k ==> fields[j] in data by {
        if rest.Some? {
          var k :| 0 <= k < |fields| - 1 && fields[1..][k] == rest.value && rest.value !in data
                   && forall j :: 0 <= j < k ==> fields[1..][j] in data;
          assert forall j :: 0 <= j < k + 1 ==> fields[j] in data by {
            forall j | 0 <= j < k + 1 ensures fields[j] in data {
              if j > 0 { assert fields[j] == fields[1..][j - 1]; }
            }
          }
        }
      }
      rest
  }

  /** The loop over the required fields (app.py's `for field in required_fields`). */
  method CheckRequiredFields(data: map<string, Json>) returns (missing: Option<string>)
    ensures missing == FirstMissing(data, RequiredFields)
  {
    for k := 0 to |RequiredFields|
      invariant forall j :: 0 <= j < k ==> RequiredFields[j] in data
    {
      if RequiredFields[k] !in data {
        return Some(RequiredFields[k]);
      }
    }
    return None;
  }

  /** The three checks made of one item, in app.py's order. */
  function ItemFaultOf(item: Json): Option<ItemFault> {
    if !item.JObject? then Some(NotAnObject)
    else if !("name" in item.fields && "amount" in item.fields && "quantity" in item.fields) then Some(MissingItemFields)
    else if ToFloat(item.fields["amount"]).None? || ToInt(item.fields["quantity"]).None? then Some(InvalidNumber)
    else None
  }

  predicate ValidItem(item: Json) {
    ItemFaultOf(item).None?
  }

  /** The index of the first item that fails its checks. */
  function FirstBadItem(items: seq<Json>): (r: Option<nat>)
    ensures r.None? <==> forall k :: 0 <= k < |items| ==> ValidItem(items[k])
    ensures r.Some? ==> r.value < |items| && !ValidItem(items[r.value])
                        && forall k :: 0 <= k < r.value ==> ValidItem(items[k])
  {
    if items == [] then None
    else if !ValidItem(items[0]) then Some(0)
    else match FirstBadItem(items[1..])
      case None => None
      case Some(k) =>
        assert forall j :: 1 <= j < k + 1 ==> items[j] == items[1..][j - 1];
        Some(k + 1)
  }

  /** The error the items value of a request earns, if any. */
  function ItemsError(v: Json): Option<ApiError> {
    if !v.JArray? || |v.elems| == 0 then Some(ItemsNotNonEmptyArray)
    else match FirstBadItem(v.elems)
      case None => None
      case Some(k) => Some(BadItem(k, ItemFaultOf(v.elems[k]).value))
  }

  /** The item checks of `create_order` and `update_order`, one item after the other. */
  method ValidateItems(v: Json) returns (err: Option<ApiError>)
    ensures err == ItemsError(v)
  {
    if !v.JArray? || |v.elems| == 0 {
      return Some(ItemsNotNonEmptyArray);
    }
    var items := v.elems;
    for idx := 0 to |items|
      invariant forall j :: 0 <= j < idx ==> ValidItem(items[j])
    {
      var item := items[idx];
      if !item.JObject? {
        return Some(BadItem(idx, NotAnObject));
      }
      if !("name" in item.fields && "amount" in item.fields && "quantity" in item.fields) {
        return Some(BadItem(idx, MissingItemFields));
      }
      if ToFloat(item.fields["amount"]).None? || ToInt(item.fields["quantity"]).None? {
        return Some(BadItem(idx, InvalidNumber));
      }
    }
    return None;
  }

  /** Whether a request's items value passes every check. */
  lemma ItemsAccepted(v: Json)
    ensures ItemsError(v).None? <==> v.JArray? && |v.elems| > 0 && forall k :: 0 <= k < |v.elems| ==> ValidItem(v.elems[k])
  {
  }

  /** The item a valid item object becomes. */
  function ToOrderItem(item: Json): OrderItem
    requires ValidItem(item)
  {
    OrderItem(item.fields["name"], ToFloat(item.fields["amount"]).value, ToInt(item.fields["quantity"]).value)
  }

  /** The items a valid items array becomes, in the same order. */
  function ItemsOf(items: seq<Json>): (r: seq<OrderItem>)
    requires forall k :: 0 <= k < |items| ==> ValidItem(items[k])
    ensures |r| == |items|
  {
    seq(|items|, k requires 0 <= k < |items| => ToOrderItem(items[k]))
  }

  /** The loop that turns each item of the request into an `OrderItem` row. */
  method BuildItems(items: seq<Json>) returns (r: seq<OrderItem>)
    requires forall k :: 0 <= k < |items| ==> ValidItem(items[k])
    ensures r == ItemsOf(items)
  {
    r := [];
    for k := 0 to |items|
      invariant r == ItemsOf(items[..k])
    {
      assert items[..k + 1][..k] == items[..k];
      r := r + [ToOrderItem(items[k])];
    }
    assert items[..|items|] == items;
  }

  /** What `create_order` rejects, in the order it checks. */
  function CreateError(data: map<string, Json>): Option<ApiError> {
    if data == map[] then Some(NotJson)
    else match FirstMissing(data, RequiredFields)
      case Some(f) => Some(MissingField(f))
      case None => assert RequiredFields[7] == "items"; ItemsError(data["items"])
  }

  /** `create_order` accepts exactly the non-empty bodies with every required key and a valid items array. */
  lemma CreateAccepted(data: map<string, Json>)
    ensures CreateError(data).None? <==>
      data != map[] && "name" in data && "email" in data && "phone_number" in data && "street" in data &&
      "city" in data && "state" in data && "country" in data && "items" in data &&
      ItemsError(data["items"]).None?
  {
    var r := RequiredFields;
    assert r[0] == "name" && r[1] == "email" && r[2] == "phone_number" && r[3] == "street";
    assert r[4] == "city" && r[5] == "state" && r[6] == "country" && r[7] == "items";
  }

  /** What `update_order` rejects once the order is found and pending. */
  function UpdateError(data: map<string, Json>): Option<ApiError> {
    if data == map[] then Some(NotJson)
    else if "items" in data then ItemsError(data["items"])
    else None
  }
}
