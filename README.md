# Order backend: lifecycle, validation, codes and notifications

This project models the core of a small order backend (`app.py`). Customers create
purchase orders and may edit them while they are `pending`. They then upload a proof of
payment, which moves the order once and for all to `successful`. That upload triggers two
e-mail notifications, one to the customer and one to the administrator.

The model is split by concern:

- `OrderStore.Store` is a class over the `order` table, held as a map from id to `Order`, with the next id.
  - Its three methods are the three endpoints that change the table: create, update, and upload the payment proof.
  - Each returns `Ok`, `BadRequest`, `NotFound` or `Forbidden`.
  - Each states its whole new state.
  - Each keeps the table invariant: ids below the next id, well-formed orders, and no two orders sharing a reference code or a payment code.
- `Validation` models the request checks in app.py's order: the JSON body, the required keys, the items array, and each item.
  - The first failure is reported with app.py's error message.
- `PyNumbers` models the `float()` and `int()` conversions that decide whether an item's amount and quantity are acceptable.
- `Codes` models the two retry loops that draw a reference code `ORD-YYYYMMDD-XXXX` and a six-character payment code.
  - Each loop keeps drawing until the code is unused.
  - A counting argument shows that a free payment code exists while fewer than 36^6 are in use, and a free reference code on any date while fewer than 36^4 are in use.
- `Uploads` models `allowed_file`.
- `Orders` models the `Order` and `OrderItem` records and the order total.
- `Notifications` models the two notification functions.
  - Mail delivery is an oracle `mail: Notice -> bool`.
  - Only the data a notice carries is modelled, not its rendered text.

The clock, `random.choices` and `secure_filename` are parameters:

- the date of each reference-code attempt;
- the sequence of random draws;
- the upload timestamp;
- the sanitised file name.

The administrator address is a parameter too.

The terminal status is `successful`, as app.py:603 writes it.

## Model

| member | source | states |
|---|---|---|
| Uploads.AllowedFile | app.py:104-105 | true exactly when the name has a dot and the lower-cased text after its last dot is one of png, jpg, jpeg, gif, pdf |
| Uploads.Lower | app.py:105 | lower-casing keeps the length and maps each character through the ASCII upper-to-lower mapping |
| Uploads.LastIndexOf | app.py:105 | the position of the last occurrence of a character, and none exactly when the character is absent; this is the split point of `rsplit('.', 1)` |
| Uploads.LastDotUnique | app.py:105 | a name has at most one last dot |
| Uploads.AllowedAtLastDot | app.py:105 | deciding on the last dot found decides the existential characterization |
| Uploads.UpperCaseExtensionAllowed | app.py:104-105 | "x.PDF" and "scan.JpEg" pass |
| Uploads.LastExtensionDecides | app.py:104-105 | "a.b.jpg" passes and "x.pdf.exe" fails: only the last extension counts |
| Uploads.DotRequired | app.py:104-105 | "pdf" fails for want of a dot, and ".gif" passes |
| Codes.ReferenceCode | app.py:114 | the code is "ORD-", the date, "-" and the suffix, each readable back at fixed offsets; with an 8-digit date and a 4-character suffix it is a well-formed 17-character reference code |
| Codes.GenerateOrderCode | app.py:108-118 | returns a well-formed reference code that is not in use, and it is the code of the first attempt whose code is not in use |
| Codes.GeneratePaymentCode | app.py:121-129 | returns a six-character code over A-Z0-9 that is not in use, and it is the first draw not in use |
| Codes.FirstFreeSingleAttempt | app.py:108-118 | with one attempt, the code chosen is that attempt's code |
| Codes.FirstFreeSingleDraw | app.py:121-129 | with one draw, the code chosen is that draw |
| Codes.CodeOf | app.py:125 | the base-36 spelling of a number with n characters is a code of length n over the alphabet |
| Codes.CodeValueOfCodeOf | app.py:125 | reading a base-36 code back gives the number it spells |
| Codes.NumberedValues | app.py:125 | every code numbered below m reads back as a number below m |
| Codes.NumberedSize | app.py:125 | the codes numbered below m are m distinct codes |
| Codes.NumberedAreCodes | app.py:125 | every numbered code is a well-formed code |
| Codes.FreeCodeExists | app.py:121-129 | while fewer than 36^n codes are in use, an unused code of length n exists, so the payment-code loop can end |
| Codes.SuffixesSize | app.py:113-114 | the stored codes have no more distinct four-character suffixes than there are stored codes |
| Codes.OnDate | app.py:113-114 | the stored codes of reference-code length whose eight characters after "ORD-" are the given date |
| Codes.FreeReferenceCodeExists | app.py:108-118 | on any 8-digit date, while fewer than 36^4 stored codes carry that date, some four-character suffix gives a reference code not in use, so the reference-code loop can end |
| Orders.StatusText | app.py:56 | the stored text is "pending" exactly for `Pending` and "successful" exactly for `Successful` |
| Orders.WithContact | app.py:522 | `setattr` sets the named contact field only, and leaves codes, status, proof and items alone |
| Orders.ContactFieldsAreContacts | app.py:519 | the updateable fields are exactly the seven contact and address fields |
| Orders.ApplyContactFieldsEffect | app.py:519-522 | after the loop, each listed contact field the request carries holds the request's value and every other field is unchanged |
| Orders.SetContactFields | app.py:519-522 | the in-place update loop over the seven fields yields the order the specification function describes |
| Orders.Total | app.py:140-144 | the sum, over the items in order, of amount times quantity; 0 for no items |
| Orders.TotalAppend | app.py:142-144 | the total of two runs of items is the sum of their totals |
| Orders.TotalSwap | app.py:142-144 | exchanging two adjacent items leaves the total unchanged |
| Orders.TotalNonNegative | app.py:142-144 | with non-negative amounts and quantities the total is non-negative |
| Orders.TotalExample | app.py:142-144 | 10.50 x 3 plus 5.00 x 2 totals 41.50 |
| Notifications.OrderTotal | app.py:140-144 | the accumulation loop returns the sum of amount times quantity over the items |
| Notifications.SendCustomerEmail | app.py:132-252 | the customer's notice, with the order's e-mail, codes, total and proof file, goes to the transport, and the transport's verdict is returned |
| Notifications.SendAdminEmail | app.py:255-414 | false when no administrator address is set or it is empty; otherwise the transport's verdict on the administrator's notice |
| Validation.FirstMissing | app.py:432-435 | none exactly when every listed key is present; otherwise the first listed key that is absent, with every key before it present |
| Validation.Message | app.py:429-592 | the `error` text of each rejection, spelt as app.py's literals and f-strings spell it, the index of a bad item in decimal |
| Validation.CheckRequiredFields | app.py:432-435 | the loop reports the first of name, email, phone_number, street, city, state, country, items that the body lacks |
| Validation.FirstBadItem | app.py:443-452 | none exactly when every item passes; otherwise the least index of an item that fails |
| Validation.ItemFaultOf | app.py:444-452 | the first fault of one item in app.py's order: not an object; then a missing `name`, `amount` or `quantity` key; then an amount `float()` refuses or a quantity `int()` refuses; none when all three checks pass |
| Validation.ItemsError | app.py:439-452 | "Items must be a non-empty array" for a non-list or an empty list; otherwise the bad-item error naming the first failing index and its fault; none when every item passes |
| Validation.ValidateItems | app.py:438-452 | the loop rejects a non-list or empty items value, else reports the first failing item with its reason |
| Validation.ItemsAccepted | app.py:439-452 | the items value is accepted exactly when it is a non-empty list whose every element passes the item checks |
| Validation.FaultText | app.py:445-452 | each item fault's message part begins with a space after the index |
| Validation.DigitsThenSpace | app.py:445-452 | a digit string followed by a text starting with a space splits one way only |
| Validation.MessageIdentifiesItem | app.py:443-452 | two item error messages are equal only for the same index and the same fault |
| Validation.CreateAccepted | app.py:426-452 | the body is accepted exactly when it is non-empty, carries all eight required keys, and its items pass |
| Validation.CreateError | app.py:428-452 | the first rejection of `create_order`: an empty body is not JSON; then the first of the eight required keys that is missing, in order; then the items error |
| Validation.UpdateError | app.py:515-540 | the rejection of `update_order` for a found, pending order: an empty body is not JSON; then the items error, only when the body carries `items`; none otherwise |
| Validation.ItemsOf | app.py:476-483 | there is one stored item per request item |
| Validation.BuildItems | app.py:476-483 | the loop builds the items in input order, each from the request's name and the converted amount and quantity |
| PyNumbers.LeadingSpaces | app.py:449-450 | counts the prefix that `int()` and `float()` skip, exactly: all of it whitespace to them (ASCII tab, newline, vertical tab, form feed, carriage return, space, or non-ASCII whitespace), followed by another character or the end |
| PyNumbers.TrailingSpaces | app.py:449-450 | counts the skipped suffix exactly, with the same whitespace |
| PyNumbers.Strip | app.py:449-450 | what `int()` and `float()` parse is a slice of the input with only their whitespace around it and none at either end |
| PyNumbers.StripTrimmed | app.py:449-450 | a text without whitespace at its ends is what is parsed, whatever whitespace surrounds it |
| PyNumbers.IndexOf | app.py:449 | the first occurrence of a character, and none exactly when it is absent |
| PyNumbers.ExponentMarker | app.py:449 | none exactly when the text has neither `e` nor `E`; otherwise the position of the first of them |
| PyNumbers.ParseIntText | app.py:450 | `int()` of a str: numeric whitespace stripped, an optional sign, then ASCII digits with single underscores only between digits and at most 4300 digits, read in base 10; none for anything else |
| PyNumbers.ParseFloatText | app.py:449 | `float()` of a str with a finite value: numeric whitespace stripped, an optional sign, digits with at most one point and digits on at least one side of it, then optionally `e` or `E` and a signed integer exponent, read as its exact value; none for anything else |
| PyNumbers.ToFloat | app.py:449 | `float()` of a decoded JSON value: true is 1.0 and false 0.0, integers and floats keep their value, strings go through ParseFloatText; null, lists and objects are refused, as Python raises `TypeError` |
| PyNumbers.ToInt | app.py:450 | `int()` of a decoded JSON value: true is 1 and false 0, integers keep their value, floats are truncated toward zero, strings go through ParseIntText; null, lists and objects are refused |
| PyNumbers.TruncateTowardZero | app.py:450 | `int()` of a float truncates toward zero: the result lies within one of the value, on the side of zero |
| PyNumbers.NatToString | app.py:445 | an index is rendered as a non-empty string of decimal digits |
| PyNumbers.DigitsValueOfNatToString | app.py:445 | reading back the rendering of an index gives the index |
| PyNumbers.DigitCountOfDigits | app.py:449 | a string of digits has as many digits as characters |
| PyNumbers.StripUnpadded | app.py:449-450 | stripping a string with no whitespace at its ends changes nothing |
| PyNumbers.ParseIntOfNatToString | app.py:450 | `int()` of a decimal numeral gives its number when it has at most 4300 digits, and fails otherwise |
| PyNumbers.ParseFloatOfNatToString | app.py:449 | `float()` of a decimal numeral gives its number |
| PyNumbers.TrailingPointAccepted | app.py:449 | `float("1.")` is 1 |
| PyNumbers.LeadingPointAccepted | app.py:449 | `float(".5")` is 0.5 |
| PyNumbers.UnderscoreExponentAccepted | app.py:449 | `float("1e1_0")` is 10^10: an exponent may have an underscore between digits |
| PyNumbers.PaddedNumeralAccepted | app.py:449-450 | `int(" 12 ")` is 12 and `float(" 12 ")` is 12 |
| PyNumbers.NoBreakSpaceSkipped | app.py:450 | `int("\u00a012")` is 12: non-ASCII whitespace is skipped |
| PyNumbers.FractionRefusedByInt | app.py:450-452 | `int("1.5")` fails, so such a quantity is an invalid item |
| PyNumbers.DoubledUnderscoreRefused | app.py:450-452 | `int("1__0")` fails |
| PyNumbers.LeadingUnderscoreRefused | app.py:450-452 | `int("_1")` fails |
| PyNumbers.LonePointRefused | app.py:449-452 | `float(".")` fails |
| PyNumbers.BareExponentRefused | app.py:449-452 | `float("1e")` fails |
| PyNumbers.FileSeparatorRefused | app.py:449-452 | `int("\x1c1")` and `float("\x1c1")` both fail: U+001C is not skipped |
| OrderStore.UpdatedOrderEffect | app.py:518-554 | an accepted update sets exactly the contact fields the request carries, replaces the whole item list when items are given, and never changes the codes, the status or the proof |
| OrderStore.NewOrder | app.py:459-483 | the order `create_order` stores: the seven contact fields of the body, the two generated codes, status pending, no proof, and the items built from the request |
| OrderStore.UpdatedOrder | app.py:518-554 | the order `update_order` commits: each contact field the body carries set in the listed order, then the item list replaced by the request's items when it carries them |
| OrderStore.Finalized | app.py:600-603 | storing a proof sets the status to successful and records the stored file name |
| OrderStore.UploadError | app.py:584-592 | the file checks in order: no file part, then an empty file name, then a name `allowed_file` refuses; none when the file passes |
| OrderStore.EmailsOutcome | app.py:607-617 | the customer flag is the transport's verdict on the customer notice; the admin flag is false without an administrator address and otherwise the transport's verdict on the admin notice |
| OrderStore.InsertKeepsInvariant | app.py:454-485 | inserting a well-formed order with unused codes under the next id keeps ids, well-formedness and both unique constraints |
| OrderStore.StoredProofName | app.py:595-597 | the stored name is the timestamp, an underscore and the sanitised name, each readable back |
| OrderStore.ReplaceKeepsInvariant | app.py:54-55 | replacing an order by a well-formed one with the same codes keeps the invariant |
| OrderStore.Store.constructor | app.py:37 | the store starts empty and valid, with next id 1 |
| OrderStore.Store.CreateOrder | app.py:417-494 | a rejected body stores nothing and reports the first failure in app.py's order; an accepted one adds exactly one pending order without proof, under the next id, with the first unused reference and payment codes, the body's contact fields and its items in order, leaving every other order unchanged |
| OrderStore.Store.UpdateOrder | app.py:497-563 | NotFound for an unknown id; Forbidden for an order that is not pending; a rejected body commits nothing, even when it changed contact fields before the items failed; otherwise exactly the updated order is committed |
| OrderStore.Store.UploadPaymentProof | app.py:566-622 | NotFound for an unknown id; Forbidden for an order already successful; a missing file, empty name or disallowed extension changes nothing; otherwise the order becomes successful with proof "timestamp_name", and the two notification outcomes are reported without affecting the result |
| OrderStore.ExampleBookAccepted | app.py:437-452 | one book at 12.00 passes the item checks and becomes one stored item |
| OrderStore.ExampleRequestAccepted | app.py:426-470 | a complete example body is accepted and becomes a pending order with its contact fields and one item |
| OrderStore.ReceiptNameAllowed | app.py:104-105 | "receipt.png" passes the extension check |
| OrderStore.PlaceExampleOrder | app.py:454-485 | in an empty table, the example order is created pending with the given draws as its codes |
| OrderStore.OrderLifecycle | app.py:417-622 | a created order is stored with status text "pending" and the drawn codes and total 12.00; the first upload finalizes it, status text "successful", with the timestamped name; a second upload and a later update are both rejected with Forbidden, whatever the mail transport does |

## Left out

- Flask routing, CORS, the health endpoint and `__main__` are framework plumbing. The model's inputs are the decoded request parts.
- A request body that is valid JSON but not an object (a list, a number, `true`) is not modelled. The body is a map from keys to JSON values, and `not data` is the empty map.
- SQLAlchemy sessions, flush, commit, rollback and cascades become one atomic map update per method. The 500 path that rolls back on an unexpected exception is left out.
- The column types and `nullable=False` are not enforced. For example, a `null` name stored by an update would fail at commit in the database, but it is accepted by the model.
- `created_at` and `updated_at` are not modelled, because they come from the clock.
- `to_dict` and the item row ids are not modelled. They only render stored data.
- `secure_filename` is a parameter, with its result taken as given. `datetime.now()` is a parameter too: a date per attempt and an upload timestamp.
- `file.save` and the upload folder are not modelled. These are I/O.
- Codes.GenerateOrderCode: the loop at app.py:110-118 is unbounded, with termination only probabilistic. The model takes a finite sequence of attempts and requires that one of them is unused. `Codes.FreeReferenceCodeExists` shows that on any date such a suffix exists while fewer than 36^4 stored codes carry that date.
- Codes.GeneratePaymentCode: takes a finite sequence of draws, for the same reason. `Codes.FreeCodeExists` shows such a draw exists while fewer than 36^6 payment codes are in use.
- PyNumbers.ParseFloatText: `float()` also accepts "inf", "nan" and "infinity", and non-ASCII decimal digits such as "١٢". The model refuses those strings, so an item with such an amount is reported invalid where app.py accepts it.
- PyNumbers.ParseFloatText: a string too large for a double, such as "1e400", becomes infinity in `float()`; the model gives the exact value.
- PyNumbers.ParseIntText: `int()` also accepts non-ASCII decimal digits, such as `int("١٢") == 12`. The model refuses them, so such a quantity is reported invalid where app.py accepts it.
- PyNumbers.ParseIntOfNatToString: the limit of 4300 digits is CPython's default from 3.11 and from the 3.10.7, 3.9.14, 3.8.14 and 3.7.14 security releases on. Releases before those have no limit, and the limit can be changed at run time; the model fixes it at 4300.
- PyNumbers.ToFloat: `float()` of a JSON integer too large for a double, such as 1 followed by 400 zeros, raises `OverflowError`. That escapes the `except (ValueError, TypeError)` at app.py:451, so app.py:492-494 answers 500. The model has no 500 response and accepts such an amount.
- PyNumbers.ToInt: Python's `json` decoder accepts `NaN`, `Infinity` and `-Infinity`, which `JFloat(real)` cannot express. `"quantity": NaN` makes `int()` raise `ValueError`, a 400 invalid item. `"quantity": Infinity` makes it raise `OverflowError`, a 500. So does any number beyond the double range, such as `1e400`, which the decoder turns into `inf`: `"quantity": 1e400` is a 500 in app.py, while the model accepts `JFloat` of that value. `JFloat` holds exact reals, and only those that are doubles are values the decoder can produce. None of these cases is modelled.
- Amounts, and quantities that arrive as JSON floats, are exact `real` values, not binary floating point. The `:.2f` rendering of totals and prices is not modelled.
- The logging to standard output in both send functions (app.py:135-251 and app.py:260-413) is not modelled. It is output only and does not change any result.
- Validation.Message: `ALLOWED_EXTENSIONS` is a Python set, so the order of the extensions in the invalid-file-type text depends on string hashing. The model fixes it as png, jpg, jpeg, gif, pdf.
- The text and HTML bodies of both e-mails are not modelled. A `Notice` carries the recipient, subject, codes, total and proof file name.
- Reading the attachment (`os.path.exists`, `open`) is not modelled. The notice names the proof file instead.
- `flask_mail`'s transport, and any exception it raises, are the `mail` oracle's answer.
- Validation.Message: the list of allowed extensions in the invalid-file message is written in one fixed order. Python's set iteration order is not fixed.
- Uploads.Lower: lower-cases ASCII letters only. Python's `lower()` maps just two other characters to text with an ASCII letter: U+212A becomes `k`, and U+0130 becomes `i` plus a combining dot. Neither can complete an allowed extension, so the extension check gives the same verdict.
- Concurrent requests and the check-then-act race between code generation and insertion are not modelled. The model is sequential.
- Amounts may be negative and quantities zero or negative: app.py:443-452 checks only presence and convertibility.
