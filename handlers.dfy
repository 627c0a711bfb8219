/**
 * The request validators of cmd/api/handlers/models.go. Each validator starts from an
 * empty validation.Errors and runs a fixed sequence of field checks, each of which may
 * Add one FieldError; the transaction type and the status must lie in a fixed set,
 * compared after strings.ToLower.
 */
module Handlers {
  import opened Wrappers
  import opened Bytes
  import opened Validation

  const AllowedTransactionTypes: set<string> := {"deposit", "withdrawal"}
  const AllowedTransactionStatuses: set<string> := {"pending", "success", "failed"}

  /** The fields each validator checks, in the order it checks them. */
  const TransactionFields: seq<string> := ["amount", "currency", "payment_method", "customer_id", "type"]
  const UpdateStatusFields: seq<string> := ["ref_id", "gateway", "status"]
  const CallbackFields: seq<string> := ["ref_id", "status"]

  // ---------------------------------------------------------------------------
  // Go's view of strings
  // ---------------------------------------------------------------------------

  /** Bytes of a rune in UTF-8. */
  function RuneLen(c: char): (n: nat)
    ensures 1 <= n <= 4
    ensures n == 1 <==> (c as int) < 0x80
  {
    if (c as int) < 0x80 then 1
    else if (c as int) < 0x800 then 2
    else if (c as int) < 0x10000 then 3
    else 4
  }

  /** `len(s)` of a Go string: the length of its UTF-8 encoding. */
  function Utf8Len(s: string): (n: nat)
    ensures |s| <= n <= 4 * |s|
  {
    if s == [] then 0 else Utf8Len(s[..|s| - 1]) + RuneLen(s[|s| - 1])
  }

  /** A string of ASCII characters only. */
  predicate Ascii(s: string) {
    forall i :: 0 <= i < |s| ==> (s[i] as int) < 0x80
  }

  /** For ASCII text the byte length is the character count. */
  lemma {:induction false} AsciiUtf8Len(s: string)
    requires Ascii(s)
    ensures Utf8Len(s) == |s|
  {
    if s != [] {
      assert Ascii(s[..|s| - 1]) by {
        assert forall i :: 0 <= i < |s| - 1 ==> s[..|s| - 1][i] == s[i];
      }
      AsciiUtf8Len(s[..|s| - 1]);
    }
  }

  /**
   * unicode.ToLower as far as the set membership tests can observe it: ASCII capitals,
   * and the two non-ASCII runes whose lower case is ASCII (U+0130, capital I with dot
   * above, lowers to 'i'; U+212A, the Kelvin sign, to 'k'). Every other rune is kept;
   * Go may lower it to another non-ASCII rune, which no allowed word contains either.
   */
  function LowerRune(c: char): (l: char)
    ensures ((l as int) < 0x80) <==> ((c as int) < 0x80 || c == '\U{0130}' || c == '\U{212A}')
    ensures 'a' <= c <= 'z' ==> l == c
  {
    if 'A' <= c <= 'Z' then (c as int + 32) as char
    else if c == '\U{0130}' then 'i'
    else if c == '\U{212A}' then 'k'
    else c
  }

  /** strings.ToLower, rune by rune. */
  function Lower(s: string): (l: string)
    ensures |l| == |s|
    ensures forall i :: 0 <= i < |s| ==> l[i] == LowerRune(s[i])
  {
    seq(|s|, i requires 0 <= i < |s| => LowerRune(s[i]))
  }

  /** ASCII upper case, to state that the membership tests ignore case. */
  function Upper(s: string): (u: string)
    ensures |u| == |s|
  {
    seq(|s|, i requires 0 <= i < |s| => if 'a' <= s[i] <= 'z' then (s[i] as int - 32) as char else s[i])
  }

  /** Lower case forgets ASCII case: a word and its upper-case form lower alike. */
  lemma LowerForgetsCase(s: string)
    ensures Lower(Upper(s)) == Lower(s)
  {
    var u := Upper(s);
    forall i | 0 <= i < |s| ensures LowerRune(u[i]) == LowerRune(s[i]) {
      if 'a' <= s[i] <= 'z' {
        assert u[i] == (s[i] as int - 32) as char;
      }
    }
  }

  // ---------------------------------------------------------------------------
  // What each validator adds
  // ---------------------------------------------------------------------------

  /** A check that adds `message` for `field` when it fails. */
  function Check(failed: bool, field: string, message: string): seq<FieldError> {
    if failed then [FieldError(field, message)] else []
  }

  /** The two-branch check of a field that must name a member of `allowed`. */
  function OneOf(field: string, value: string, allowed: set<string>, invalid: string): seq<FieldError> {
    if value == "" then [FieldError(field, "cannot be empty")]
    else if Lower(value) !in allowed then [FieldError(field, invalid)]
    else []
  }

  /** The status rule shared by the update request and both callbacks. */
  function StatusErrors(status: string): seq<FieldError> {
    OneOf("status", status, AllowedTransactionStatuses, "not valid transaction status")
  }

  /** transactionApiRequest; `metadata` None is a nil json.RawMessage. */
  datatype TransactionApiRequest = TransactionApiRequest(
    amount: real,
    transactionType: string,
    currency: string,
    paymentMethod: string,
    description: string,
    customerID: string,
    preferredGateway: string,
    metadata: Option<Bytes>)
  {
    /** validate(): the errors of TransactionErrors, added one check at a time. */
    method Validate() returns (errors: Errors)
      ensures fresh(errors)
      ensures errors.errors == TransactionErrors(this)
    {
      errors := new Errors();
      if amount <= 0.0 {
        errors.Add("amount", "must be greater than 0");
      }
      ghost var added := Check(amount <= 0.0, "amount", "must be greater than 0");
      assert errors.errors == added;
      if Utf8Len(currency) != 3 {
        errors.Add("currency", "must be 3 characters long");
      }
      added := added + Check(Utf8Len(currency) != 3, "currency", "must be 3 characters long");
      assert errors.errors == added;
      if paymentMethod == "" {
        errors.Add("payment_method", "cannot be empty");
      }
      added := added + Check(paymentMethod == "", "payment_method", "cannot be empty");
      assert errors.errors == added;
      if customerID == "" {
        errors.Add("customer_id", "cannot be empty");
      }
      added := added + Check(customerID == "", "customer_id", "cannot be empty");
      assert errors.errors == added;
      if transactionType == "" {
        errors.Add("type", "cannot be empty");
      } else if Lower(transactionType) !in AllowedTransactionTypes {
        errors.Add("type", "not valid transaction type");
      }
    }
  }

  /** updateStatusApiRequest. */
  datatype UpdateStatusApiRequest = UpdateStatusApiRequest(gateway: string, refID: string, status: string)
  {
    method Validate() returns (errors: Errors)
      ensures fresh(errors)
      ensures errors.errors == UpdateStatusErrors(this)
    {
      errors := new Errors();
      if refID == "" {
        errors.Add("ref_id", "cannot be empty");
      }
      if gateway == "" {
        errors.Add("gateway", "cannot be empty");
      }
      if status == "" {
        errors.Add("status", "cannot be empty");
      } else if Lower(status) !in AllowedTransactionStatuses {
        errors.Add("status", "not valid transaction status");
      }
    }
  }

  /** gatewayACallbackRequest (JSON); its timestamp is not validated. */
  datatype GatewayACallbackRequest = GatewayACallbackRequest(refID: string, status: string)
  {
    method Validate() returns (errors: Errors)
      ensures fresh(errors)
      ensures errors.errors == CallbackErrors(refID, status)
    {
      errors := new Errors();
      if refID == "" {
        errors.Add("ref_id", "cannot be empty");
      }
      if status == "" {
        errors.Add("status", "cannot be empty");
      } else if Lower(status) !in AllowedTransactionStatuses {
        errors.Add("status", "not valid transaction status");
      }
    }
  }

  /** gatewayBCallbackRequest (XML); its timestamp is not validated. */
  datatype GatewayBCallbackRequest = GatewayBCallbackRequest(refID: string, status: string)
  {
    method Validate() returns (errors: Errors)
      ensures fresh(errors)
      ensures errors.errors == CallbackErrors(refID, status)
    {
      errors := new Errors();
      if refID == "" {
        errors.Add("ref_id", "cannot be empty");
      }
      if status == "" {
        errors.Add("status", "cannot be empty");
      } else if Lower(status) !in AllowedTransactionStatuses {
        errors.Add("status", "not valid transaction status");
      }
    }
  }

  /** The errors transactionApiRequest.validate collects. */
  function TransactionErrors(d: TransactionApiRequest): seq<FieldError> {
    Check(d.amount <= 0.0, "amount", "must be greater than 0")
    + Check(Utf8Len(d.currency) != 3, "currency", "must be 3 characters long")
    + Check(d.paymentMethod == "", "payment_method", "cannot be empty")
    + Check(d.customerID == "", "customer_id", "cannot be empty")
    + OneOf("type", d.transactionType, AllowedTransactionTypes, "not valid transaction type")
  }

  /** The errors updateStatusApiRequest.validate collects. */
  function UpdateStatusErrors(c: UpdateStatusApiRequest): seq<FieldError> {
    Check(c.refID == "", "ref_id", "cannot be empty")
    + Check(c.gateway == "", "gateway", "cannot be empty")
    + StatusErrors(c.status)
  }

  /** The errors both callback validators collect. */
  function CallbackErrors(refID: string, status: string): seq<FieldError> {
    Check(refID == "", "ref_id", "cannot be empty") + StatusErrors(status)
  }

  // ---------------------------------------------------------------------------
  // Order: errors come in the validator's field order, each field at most once
  // ---------------------------------------------------------------------------

  /** The fields of `errs` appear in `order`, in that order, each position used at most once. */
  predicate Follows(errs: seq<FieldError>, order: seq<string>)
    decreases |order|
  {
    if order == [] then errs == []
    else if errs != [] && errs[0].field == order[0] then Follows(errs[1..], order[1..])
    else Follows(errs, order[1..])
  }

  lemma {:induction false} FollowsNothing(order: seq<string>)
    ensures Follows([], order)
    decreases |order|
  {
    if order != [] {
      FollowsNothing(order[1..]);
    }
  }

  /** Names that `errs` never uses may be put in front of the order. */
  lemma {:induction false} FollowsSkip(errs: seq<FieldError>, skipped: seq<string>, order: seq<string>)
    requires Follows(errs, order)
    requires forall i :: 0 <= i < |errs| ==> errs[i].field !in skipped
    ensures Follows(errs, skipped + order)
    decreases |skipped|
  {
    if skipped == [] {
      assert skipped + order == order;
    } else if errs == [] {
      FollowsNothing(skipped + order);
    } else {
      assert (skipped + order)[1..] == skipped[1..] + order;
      FollowsSkip(errs, skipped[1..], order);
    }
  }

  /** Errors following two orders, one after the other, follow the two orders joined. */
  lemma {:induction false} FollowsConcat(a: seq<FieldError>, o1: seq<string>, b: seq<FieldError>, o2: seq<string>)
    requires Follows(a, o1) && Follows(b, o2)
    requires forall i :: 0 <= i < |b| ==> b[i].field !in o1
    ensures Follows(a + b, o1 + o2)
    decreases |o1|
  {
    if o1 == [] {
      assert a == [] && a + b == b && o1 + o2 == o2;
    } else if a == [] {
      assert a + b == b;
      FollowsSkip(b, o1, o2);
    } else {
      assert (o1 + o2)[1..] == o1[1..] + o2;
      assert (a + b)[0] == a[0];
      if a[0].field == o1[0] {
        assert (a + b)[1..] == a[1..] + b;
        FollowsConcat(a[1..], o1[1..], b, o2);
      } else {
        FollowsConcat(a, o1[1..], b, o2);
      }
    }
  }

  lemma CheckFollows(failed: bool, field: string, message: string)
    ensures Follows(Check(failed, field, message), [field])
  {
  }

  lemma OneOfFollows(field: string, value: string, allowed: set<string>, invalid: string)
    ensures Follows(OneOf(field, value, allowed, invalid), [field])
  {
  }

  /**
   * transactionApiRequest.validate reports amount, currency, payment_method,
   * customer_id and type in that order, each at most once.
   */
  lemma TransactionErrorsInOrder(d: TransactionApiRequest)
    ensures Follows(TransactionErrors(d), TransactionFields)
  {
    var c1 := Check(d.amount <= 0.0, "amount", "must be greater than 0");
    var c2 := Check(Utf8Len(d.currency) != 3, "currency", "must be 3 characters long");
    var c3 := Check(d.paymentMethod == "", "payment_method", "cannot be empty");
    var c4 := Check(d.customerID == "", "customer_id", "cannot be empty");
    var c5 := OneOf("type", d.transactionType, AllowedTransactionTypes, "not valid transaction type");
    CheckFollows(d.amount <= 0.0, "amount", "must be greater than 0");
    CheckFollows(Utf8Len(d.currency) != 3, "currency", "must be 3 characters long");
    CheckFollows(d.paymentMethod == "", "payment_method", "cannot be empty");
    CheckFollows(d.customerID == "", "customer_id", "cannot be empty");
    OneOfFollows("type", d.transactionType, AllowedTransactionTypes, "not valid transaction type");
    FollowsFive(c1, c2, c3, c4, c5, TransactionFields);
  }

  /** Five pieces, each following its own name of a five-name order with no repeats, follow the order. */
  lemma FollowsFive(c1: seq<FieldError>, c2: seq<FieldError>, c3: seq<FieldError>, c4: seq<FieldError>,
                    c5: seq<FieldError>, o: seq<string>)
    requires |o| == 5 && forall i, j :: 0 <= i < j < 5 ==> o[i] != o[j]
    requires Follows(c1, [o[0]]) && Follows(c2, [o[1]]) && Follows(c3, [o[2]])
    requires Follows(c4, [o[3]]) && Follows(c5, [o[4]])
    ensures Follows(c1 + c2 + c3 + c4 + c5, o)
  {
    assert [o[0]] == o[..1];
    FollowsSnoc(c1, o[..1], c2, o[1]);
    assert o[..1] + [o[1]] == o[..2];
    FollowsSnoc(c1 + c2, o[..2], c3, o[2]);
    assert o[..2] + [o[2]] == o[..3];
    FollowsSnoc(c1 + c2 + c3, o[..3], c4, o[3]);
    assert o[..3] + [o[3]] == o[..4];
    FollowsSnoc(c1 + c2 + c3 + c4, o[..4], c5, o[4]);
    assert o[..4] + [o[4]] == o;
  }

  /** A piece about one more name, not used before, extends the order by that name. */
  lemma FollowsSnoc(a: seq<FieldError>, o: seq<string>, b: seq<FieldError>, f: string)
    requires Follows(a, o) && Follows(b, [f]) && f !in o
    ensures Follows(a + b, o + [f])
  {
    if b != [] {
      assert b[0].field == f && b[1..] == [];
    }
    FollowsConcat(a, o, b, [f]);
  }

  /** updateStatusApiRequest.validate reports ref_id, gateway and status in that order, each at most once. */
  lemma UpdateStatusErrorsInOrder(c: UpdateStatusApiRequest)
    ensures Follows(UpdateStatusErrors(c), UpdateStatusFields)
  {
    var c1 := Check(c.refID == "", "ref_id", "cannot be empty");
    var c2 := Check(c.gateway == "", "gateway", "cannot be empty");
    CheckFollows(c.refID == "", "ref_id", "cannot be empty");
    CheckFollows(c.gateway == "", "gateway", "cannot be empty");
    OneOfFollows("status", c.status, AllowedTransactionStatuses, "not valid transaction status");
    FollowsConcat(c1, ["ref_id"], c2, ["gateway"]);
    FollowsConcat(c1 + c2, ["ref_id", "gateway"], StatusErrors(c.status), ["status"]);
  }

  /** The callback validators report ref_id, then status, each at most once. */
  lemma CallbackErrorsInOrder(refID: string, status: string)
    ensures Follows(CallbackErrors(refID, status), CallbackFields)
  {
    CheckFollows(refID == "", "ref_id", "cannot be empty");
    OneOfFollows("status", status, AllowedTransactionStatuses, "not valid transaction status");
    FollowsConcat(Check(refID == "", "ref_id", "cannot be empty"), ["ref_id"], StatusErrors(status), ["status"]);
  }

  // ---------------------------------------------------------------------------
  // Per field: which message, if any, each check records
  // ---------------------------------------------------------------------------

  /**
   * The errors transactionApiRequest.validate records are exactly these: "must be greater
   * than 0" when the amount is not positive, "must be 3 characters long" when the currency
   * is not three bytes long, "cannot be empty" for an empty payment method, customer ID or
   * type, and "not valid transaction type" for a non-empty type whose lower case is neither
   * deposit nor withdrawal.
   */
  lemma TransactionMessages(d: TransactionApiRequest, e: FieldError)
    ensures e in TransactionErrors(d) <==>
      || (e == FieldError("amount", "must be greater than 0") && d.amount <= 0.0)
      || (e == FieldError("currency", "must be 3 characters long") && Utf8Len(d.currency) != 3)
      || (e == FieldError("payment_method", "cannot be empty") && d.paymentMethod == "")
      || (e == FieldError("customer_id", "cannot be empty") && d.customerID == "")
      || (e == FieldError("type", "cannot be empty") && d.transactionType == "")
      || (e == FieldError("type", "not valid transaction type")
            && d.transactionType != "" && Lower(d.transactionType) !in AllowedTransactionTypes)
  {
  }

  /**
   * The errors updateStatusApiRequest.validate records: "cannot be empty" for an empty
   * ref_id, gateway or status, and "not valid transaction status" for a non-empty status
   * whose lower case is none of pending, success, failed.
   */
  lemma UpdateStatusMessages(c: UpdateStatusApiRequest, e: FieldError)
    ensures e in UpdateStatusErrors(c) <==>
      || (e == FieldError("ref_id", "cannot be empty") && c.refID == "")
      || (e == FieldError("gateway", "cannot be empty") && c.gateway == "")
      || (e == FieldError("status", "cannot be empty") && c.status == "")
      || (e == FieldError("status", "not valid transaction status")
            && c.status != "" && Lower(c.status) !in AllowedTransactionStatuses)
  {
  }

  /** The errors of both callback validators: the ref_id and status rules of the update request. */
  lemma CallbackMessages(refID: string, status: string, e: FieldError)
    ensures e in CallbackErrors(refID, status) <==>
      || (e == FieldError("ref_id", "cannot be empty") && refID == "")
      || (e == FieldError("status", "cannot be empty") && status == "")
      || (e == FieldError("status", "not valid transaction status")
            && status != "" && Lower(status) !in AllowedTransactionStatuses)
  {
  }

  // ---------------------------------------------------------------------------
  // Valid exactly when every check passes
  // ---------------------------------------------------------------------------

  /** A transaction request is valid exactly when all five checks pass. */
  lemma TransactionValidIff(d: TransactionApiRequest)
    ensures TransactionErrors(d) == [] <==>
      && d.amount > 0.0 && Utf8Len(d.currency) == 3 && d.paymentMethod != "" && d.customerID != ""
      && d.transactionType != "" && Lower(d.transactionType) in AllowedTransactionTypes
  {
  }

  /** An update request is valid exactly when ref_id and gateway are set and the status is allowed. */
  lemma UpdateStatusValidIff(c: UpdateStatusApiRequest)
    ensures UpdateStatusErrors(c) == [] <==>
      c.refID != "" && c.gateway != "" && c.status != "" && Lower(c.status) in AllowedTransactionStatuses
  {
  }

  /** A callback is valid exactly when ref_id is set and the status is allowed. */
  lemma CallbackValidIff(refID: string, status: string)
    ensures CallbackErrors(refID, status) == [] <==>
      refID != "" && status != "" && Lower(status) in AllowedTransactionStatuses
  {
  }

  /** Type and status are compared without regard to ASCII case. */
  lemma MembershipIgnoresCase(s: string)
    ensures Lower(Upper(s)) in AllowedTransactionTypes <==> Lower(s) in AllowedTransactionTypes
    ensures Lower(Upper(s)) in AllowedTransactionStatuses <==> Lower(s) in AllowedTransactionStatuses
  {
    LowerForgetsCase(s);
  }

  // ---------------------------------------------------------------------------
  // The cases of transaction_test.go
  // ---------------------------------------------------------------------------

  /** "Invalid request": only the amount -100 is set, so all five fields fail, in field order. */
  lemma InvalidTransactionExample()
    ensures TransactionErrors(TransactionApiRequest(-100.0, "", "", "", "", "", "", None))
         == [FieldError("amount", "must be greater than 0"),
             FieldError("currency", "must be 3 characters long"),
             FieldError("payment_method", "cannot be empty"),
             FieldError("customer_id", "cannot be empty"),
             FieldError("type", "cannot be empty")]
  {
  }

  /** "Successful transaction": a deposit of 100 USD is valid. */
  lemma ValidTransactionExample()
    ensures TransactionErrors(TransactionApiRequest(100.0, "deposit", "USD", "card", "", "cust123", "stripe", None)) == []
  {
    AsciiUtf8Len("USD");
    assert Lower("deposit") == "deposit";
  }

  /** "Invalid request" of the update: empty ref_id and gateway, and the status "invalid". */
  lemma InvalidUpdateStatusExample()
    ensures UpdateStatusErrors(UpdateStatusApiRequest("", "", "invalid"))
         == [FieldError("ref_id", "cannot be empty"),
             FieldError("gateway", "cannot be empty"),
             FieldError("status", "not valid transaction status")]
  {
    assert Lower("invalid") == "invalid";
  }

  /** Upper-case and mixed-case words pass; so does U+0130 in place of an I, which Go lowers to 'i'. */
  lemma CaseExamples()
    ensures Lower("DEPOSIT") in AllowedTransactionTypes
    ensures Lower("Pending") in AllowedTransactionStatuses
    ensures Lower("FA\U{0130}LED") in AllowedTransactionStatuses
  {
    assert Lower("DEPOSIT") == "deposit";
    assert Lower("Pending") == "pending";
    assert Lower("FA\U{0130}LED") == "failed";
  }

  /** The currency check counts bytes, not characters: a lone euro sign is three bytes long. */
  lemma CurrencyCountsBytes()
    ensures Utf8Len("\U{20AC}") == 3
    ensures Utf8Len("US\U{20AC}") == 5
  {
    assert "US\U{20AC}"[..2] == "US";
    assert "US"[..1] == "U";
  }
}
