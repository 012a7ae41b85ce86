/**
  The gateway's named operations (`singleCheck`, `checkStatus`, ...): each
  maps its typed arguments to a table of request fields, a remote method
  name and the ordered list of result keys, and hands them to one of the
  two dispatchers. Here each operation is a value of `Operation` and
  `Build` is the table.
 */
module Operations {
  import opened PhpArrays
  import opened Delimited
  import opened Dispatch

  /** The customer on a draft. */
  datatype Payer = Payer(name: string, email: string, phone: string, phoneExt: string)

  datatype PostalAddress = PostalAddress(
    address1: string, address2: string, city: string, state: string, zip: string, country: string)

  datatype BankAccount = BankAccount(routing: string, account: string, bankName: string)

  /** The check itself; an empty check number lets the API pick one. */
  datatype Draft = Draft(memo: string, amount: string, date: string, checkNumber: string)

  datatype Recurrence = Recurrence(recurType: string, offset: string, payments: string)

  /** The payer and item of an invoice. */
  datatype InvoiceParty = InvoiceParty(payorName: string, email: string, itemName: string, itemDescription: string)

  datatype Operation =
    | SingleCheck(payer: Payer, address: PostalAddress, bank: BankAccount, draft: Draft, realtime: bool)
    | RecurringCheck(payer: Payer, address: PostalAddress, bank: BankAccount, draft: Draft,
                     recurrence: Recurrence, realtime: bool)
    | SingleCheckWithSignature(payer: Payer, address: PostalAddress, bank: BankAccount, draft: Draft,
                               image: string)
    | RecurringCheckWithSignature(payer: Payer, address: PostalAddress, bank: BankAccount, draft: Draft,
                                  image: string, recurrence: Recurrence)
    | CheckStatus(checkId: string)
    | CancelCheck(checkId: string)
    | RefundCheck(checkId: string, memo: string, amount: string)
    | CheckNote(checkId: string, note: string)
    | UploadCheckSignature(checkId: string, image: string)
    | VerificationResult(checkId: string)
    | OverrideVerification(checkId: string)
    | SingleBillpay(name: string, address: PostalAddress, bank: BankAccount, draft: Draft)
    | SingleBillpayWithoutBank(name: string, address: PostalAddress, draft: Draft)
    | RecurringBillpay(name: string, address: PostalAddress, bank: BankAccount, draft: Draft,
                       recurrence: Recurrence)
    | SingleInvoice(party: InvoiceParty, amount: string, date: string)
    | RecurringInvoice(party: InvoiceParty, amount: string, date: string, recurrence: Recurrence)
    | CombinationInvoice(party: InvoiceParty, initAmount: string, initDate: string,
                         recurAmount: string, recurDate: string, recurrence: Recurrence)
    | InvoiceStatus(invoiceId: string)

  datatype Transport = Post | Soap

  /** One dispatcher call: which dispatcher, the remote method, the request
      array literal as written (its pairs, in order) and the result keys. */
  datatype Call = Call(transport: Transport, name: string, pairs: seq<(string, string)>, resultKeys: seq<string>)
  {
    /** The request array the literal evaluates to. */
    function Options(): PhpArray
    {
      FromPairs(pairs)
    }
  }

  const NOTE_LIMIT := 2000

  /** `checkNote` cuts a note longer than 2000 bytes down to its first 2000. */
  function TruncateNote(note: string): (r: string)
    ensures |r| == if |note| > NOTE_LIMIT then NOTE_LIMIT else |note|
    ensures r == note[..|r|]
    ensures |note| <= NOTE_LIMIT ==> r == note
  {
    if |note| > NOTE_LIMIT then note[..NOTE_LIMIT] else note
  }

  function PayerPairs(p: Payer): (ps: seq<(string, string)>)
    ensures PairKeys(ps) == PAYER_FIELDS
  {
    [("Name", p.name), ("EmailAddress", p.email), ("Phone", p.phone), ("PhoneExtension", p.phoneExt)]
  }

  function AddressPairs(a: PostalAddress): (ps: seq<(string, string)>)
    ensures PairKeys(ps) == ADDRESS_FIELDS
  {
    [("Address1", a.address1), ("Address2", a.address2), ("City", a.city),
     ("State", a.state), ("Zip", a.zip), ("Country", a.country)]
  }

  function BankPairs(b: BankAccount): (ps: seq<(string, string)>)
    ensures PairKeys(ps) == BANK_FIELDS
  {
    [("RoutingNumber", b.routing), ("AccountNumber", b.account), ("BankName", b.bankName)]
  }

  function DraftPairs(d: Draft): (ps: seq<(string, string)>)
    ensures PairKeys(ps) == DRAFT_FIELDS
  {
    [("CheckMemo", d.memo), ("CheckAmount", d.amount), ("CheckDate", d.date), ("CheckNumber", d.checkNumber)]
  }

  function RecurrencePairs(r: Recurrence): (ps: seq<(string, string)>)
    ensures PairKeys(ps) == RECURRENCE_FIELDS
  {
    [("RecurringType", r.recurType), ("RecurringOffset", r.offset), ("RecurringPayments", r.payments)]
  }

  function InvoicePartyPairs(p: InvoiceParty): (ps: seq<(string, string)>)
    ensures PairKeys(ps) == INVOICE_PARTY_FIELDS
  {
    [("CustomerName", p.payorName), ("EmailAddress", p.email),
     ("ItemName", p.itemName), ("ItemDescription", p.itemDescription)]
  }

  /** A bill-pay check names its payee only. */
  function PayeePairs(name: string): (ps: seq<(string, string)>)
    ensures PairKeys(ps) == PAYEE_FIELDS
  {
    [("Name", name)]
  }

  function PaymentPairs(amount: string, date: string): (ps: seq<(string, string)>)
    ensures PairKeys(ps) == PAYMENT_FIELDS
  {
    [("Amount", amount), ("PaymentDate", date)]
  }

  function CombinedPaymentPairs(initAmount: string, initDate: string, recurAmount: string, recurDate: string)
    : (ps: seq<(string, string)>)
    ensures PairKeys(ps) == COMBINED_PAYMENT_FIELDS
  {
    [("InitialAmount", initAmount), ("InitialPaymentDate", initDate),
     ("RecurringAmount", recurAmount), ("RecurringPaymentDate", recurDate)]
  }

  /** The operation-specific request fields, before the two delimiter fields. */
  function Fields(op: Operation): seq<(string, string)>
  {
    match op
    case SingleCheck(p, a, b, d, _) =>
      PayerPairs(p) + AddressPairs(a) + BankPairs(b) + DraftPairs(d)
    case RecurringCheck(p, a, b, d, r, _) =>
      PayerPairs(p) + AddressPairs(a) + BankPairs(b) + DraftPairs(d) + RecurrencePairs(r)
    case SingleCheckWithSignature(p, a, b, d, image) =>
      PayerPairs(p) + AddressPairs(a) + BankPairs(b) + DraftPairs(d) + [("ImageData", image)]
    case RecurringCheckWithSignature(p, a, b, d, image, r) =>
      PayerPairs(p) + AddressPairs(a) + BankPairs(b) + DraftPairs(d) + [("ImageData", image)] + RecurrencePairs(r)
    case CheckStatus(id) => [("Check_ID", id)]
    case CancelCheck(id) => [("Check_ID", id)]
    case RefundCheck(id, memo, amount) => [("Check_ID", id), ("RefundMemo", memo), ("RefundAmount", amount)]
    case CheckNote(id, note) => [("Check_ID", id), ("Note", TruncateNote(note))]
    case UploadCheckSignature(id, image) => [("Check_ID", id), ("ImageData", image)]
    case VerificationResult(id) => [("Check_ID", id)]
    case OverrideVerification(id) => [("Check_ID", id)]
    case SingleBillpay(name, a, b, d) => PayeePairs(name) + AddressPairs(a) + BankPairs(b) + DraftPairs(d)
    case SingleBillpayWithoutBank(name, a, d) => PayeePairs(name) + AddressPairs(a) + DraftPairs(d)
    case RecurringBillpay(name, a, b, d, r) =>
      PayeePairs(name) + AddressPairs(a) + BankPairs(b) + DraftPairs(d) + RecurrencePairs(r)
    case SingleInvoice(p, amount, date) =>
      InvoicePartyPairs(p) + PaymentPairs(amount, date)
    case RecurringInvoice(p, amount, date, r) =>
      InvoicePartyPairs(p) + PaymentPairs(amount, date) + RecurrencePairs(r)
    case CombinationInvoice(p, initAmount, initDate, recurAmount, recurDate, r) =>
      InvoicePartyPairs(p) + CombinedPaymentPairs(initAmount, initDate, recurAmount, recurDate) + RecurrencePairs(r)
    case InvoiceStatus(id) => [("Invoice_ID", id)]
  }

  /** The remote method; the two draft operations choose real-time or batch verification. */
  function MethodName(op: Operation): (name: string)
    ensures op.SingleCheck? ==> (name == "OneTimeDraftRTV" <==> op.realtime) && (name == "OneTimeDraftBV" <==> !op.realtime)
    ensures op.RecurringCheck? ==> (name == "RecurringDraftRTV" <==> op.realtime) && (name == "RecurringDraftBV" <==> !op.realtime)
  {
    match op
    case SingleCheck(_, _, _, _, realtime) => if realtime then "OneTimeDraftRTV" else "OneTimeDraftBV"
    case RecurringCheck(_, _, _, _, _, realtime) => if realtime then "RecurringDraftRTV" else "RecurringDraftBV"
    case SingleCheckWithSignature(_, _, _, _, _) => "OneTimeDraftWithSignatureImage"
    case RecurringCheckWithSignature(_, _, _, _, _, _) => "RecurringDraftWithSignatureImage"
    case CheckStatus(_) => "CheckStatus"
    case CancelCheck(_) => "CancelCheck"
    case RefundCheck(_, _, _) => "RefundCheck"
    case CheckNote(_, _) => "CheckNote"
    case UploadCheckSignature(_, _) => "UploadSignatureImage"
    case VerificationResult(_) => "VerificationResult"
    case OverrideVerification(_) => "VerificationOverride"
    case SingleBillpay(_, _, _, _) => "BillPayCheck"
    case SingleBillpayWithoutBank(_, _, _) => "BillPayCheckNoBankInfo"
    case RecurringBillpay(_, _, _, _, _) => "RecurringBillPayCheck"
    case SingleInvoice(_, _, _) => "OneTimeInvoice"
    case RecurringInvoice(_, _, _, _) => "RecurringInvoice"
    case CombinationInvoice(_, _, _, _, _, _) => "CombinationInvoice"
    case InvoiceStatus(_) => "InvoiceStatus"
  }

  /** The three operations that carry a signature image use SOAP: the two
      drafts with a signature and the signature upload. */
  function TransportOf(op: Operation): Transport
  {
    if op.SingleCheckWithSignature? || op.RecurringCheckWithSignature? || op.UploadCheckSignature? then Soap
    else Post
  }

  const DRAFT_KEYS := ["Result", "ResultDescription", "VerifyResult", "VerifyResultDescription", "CheckNumber", "Check_ID"]
  const STATUS_KEYS := ["Result", "ResultDescription", "VerifyResult", "VerifyResultDescription",
                        "VerifyOverridden", "Deleted", "DeletedDate", "Processed", "ProcessedDate",
                        "Rejected", "RejectedDate", "CheckNumber", "Check_ID"]
  const RESULT_KEYS := ["Result", "ResultDescription"]
  const REFUND_KEYS := ["Result", "ResultDescription", "RefundCheckNumber", "RefundCheck_ID"]
  const BILLPAY_KEYS := ["Result", "ResultDescription", "CheckNumber", "Check_ID"]
  const INVOICE_KEYS := ["Result", "ResultDescription", "PaymentResult", "PaymentResultDescription", "Invoice_ID", "Check_ID"]

  /** The result keys, in the API's documented order; the SOAP operations pass none. */
  function ResultKeys(op: Operation): seq<string>
  {
    match op
    case SingleCheck(_, _, _, _, _) => DRAFT_KEYS
    case RecurringCheck(_, _, _, _, _, _) => DRAFT_KEYS
    case SingleCheckWithSignature(_, _, _, _, _) => []
    case RecurringCheckWithSignature(_, _, _, _, _, _) => []
    case CheckStatus(_) => STATUS_KEYS
    case CancelCheck(_) => RESULT_KEYS
    case RefundCheck(_, _, _) => REFUND_KEYS
    case CheckNote(_, _) => RESULT_KEYS
    case UploadCheckSignature(_, _) => []
    case VerificationResult(_) => DRAFT_KEYS
    case OverrideVerification(_) => DRAFT_KEYS
    case SingleBillpay(_, _, _, _) => BILLPAY_KEYS
    case SingleBillpayWithoutBank(_, _, _) => BILLPAY_KEYS
    case RecurringBillpay(_, _, _, _, _) => BILLPAY_KEYS
    case SingleInvoice(_, _, _) => INVOICE_KEYS
    case RecurringInvoice(_, _, _, _) => INVOICE_KEYS
    case CombinationInvoice(_, _, _, _, _, _) => INVOICE_KEYS
    case InvoiceStatus(_) => INVOICE_KEYS
  }

  /** `'x_delim_data' => ($delim) ? "TRUE" : "", 'x_delim_char' => $delim_char`. */
  function DelimPairs(delim: bool, delimChar: string): (ps: seq<(string, string)>)
    ensures PairKeys(ps) == DELIM_FIELDS
  {
    [(X_DELIM_DATA, if delim then "TRUE" else ""), (X_DELIM_CHAR, delimChar)]
  }

  /** `checkNote`'s two delimiter entries as written: both under `x_delim_char`. */
  function CheckNoteDelimPairs(delim: bool, delimChar: string): seq<(string, string)>
  {
    [(X_DELIM_CHAR, if delim then "TRUE" else ""), (X_DELIM_CHAR, delimChar)]
  }

  /** Two delimiter fields written last, after any other fields, carry the
      caller's `$delim` and delimiter to the dispatcher. */
  lemma {:induction false} DelimPairsReachDispatcher(f: seq<(string, string)>, delim: bool, delimChar: string)
    ensures Get(FromPairs(f + DelimPairs(delim, delimChar)), X_DELIM_DATA) == Str(if delim then "TRUE" else "")
    ensures Get(FromPairs(f + DelimPairs(delim, delimChar)), X_DELIM_CHAR) == Str(delimChar)
    ensures WantsDelimited(FromPairs(f + DelimPairs(delim, delimChar))) == delim
  {
    var d := DelimPairs(delim, delimChar);
    assert f + d == (f + [d[0]]) + [d[1]];
    FromPairsSnoc(f + [d[0]], d[1]);
    FromPairsSnoc(f, d[0]);
  }

  /** The request literal `checkNote` writes: its two fields, then both
      delimiter entries under `x_delim_char`. */
  function CheckNoteLiteral(checkId: string, note: string, delim: bool, delimChar: string): seq<(string, string)>
  {
    Fields(CheckNote(checkId, note)) + CheckNoteDelimPairs(delim, delimChar)
  }

  /** `checkNote` as written: the duplicate `x_delim_char` key leaves the
      array with three keys and no `x_delim_data` at all; `x_delim_char`
      holds the caller's delimiter, and the caller's `$delim` is lost. */
  lemma CheckNoteDropsDelimFlag(checkId: string, note: string, delim: bool, delimChar: string)
    ensures Keys(FromPairs(CheckNoteLiteral(checkId, note, delim, delimChar))) == ["Check_ID", "Note", X_DELIM_CHAR]
    ensures Get(FromPairs(CheckNoteLiteral(checkId, note, delim, delimChar)), "Check_ID") == Str(checkId)
    ensures Get(FromPairs(CheckNoteLiteral(checkId, note, delim, delimChar)), "Note") == Str(TruncateNote(note))
    ensures Get(FromPairs(CheckNoteLiteral(checkId, note, delim, delimChar)), X_DELIM_CHAR) == Str(delimChar)
    ensures Get(FromPairs(CheckNoteLiteral(checkId, note, delim, delimChar)), X_DELIM_DATA) == Null
    ensures !WantsDelimited(FromPairs(CheckNoteLiteral(checkId, note, delim, delimChar)))
  {
    var n := TruncateNote(note);
    var flag := if delim then "TRUE" else "";
    var front := [("Check_ID", checkId), ("Note", n), (X_DELIM_CHAR, flag)];
    var ps := front + [(X_DELIM_CHAR, delimChar)];
    assert CheckNoteLiteral(checkId, note, delim, delimChar) == ps;
    FromPairsDistinct(front);
    var a := FromPairs(front);
    assert a == [Entry("Check_ID", Str(checkId)), Entry("Note", Str(n)), Entry(X_DELIM_CHAR, Str(flag))];
    assert Keys(a) == ["Check_ID", "Note", X_DELIM_CHAR];
    GetAt(a, 0);
    GetAt(a, 1);
    FromPairsSnoc(front, (X_DELIM_CHAR, delimChar));
    FromPairsAbsent(ps, X_DELIM_DATA);
  }

  /** The call each operation makes, as the operations are written: every
      operation passes the caller's delimiter on, and every one but
      `checkNote` passes `$delim` on as well; `checkNote` never sets
      `x_delim_data`. */
  function Build(op: Operation, delim: bool, delimChar: string): (c: Call)
    ensures c.transport == TransportOf(op) && c.name == MethodName(op) && c.resultKeys == ResultKeys(op)
    ensures |c.pairs| == |Fields(op)| + 2 && c.pairs[..|Fields(op)|] == Fields(op)
    ensures Get(c.Options(), X_DELIM_CHAR) == Str(delimChar)
    ensures !op.CheckNote? ==> Get(c.Options(), X_DELIM_DATA) == Str(if delim then "TRUE" else "")
    ensures !op.CheckNote? ==> WantsDelimited(c.Options()) == delim
    ensures op.CheckNote? ==> Get(c.Options(), X_DELIM_DATA) == Null && !WantsDelimited(c.Options())
  {
    if op.CheckNote? then
      CheckNoteDropsDelimFlag(op.checkId, op.note, delim, delimChar);
      Call(TransportOf(op), MethodName(op), CheckNoteLiteral(op.checkId, op.note, delim, delimChar), ResultKeys(op))
    else
      DelimPairsReachDispatcher(Fields(op), delim, delimChar);
      Call(TransportOf(op), MethodName(op), Fields(op) + DelimPairs(delim, delimChar), ResultKeys(op))
  }

  /** The call `checkNote` evidently meant to make: its delimiter flag
      under `x_delim_data`, like every other operation. With it, every
      operation passes the caller's `$delim` and delimiter on. */
  function BuildIntended(op: Operation, delim: bool, delimChar: string): (c: Call)
    ensures c.transport == TransportOf(op) && c.name == MethodName(op) && c.resultKeys == ResultKeys(op)
    ensures |c.pairs| == |Fields(op)| + 2 && c.pairs[..|Fields(op)|] == Fields(op)
    ensures c.pairs[|Fields(op)|..] == DelimPairs(delim, delimChar)
    ensures Get(c.Options(), X_DELIM_DATA) == Str(if delim then "TRUE" else "")
    ensures Get(c.Options(), X_DELIM_CHAR) == Str(delimChar)
    ensures WantsDelimited(c.Options()) == delim
  {
    DelimPairsReachDispatcher(Fields(op), delim, delimChar);
    Call(TransportOf(op), MethodName(op), Fields(op) + DelimPairs(delim, delimChar), ResultKeys(op))
  }

  /** Every operation other than `checkNote` makes the intended call. */
  lemma BuildIsIntendedExceptCheckNote(op: Operation, delim: bool, delimChar: string)
    ensures !op.CheckNote? <==> Build(op, delim, delimChar) == BuildIntended(op, delim, delimChar)
  {
    if op.CheckNote? {
      assert Build(op, delim, delimChar).pairs[|Fields(op)|].0 == X_DELIM_CHAR;
      assert BuildIntended(op, delim, delimChar).pairs[|Fields(op)|].0 == X_DELIM_DATA;
    }
  }

  /** The intended `checkNote` honours `$delim`: with it set, the POST
      dispatcher would return the raw string. */
  lemma CheckNoteIntendedHonoursDelim(checkId: string, note: string, delimChar: string)
    ensures WantsDelimited(BuildIntended(CheckNote(checkId, note), true, delimChar).Options())
    ensures !WantsDelimited(Build(CheckNote(checkId, note), true, delimChar).Options())
  {
  }

  /** Every operation's result-key list is free of repeats, so a parsed
      result holds exactly those keys, in that order. */
  lemma ResultKeysDistinct(op: Operation)
    ensures Distinct(ResultKeys(op))
    ensures |ResultKeys(op)| == match TransportOf(op)
                                case Soap => 0
                                case Post => if op.CheckStatus? then 13 else if op.CancelCheck? || op.CheckNote? then 2
                                             else if op.RefundCheck? || op.SingleBillpay? || op.SingleBillpayWithoutBank?
                                                     || op.RecurringBillpay? then 4
                                             else 6
  {
  }

  const CREDENTIAL_FIELDS := [CLIENT_ID, API_PASSWORD]
  const PAYER_FIELDS := ["Name", "EmailAddress", "Phone", "PhoneExtension"]
  const ADDRESS_FIELDS := ["Address1", "Address2", "City", "State", "Zip", "Country"]
  const BANK_FIELDS := ["RoutingNumber", "AccountNumber", "BankName"]
  const DRAFT_FIELDS := ["CheckMemo", "CheckAmount", "CheckDate", "CheckNumber"]
  const RECURRENCE_FIELDS := ["RecurringType", "RecurringOffset", "RecurringPayments"]
  const INVOICE_PARTY_FIELDS := ["CustomerName", "EmailAddress", "ItemName", "ItemDescription"]
  const PAYEE_FIELDS := ["Name"]
  const PAYMENT_FIELDS := ["Amount", "PaymentDate"]
  const COMBINED_PAYMENT_FIELDS := ["InitialAmount", "InitialPaymentDate", "RecurringAmount", "RecurringPaymentDate"]
  const IMAGE_FIELDS := ["ImageData"]
  const DELIM_FIELDS := [X_DELIM_DATA, X_DELIM_CHAR]

  /** The API field names each operation sends before the delimiter fields,
      in the order the wrapper writes them. This is the key column of
      `Fields`, written as joins of the group constants so that the
      repeat-freedom proofs work group by group rather than name by name. */
  function FieldKeys(op: Operation): seq<string>
  {
    match op
    case SingleCheck(_, _, _, _, _) => PAYER_FIELDS + ADDRESS_FIELDS + BANK_FIELDS + DRAFT_FIELDS
    case RecurringCheck(_, _, _, _, _, _) => PAYER_FIELDS + ADDRESS_FIELDS + BANK_FIELDS + DRAFT_FIELDS + RECURRENCE_FIELDS
    case SingleCheckWithSignature(_, _, _, _, _) => PAYER_FIELDS + ADDRESS_FIELDS + BANK_FIELDS + DRAFT_FIELDS + IMAGE_FIELDS
    case RecurringCheckWithSignature(_, _, _, _, _, _) =>
      PAYER_FIELDS + ADDRESS_FIELDS + BANK_FIELDS + DRAFT_FIELDS + IMAGE_FIELDS + RECURRENCE_FIELDS
    case CheckStatus(_) => ["Check_ID"]
    case CancelCheck(_) => ["Check_ID"]
    case RefundCheck(_, _, _) => ["Check_ID", "RefundMemo", "RefundAmount"]
    case CheckNote(_, _) => ["Check_ID", "Note"]
    case UploadCheckSignature(_, _) => ["Check_ID", "ImageData"]
    case VerificationResult(_) => ["Check_ID"]
    case OverrideVerification(_) => ["Check_ID"]
    case SingleBillpay(_, _, _, _) => PAYEE_FIELDS + ADDRESS_FIELDS + BANK_FIELDS + DRAFT_FIELDS
    case SingleBillpayWithoutBank(_, _, _) => PAYEE_FIELDS + ADDRESS_FIELDS + DRAFT_FIELDS
    case RecurringBillpay(_, _, _, _, _) => PAYEE_FIELDS + ADDRESS_FIELDS + BANK_FIELDS + DRAFT_FIELDS + RECURRENCE_FIELDS
    case SingleInvoice(_, _, _) => INVOICE_PARTY_FIELDS + PAYMENT_FIELDS
    case RecurringInvoice(_, _, _, _) => INVOICE_PARTY_FIELDS + PAYMENT_FIELDS + RECURRENCE_FIELDS
    case CombinationInvoice(_, _, _, _, _, _) => INVOICE_PARTY_FIELDS + COMBINED_PAYMENT_FIELDS + RECURRENCE_FIELDS
    case InvoiceStatus(_) => ["Invoice_ID"]
  }

  /** Every wrapper writes exactly the field names `FieldKeys` lists for it, in order. */
  lemma FieldsHaveDocumentedKeys(op: Operation)
    ensures PairKeys(Fields(op)) == FieldKeys(op)
  {
    if op.SingleCheck? || op.RecurringCheck? || op.SingleCheckWithSignature? || op.RecurringCheckWithSignature? {
      DraftFieldKeys(op);
    } else if op.SingleBillpay? || op.SingleBillpayWithoutBank? || op.RecurringBillpay? {
      BillpayFieldKeys(op);
    } else if op.SingleInvoice? || op.RecurringInvoice? || op.CombinationInvoice? {
      InvoiceFieldKeys(op);
    }
  }

  lemma DraftFieldKeys(op: Operation)
    requires op.SingleCheck? || op.RecurringCheck? || op.SingleCheckWithSignature? || op.RecurringCheckWithSignature?
    ensures PairKeys(Fields(op)) == FieldKeys(op)
  {
    var core := PayerPairs(op.payer) + AddressPairs(op.address) + BankPairs(op.bank) + DraftPairs(op.draft);
    CheckCoreKeys(op.payer, op.address, op.bank, op.draft);
    match op
    case SingleCheck(_, _, _, _, _) =>
    case RecurringCheck(_, _, _, _, r, _) =>
      PairKeysAppend(core, RecurrencePairs(r));
    case SingleCheckWithSignature(_, _, _, _, image) =>
      PairKeysAppend(core, [("ImageData", image)]);
    case RecurringCheckWithSignature(_, _, _, _, image, r) =>
      PairKeysAppend(core, [("ImageData", image)]);
      PairKeysAppend(core + [("ImageData", image)], RecurrencePairs(r));
  }

  lemma BillpayFieldKeys(op: Operation)
    requires op.SingleBillpay? || op.SingleBillpayWithoutBank? || op.RecurringBillpay?
    ensures PairKeys(Fields(op)) == FieldKeys(op)
  {
    var head := PayeePairs(op.name) + AddressPairs(op.address);
    PairKeysAppend(PayeePairs(op.name), AddressPairs(op.address));
    match op
    case SingleBillpay(_, _, b, d) =>
      PairKeysAppend(head, BankPairs(b));
      PairKeysAppend(head + BankPairs(b), DraftPairs(d));
    case SingleBillpayWithoutBank(_, _, d) =>
      PairKeysAppend(head, DraftPairs(d));
    case RecurringBillpay(_, _, b, d, r) =>
      PairKeysAppend(head, BankPairs(b));
      PairKeysAppend(head + BankPairs(b), DraftPairs(d));
      PairKeysAppend(head + BankPairs(b) + DraftPairs(d), RecurrencePairs(r));
  }

  lemma InvoiceFieldKeys(op: Operation)
    requires op.SingleInvoice? || op.RecurringInvoice? || op.CombinationInvoice?
    ensures PairKeys(Fields(op)) == FieldKeys(op)
  {
    match op
    case SingleInvoice(p, amount, date) =>
      PairKeysAppend(InvoicePartyPairs(p), PaymentPairs(amount, date));
    case RecurringInvoice(p, amount, date, r) =>
      PairKeysAppend(InvoicePartyPairs(p), PaymentPairs(amount, date));
      PairKeysAppend(InvoicePartyPairs(p) + PaymentPairs(amount, date), RecurrencePairs(r));
    case CombinationInvoice(p, initAmount, initDate, recurAmount, recurDate, r) =>
      var amounts := CombinedPaymentPairs(initAmount, initDate, recurAmount, recurDate);
      PairKeysAppend(InvoicePartyPairs(p), amounts);
      PairKeysAppend(InvoicePartyPairs(p) + amounts, RecurrencePairs(r));
  }

  /** Every request's field names, the two delimiter fields included, are
      free of repeats and never a credential name, so the dispatcher's
      credentials never overwrite a field. */
  lemma RequestKeysDistinct(op: Operation)
    ensures Distinct(FieldKeys(op) + DELIM_FIELDS)
    ensures Disjoint(FieldKeys(op) + DELIM_FIELDS, CREDENTIAL_FIELDS)
  {
    if op.SingleCheck? || op.RecurringCheck? || op.SingleCheckWithSignature? || op.RecurringCheckWithSignature? {
      DraftKeysDistinct(op);
    } else if op.SingleBillpay? || op.SingleBillpayWithoutBank? || op.RecurringBillpay? {
      BillpayKeysDistinct(op);
    } else if op.SingleInvoice? || op.RecurringInvoice? || op.CombinationInvoice? {
      InvoiceKeysDistinct(op);
    }
  }

  lemma GroupsDistinct()
    ensures Distinct(PAYER_FIELDS) && Distinct(ADDRESS_FIELDS) && Distinct(BANK_FIELDS) && Distinct(DRAFT_FIELDS)
    ensures Distinct(IMAGE_FIELDS) && Distinct(RECURRENCE_FIELDS) && Distinct(PAYEE_FIELDS) && Distinct(DELIM_FIELDS)
    ensures Distinct(INVOICE_PARTY_FIELDS) && Distinct(PAYMENT_FIELDS) && Distinct(COMBINED_PAYMENT_FIELDS)
  {
  }

  lemma CredentialsDisjoint()
    ensures Disjoint(PAYER_FIELDS, CREDENTIAL_FIELDS) && Disjoint(ADDRESS_FIELDS, CREDENTIAL_FIELDS)
    ensures Disjoint(BANK_FIELDS, CREDENTIAL_FIELDS) && Disjoint(DRAFT_FIELDS, CREDENTIAL_FIELDS)
    ensures Disjoint(IMAGE_FIELDS, CREDENTIAL_FIELDS) && Disjoint(RECURRENCE_FIELDS, CREDENTIAL_FIELDS)
    ensures Disjoint(PAYEE_FIELDS, CREDENTIAL_FIELDS) && Disjoint(DELIM_FIELDS, CREDENTIAL_FIELDS)
    ensures Disjoint(INVOICE_PARTY_FIELDS, CREDENTIAL_FIELDS) && Disjoint(PAYMENT_FIELDS, CREDENTIAL_FIELDS)
    ensures Disjoint(COMBINED_PAYMENT_FIELDS, CREDENTIAL_FIELDS)
  {
  }

  lemma DraftGroupsDisjoint()
    ensures Disjoint(PAYER_FIELDS, ADDRESS_FIELDS) && Disjoint(PAYER_FIELDS, BANK_FIELDS) && Disjoint(PAYER_FIELDS, DRAFT_FIELDS)
    ensures Disjoint(ADDRESS_FIELDS, BANK_FIELDS) && Disjoint(ADDRESS_FIELDS, DRAFT_FIELDS) && Disjoint(BANK_FIELDS, DRAFT_FIELDS)
  {
  }

  lemma TailGroupsDisjoint()
    ensures Disjoint(PAYER_FIELDS, IMAGE_FIELDS) && Disjoint(PAYER_FIELDS, RECURRENCE_FIELDS) && Disjoint(PAYER_FIELDS, DELIM_FIELDS)
    ensures Disjoint(ADDRESS_FIELDS, IMAGE_FIELDS) && Disjoint(ADDRESS_FIELDS, RECURRENCE_FIELDS) && Disjoint(ADDRESS_FIELDS, DELIM_FIELDS)
    ensures Disjoint(BANK_FIELDS, IMAGE_FIELDS) && Disjoint(BANK_FIELDS, RECURRENCE_FIELDS) && Disjoint(BANK_FIELDS, DELIM_FIELDS)
    ensures Disjoint(DRAFT_FIELDS, IMAGE_FIELDS) && Disjoint(DRAFT_FIELDS, RECURRENCE_FIELDS) && Disjoint(DRAFT_FIELDS, DELIM_FIELDS)
    ensures Disjoint(IMAGE_FIELDS, RECURRENCE_FIELDS) && Disjoint(IMAGE_FIELDS, DELIM_FIELDS) && Disjoint(RECURRENCE_FIELDS, DELIM_FIELDS)
  {
  }

  lemma PayeeGroupsDisjoint()
    ensures Disjoint(PAYEE_FIELDS, ADDRESS_FIELDS) && Disjoint(PAYEE_FIELDS, BANK_FIELDS) && Disjoint(PAYEE_FIELDS, DRAFT_FIELDS)
    ensures Disjoint(PAYEE_FIELDS, RECURRENCE_FIELDS) && Disjoint(PAYEE_FIELDS, DELIM_FIELDS)
  {
  }

  lemma InvoiceGroupsDisjoint()
    ensures Disjoint(INVOICE_PARTY_FIELDS, PAYMENT_FIELDS) && Disjoint(INVOICE_PARTY_FIELDS, COMBINED_PAYMENT_FIELDS)
    ensures Disjoint(INVOICE_PARTY_FIELDS, RECURRENCE_FIELDS) && Disjoint(INVOICE_PARTY_FIELDS, DELIM_FIELDS)
    ensures Disjoint(PAYMENT_FIELDS, RECURRENCE_FIELDS) && Disjoint(PAYMENT_FIELDS, DELIM_FIELDS)
    ensures Disjoint(COMBINED_PAYMENT_FIELDS, RECURRENCE_FIELDS) && Disjoint(COMBINED_PAYMENT_FIELDS, DELIM_FIELDS)
  {
  }

  /** Appending a repeat-free group that shares no name with what precedes it
      nor with the credentials keeps the list repeat-free and credential-free. */
  lemma Extend(a: seq<string>, g: seq<string>)
    requires Distinct(a) && Distinct(g) && Disjoint(a, g)
    requires Disjoint(a, CREDENTIAL_FIELDS) && Disjoint(g, CREDENTIAL_FIELDS)
    ensures Distinct(a + g) && Disjoint(a + g, CREDENTIAL_FIELDS)
  {
    DistinctAppend(a, g);
    DisjointAppend(a, g, CREDENTIAL_FIELDS);
  }

  /** The payer, address, bank and draft groups, joined, against a later group. */
  lemma CheckCoreDisjoint(x: seq<string>)
    requires Disjoint(PAYER_FIELDS, x) && Disjoint(ADDRESS_FIELDS, x) && Disjoint(BANK_FIELDS, x) && Disjoint(DRAFT_FIELDS, x)
    ensures Disjoint(PAYER_FIELDS + ADDRESS_FIELDS + BANK_FIELDS + DRAFT_FIELDS, x)
  {
    DisjointAppend(PAYER_FIELDS, ADDRESS_FIELDS, x);
    DisjointAppend(PAYER_FIELDS + ADDRESS_FIELDS, BANK_FIELDS, x);
    DisjointAppend(PAYER_FIELDS + ADDRESS_FIELDS + BANK_FIELDS, DRAFT_FIELDS, x);
  }

  lemma DraftKeysDistinct(op: Operation)
    requires op.SingleCheck? || op.RecurringCheck? || op.SingleCheckWithSignature? || op.RecurringCheckWithSignature?
    ensures Distinct(FieldKeys(op) + DELIM_FIELDS)
    ensures Disjoint(FieldKeys(op) + DELIM_FIELDS, CREDENTIAL_FIELDS)
  {
    GroupsDistinct();
    CredentialsDisjoint();
    DraftGroupsDisjoint();
    TailGroupsDisjoint();
    var pa := PAYER_FIELDS + ADDRESS_FIELDS;
    Extend(PAYER_FIELDS, ADDRESS_FIELDS);
    DisjointAppend(PAYER_FIELDS, ADDRESS_FIELDS, BANK_FIELDS);
    Extend(pa, BANK_FIELDS);
    DisjointAppend(PAYER_FIELDS, ADDRESS_FIELDS, DRAFT_FIELDS);
    DisjointAppend(pa, BANK_FIELDS, DRAFT_FIELDS);
    Extend(pa + BANK_FIELDS, DRAFT_FIELDS);
    var core := pa + BANK_FIELDS + DRAFT_FIELDS;
    CheckCoreDisjoint(DELIM_FIELDS);
    match op
    case SingleCheck(_, _, _, _, _) =>
      Extend(core, DELIM_FIELDS);
    case RecurringCheck(_, _, _, _, _, _) =>
      CheckCoreDisjoint(RECURRENCE_FIELDS);
      Extend(core, RECURRENCE_FIELDS);
      DisjointAppend(core, RECURRENCE_FIELDS, DELIM_FIELDS);
      Extend(core + RECURRENCE_FIELDS, DELIM_FIELDS);
    case SingleCheckWithSignature(_, _, _, _, _) =>
      CheckCoreDisjoint(IMAGE_FIELDS);
      Extend(core, IMAGE_FIELDS);
      DisjointAppend(core, IMAGE_FIELDS, DELIM_FIELDS);
      Extend(core + IMAGE_FIELDS, DELIM_FIELDS);
    case RecurringCheckWithSignature(_, _, _, _, _, _) =>
      CheckCoreDisjoint(IMAGE_FIELDS);
      CheckCoreDisjoint(RECURRENCE_FIELDS);
      Extend(core, IMAGE_FIELDS);
      DisjointAppend(core, IMAGE_FIELDS, RECURRENCE_FIELDS);
      Extend(core + IMAGE_FIELDS, RECURRENCE_FIELDS);
      DisjointAppend(core, IMAGE_FIELDS, DELIM_FIELDS);
      DisjointAppend(core + IMAGE_FIELDS, RECURRENCE_FIELDS, DELIM_FIELDS);
      Extend(core + IMAGE_FIELDS + RECURRENCE_FIELDS, DELIM_FIELDS);
  }

  lemma BillpayKeysDistinct(op: Operation)
    requires op.SingleBillpay? || op.SingleBillpayWithoutBank? || op.RecurringBillpay?
    ensures Distinct(FieldKeys(op) + DELIM_FIELDS)
    ensures Disjoint(FieldKeys(op) + DELIM_FIELDS, CREDENTIAL_FIELDS)
  {
    GroupsDistinct();
    CredentialsDisjoint();
    DraftGroupsDisjoint();
    TailGroupsDisjoint();
    PayeeGroupsDisjoint();
    var head := PAYEE_FIELDS + ADDRESS_FIELDS;
    Extend(PAYEE_FIELDS, ADDRESS_FIELDS);
    DisjointAppend(PAYEE_FIELDS, ADDRESS_FIELDS, BANK_FIELDS);
    DisjointAppend(PAYEE_FIELDS, ADDRESS_FIELDS, DRAFT_FIELDS);
    DisjointAppend(PAYEE_FIELDS, ADDRESS_FIELDS, RECURRENCE_FIELDS);
    DisjointAppend(PAYEE_FIELDS, ADDRESS_FIELDS, DELIM_FIELDS);
    match op
    case SingleBillpayWithoutBank(_, _, _) =>
      Extend(head, DRAFT_FIELDS);
      DisjointAppend(head, DRAFT_FIELDS, DELIM_FIELDS);
      Extend(head + DRAFT_FIELDS, DELIM_FIELDS);
    case SingleBillpay(_, _, _, _) =>
      Extend(head, BANK_FIELDS);
      DisjointAppend(head, BANK_FIELDS, DRAFT_FIELDS);
      Extend(head + BANK_FIELDS, DRAFT_FIELDS);
      DisjointAppend(head, BANK_FIELDS, DELIM_FIELDS);
      DisjointAppend(head + BANK_FIELDS, DRAFT_FIELDS, DELIM_FIELDS);
      Extend(head + BANK_FIELDS + DRAFT_FIELDS, DELIM_FIELDS);
    case RecurringBillpay(_, _, _, _, _) =>
      Extend(head, BANK_FIELDS);
      DisjointAppend(head, BANK_FIELDS, DRAFT_FIELDS);
      Extend(head + BANK_FIELDS, DRAFT_FIELDS);
      var body := head + BANK_FIELDS + DRAFT_FIELDS;
      DisjointAppend(head, BANK_FIELDS, RECURRENCE_FIELDS);
      DisjointAppend(head + BANK_FIELDS, DRAFT_FIELDS, RECURRENCE_FIELDS);
      Extend(body, RECURRENCE_FIELDS);
      DisjointAppend(head, BANK_FIELDS, DELIM_FIELDS);
      DisjointAppend(head + BANK_FIELDS, DRAFT_FIELDS, DELIM_FIELDS);
      DisjointAppend(body, RECURRENCE_FIELDS, DELIM_FIELDS);
      Extend(body + RECURRENCE_FIELDS, DELIM_FIELDS);
  }

  lemma InvoiceKeysDistinct(op: Operation)
    requires op.SingleInvoice? || op.RecurringInvoice? || op.CombinationInvoice?
    ensures Distinct(FieldKeys(op) + DELIM_FIELDS)
    ensures Disjoint(FieldKeys(op) + DELIM_FIELDS, CREDENTIAL_FIELDS)
  {
    GroupsDistinct();
    CredentialsDisjoint();
    TailGroupsDisjoint();
    InvoiceGroupsDisjoint();
    var party := INVOICE_PARTY_FIELDS;
    var amounts := if op.CombinationInvoice? then COMBINED_PAYMENT_FIELDS else PAYMENT_FIELDS;
    Extend(party, amounts);
    DisjointAppend(party, amounts, RECURRENCE_FIELDS);
    DisjointAppend(party, amounts, DELIM_FIELDS);
    if op.SingleInvoice? {
      Extend(party + amounts, DELIM_FIELDS);
    } else {
      Extend(party + amounts, RECURRENCE_FIELDS);
      DisjointAppend(party + amounts, RECURRENCE_FIELDS, DELIM_FIELDS);
      Extend(party + amounts + RECURRENCE_FIELDS, DELIM_FIELDS);
    }
  }

  /** Every operation but `checkNote` builds an array holding each of its
      fields and the two delimiter fields once, in written order, with the
      caller's values. */
  lemma FieldsReachRequest(op: Operation, delim: bool, delimChar: string)
    requires !op.CheckNote?
    ensures var c := Build(op, delim, delimChar);
      c.Options() == Entries(c.pairs) && WellFormed(c.Options())
    ensures Disjoint(Keys(Build(op, delim, delimChar).Options()), CREDENTIAL_FIELDS)
  {
    var ps := Build(op, delim, delimChar).pairs;
    RequestPairKeys(op, delim, delimChar);
    RequestKeysDistinct(op);
    DistinctPairsEntries(ps);
  }

  /** The field names a request other than `checkNote`'s is written with. */
  lemma RequestPairKeys(op: Operation, delim: bool, delimChar: string)
    requires !op.CheckNote?
    ensures PairKeys(Build(op, delim, delimChar).pairs) == FieldKeys(op) + DELIM_FIELDS
  {
    var f, d := Fields(op), DelimPairs(delim, delimChar);
    assert Build(op, delim, delimChar).pairs == f + d;
    FieldsHaveDocumentedKeys(op);
    PairKeysAppend(f, d);
  }

  /** The request every operation sends, through either dispatcher (`delimData`
      is the dispatcher's own `x_delim_data`: `"TRUE"` for POST, `""` for
      SOAP): each field the wrapper writes, with the caller's value, and the
      configured credentials, which no field overwrites. */
  lemma FieldsSent(op: Operation, delim: bool, delimChar: string, clientId: string, apiPass: string, delimData: string)
    ensures var sent := SentOptions(Build(op, delim, delimChar).Options(), clientId, apiPass, delimData);
      && (forall i :: 0 <= i < |Fields(op)| ==> Get(sent, Fields(op)[i].0) == Str(Fields(op)[i].1))
      && Get(sent, CLIENT_ID) == Str(clientId)
      && Get(sent, API_PASSWORD) == Str(apiPass)
  {
    var options := Build(op, delim, delimChar).Options();
    if op.CheckNote? {
      CheckNoteDropsDelimFlag(op.checkId, op.note, delim, delimChar);
      assert Keys(options) == ["Check_ID", "Note", X_DELIM_CHAR];
      GetAbsent(options, CLIENT_ID);
      GetAbsent(options, API_PASSWORD);
    } else {
      FieldsInRequest(op, delim, delimChar);
    }
  }

  /** `FieldsSent` for every operation but `checkNote`: the built array holds
      each field's value and no credential. */
  lemma FieldsInRequest(op: Operation, delim: bool, delimChar: string)
    requires !op.CheckNote?
    ensures var options := Build(op, delim, delimChar).Options();
      && (forall i :: 0 <= i < |Fields(op)| ==>
            Get(options, Fields(op)[i].0) == Str(Fields(op)[i].1) && Fields(op)[i].0 !in {CLIENT_ID, API_PASSWORD, X_DELIM_DATA})
      && Get(options, CLIENT_ID) == Null && Get(options, API_PASSWORD) == Null
  {
    var c := Build(op, delim, delimChar);
    var options := c.Options();
    var f := Fields(op);
    FieldsReachRequest(op, delim, delimChar);
    var ks := Keys(options);
    assert ks[|ks| - 2] == X_DELIM_DATA;
    forall i | 0 <= i < |f|
      ensures Get(options, f[i].0) == Str(f[i].1)
      ensures f[i].0 !in {CLIENT_ID, API_PASSWORD, X_DELIM_DATA}
    {
      assert c.pairs[i] == f[i];
      assert ks[i] == f[i].0 && CREDENTIAL_FIELDS[0] == CLIENT_ID && CREDENTIAL_FIELDS[1] == API_PASSWORD;
      GetAt(options, i);
    }
    assert CLIENT_ID !in ks by {
      assert CREDENTIAL_FIELDS[0] == CLIENT_ID;
    }
    assert API_PASSWORD !in ks by {
      assert CREDENTIAL_FIELDS[1] == API_PASSWORD;
    }
    GetAbsent(options, CLIENT_ID);
    GetAbsent(options, API_PASSWORD);
  }

  /** The payer, address, bank and draft fields the four check drafts share. */
  lemma CheckCoreKeys(p: Payer, a: PostalAddress, b: BankAccount, d: Draft)
    ensures PairKeys(PayerPairs(p) + AddressPairs(a) + BankPairs(b) + DraftPairs(d))
         == PAYER_FIELDS + ADDRESS_FIELDS + BANK_FIELDS + DRAFT_FIELDS
  {
    PairKeysAppend(PayerPairs(p), AddressPairs(a));
    PairKeysAppend(PayerPairs(p) + AddressPairs(a), BankPairs(b));
    PairKeysAppend(PayerPairs(p) + AddressPairs(a) + BankPairs(b), DraftPairs(d));
  }

  /** For every POST operation whose caller did not ask for the raw string,
      a successful transfer yields the array with exactly the operation's
      documented keys, in order, key i holding the i-th token of the
      response split on the caller's delimiter. */
  lemma ParsedResultHasDocumentedKeys(op: Operation, delimChar: string, body: string)
    requires TransportOf(op) == Post && |delimChar| > 0
    ensures var options := Build(op, false, delimChar).Options();
      ParsedAs(PostResponse(WantsDelimited(options), Get(options, X_DELIM_CHAR), ResultKeys(op), CurlSuccess(body)),
               ResultKeys(op), Split(body, delimChar))
  {
    ResultKeysDistinct(op);
    PostResponseMeaning(false, Str(delimChar), ResultKeys(op), CurlSuccess(body));
  }

  /** For every POST operation but `checkNote`, when the caller asks for the
      raw string, a successful transfer hands back the response body
      untouched. */
  lemma DelimitedResultIsBody(op: Operation, delimChar: string, body: string)
    requires TransportOf(op) == Post && !op.CheckNote?
    ensures var options := Build(op, true, delimChar).Options();
      && WantsDelimited(options)
      && PostResponse(WantsDelimited(options), Get(options, X_DELIM_CHAR), ResultKeys(op), CurlSuccess(body)) == Raw(body)
  {
  }

  /** `checkNote` as written parses a successful reply into its two result
      keys even when the caller asked for the raw string. */
  lemma CheckNoteResultIsParsed(checkId: string, note: string, delim: bool, delimChar: string, body: string)
    requires |delimChar| > 0
    ensures var options := Build(CheckNote(checkId, note), delim, delimChar).Options();
      ParsedAs(PostResponse(WantsDelimited(options), Get(options, X_DELIM_CHAR), RESULT_KEYS, CurlSuccess(body)),
               RESULT_KEYS, Split(body, delimChar))
  {
    ResultKeysDistinct(CheckNote(checkId, note));
    PostResponseMeaning(false, Str(delimChar), RESULT_KEYS, CurlSuccess(body));
  }

  /** A status query asking for the parsed array: the request carries the
      caller's credentials, the check id, the forced delimited flag and the
      delimiter, and the dispatcher will parse the reply. */
  lemma CheckStatusRequest(checkId: string, delimChar: string, clientId: string, apiPass: string)
    ensures var options := Build(CheckStatus(checkId), false, delimChar).Options();
      var sent := SentOptions(options, clientId, apiPass, POST_DELIM_DATA);
      && !WantsDelimited(options)
      && Get(options, X_DELIM_CHAR) == Str(delimChar)
      && Get(sent, CLIENT_ID) == Str(clientId)
      && Get(sent, API_PASSWORD) == Str(apiPass)
      && Get(sent, "Check_ID") == Str(checkId)
      && Get(sent, X_DELIM_DATA) == Str("TRUE")
      && Get(sent, X_DELIM_CHAR) == Str(delimChar)
  {
    var ps := Build(CheckStatus(checkId), false, delimChar).pairs;
    assert ps == [("Check_ID", checkId), (X_DELIM_DATA, ""), (X_DELIM_CHAR, delimChar)];
    FromPairsDistinct(ps);
    var options := FromPairs(ps);
    GetAt(options, 0);
    GetAt(options, 1);
    GetAt(options, 2);
    assert Keys(options) == ["Check_ID", X_DELIM_DATA, X_DELIM_CHAR];
    GetAbsent(options, CLIENT_ID);
    GetAbsent(options, API_PASSWORD);
    assert "Check_ID" !in {CLIENT_ID, API_PASSWORD, X_DELIM_DATA};
    PreparedOptionsKeepDelimiter(options, clientId, apiPass, POST_DELIM_DATA);
  }

  /** Any successful, non-delimited status reply is parsed into the
      thirteen status keys, in order, key i holding the i-th token. */
  lemma StatusReplyParsed(reply: string)
    ensures ParsedAs(PostResponse(false, Str(","), STATUS_KEYS, CurlSuccess(reply)), STATUS_KEYS, Split(reply, ","))
  {
    ResultKeysDistinct(CheckStatus(""));
    PostResponseMeaning(false, Str(","), STATUS_KEYS, CurlSuccess(reply));
  }

  /** A status reply of only six tokens fills the first six keys, up to
      Deleted, and leaves the other seven, Check_ID among them, null. */
  lemma ShortStatusReply(fields: PhpArray, tokens: seq<string>)
    requires |tokens| == 6
    requires ParsedAs(Parsed(fields), STATUS_KEYS, tokens)
    ensures fields[0] == Entry("Result", Str(tokens[0]))
    ensures fields[1] == Entry("ResultDescription", Str(tokens[1]))
    ensures fields[2] == Entry("VerifyResult", Str(tokens[2]))
    ensures fields[3] == Entry("VerifyResultDescription", Str(tokens[3]))
    ensures fields[4] == Entry("VerifyOverridden", Str(tokens[4]))
    ensures fields[5] == Entry("Deleted", Str(tokens[5]))
    ensures forall i :: 6 <= i < |fields| ==> fields[i].value == Null
    ensures fields[12] == Entry("Check_ID", Null)
  {
  }

  /** The reply "0,OK,1,Verified,,1005" to that query: the result code and
      verification fields are filled in, "1005" lands under Deleted, and
      Check_ID is null. */
  lemma CheckStatusReply()
    ensures var r := PostResponse(false, Str(","), STATUS_KEYS, CurlSuccess("0,OK,1,Verified,,1005"));
      && ParsedAs(r, STATUS_KEYS, ["0", "OK", "1", "Verified", "", "1005"])
      && r.fields[0] == Entry("Result", Str("0"))
      && r.fields[3] == Entry("VerifyResultDescription", Str("Verified"))
      && r.fields[4] == Entry("VerifyOverridden", Str(""))
      && r.fields[5] == Entry("Deleted", Str("1005"))
      && r.fields[12] == Entry("Check_ID", Null)
  {
    var reply, tokens := "0,OK,1,Verified,,1005", ["0", "OK", "1", "Verified", "", "1005"];
    StatusReplyTokens();
    StatusReplyParsed(reply);
    ShortStatusReply(PostResponse(false, Str(","), STATUS_KEYS, CurlSuccess(reply)).fields, tokens);
  }

  /** The reply of the status example splits into its six tokens. */
  lemma StatusReplyTokens()
    ensures Split("0,OK,1,Verified,,1005", ",") == ["0", "OK", "1", "Verified", "", "1005"]
  {
    var t5 := ["1005"];
    var t4 := [""] + t5;
    var t3 := ["Verified"] + t4;
    var t2 := ["1"] + t3;
    var t1 := ["OK"] + t2;
    var tokens := ["0"] + t1;
    JoinCons("", t5, ",");
    JoinCons("Verified", t4, ",");
    JoinCons("1", t3, ",");
    JoinCons("OK", t2, ",");
    JoinCons("0", t1, ",");
    assert [','] == ",";
    assert Join(tokens, ",") == "0,OK,1,Verified,,1005";
    assert tokens == ["0", "OK", "1", "Verified", "", "1005"];
    SplitJoin(tokens, ',');
  }
}
