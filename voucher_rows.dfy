/** `build_rows_from_parsed`: one parsed payment-voucher document of unknown
    shape to a list of fixed-width spreadsheet rows.

    The pure functions below are the reference semantics (section lookup
    through fallback chains, one row per item); `BuildRowsFromParsed` is the
    step-by-step procedure of the source, proved equal to `BuildRows`. */
module VoucherRows {
  import opened Wrappers
  import opened PyJson
  import Keys

  /** A spreadsheet row before sanitising: one JSON value per column. */
  type Row = seq<Json>

  /** The column headings, in sheet order. */
  const Columns: seq<string> := [
    "Source PDF",
    "Unique Reference Number",
    "Invoice No.",
    "Invoice Date",
    "Name of the Supplier",
    "Payment to be made in the name of",
    "Purchase Type (Import/Indigenous)",
    "Type of Stock (Asset/Cons./Service)",
    "Subcategory of the stock",
    "Description of the Item (Item Name)",
    "Net Amount",
    "Remarks",
    "Total Amount (INR)",
    "Advance taken (if any) in INR",
    "Less: Penalty Deducted in INR",
    "Net Amount Payable (figure) INR",
    "Net Amount Payable (words) INR",
    "Project No",
    "Project Title",
    "Balance in Project",
    "Overhead Deducted",
    "Source of payment",
    "Head of expense"
  ]

  /** Positions of the columns the properties below talk about. */
  const NetAmountCell := 10
  const RemarksCell := 11
  const PayableFigureCell := 15

  /** Columns filled from the item itself; all others come from the document. */
  predicate IsItemCell(k: int) {
    7 <= k <= 11
  }

  /** The `contents` labels of the rows of a project's item list. */
  const ProjectNoLabel: string := "Project No"
  const ProjectTitleLabel: string := "Project Title"

  const ParseFailedPrefix: string := "PARSE_FAILED: "
  const PreviewLength: nat := 300

  // ---------------------------------------------------------------------------
  // The diagnostic row for text that is not JSON
  // ---------------------------------------------------------------------------

  function NewlinesToSpaces(s: string): (r: string)
    ensures |r| == |s|
    ensures forall i :: 0 <= i < |s| ==> r[i] == (if s[i] == '\n' then ' ' else s[i])
  {
    seq(|s|, i requires 0 <= i < |s| => if s[i] == '\n' then ' ' else s[i])
  }

  /** `text.replace('\n', ' ')[:300]`. */
  function Preview(text: string): (p: string)
    ensures |p| == if |text| < PreviewLength then |text| else PreviewLength
    ensures forall i :: 0 <= i < |p| ==> p[i] == (if text[i] == '\n' then ' ' else text[i])
  {
    var flat := NewlinesToSpaces(text);
    flat[..if |text| < PreviewLength then |text| else PreviewLength]
  }

  function Blanks(n: nat): (r: Row)
    ensures |r| == n && forall i :: 0 <= i < n ==> r[i] == EmptyStr
  {
    seq(n, i => EmptyStr)
  }

  /** The one row reported for a string that does not parse as JSON. */
  function ParseFailedRow(source: string, text: string): (row: Row)
    ensures |row| == |Columns| && row[0] == Str(source)
    ensures row[RemarksCell] == Str(ParseFailedPrefix + Preview(text))
    ensures forall k :: 0 < k < |row| && k != RemarksCell ==> row[k] == EmptyStr
  {
    [Str(source)] + Blanks(10) + [Str(ParseFailedPrefix + Preview(text))] + Blanks(11)
  }

  // ---------------------------------------------------------------------------
  // Section resolution
  // ---------------------------------------------------------------------------

  /** The four sections of a voucher, and the voucher root they were read from. */
  datatype Sections = Sections(pv: Json, gen: Json, items: Json, amount: Json, proj: Json)

  /** `parsed.get('payment_voucher') or parsed.get('PaymentVoucher') or parsed`. */
  function VoucherRoot(doc: Json): (r: Json)
    requires doc.Obj?
    ensures Truthy(Get(doc, Keys.payment_voucher, Null).value) ==> r == Get(doc, Keys.payment_voucher, Null).value
    ensures !Truthy(Get(doc, Keys.payment_voucher, Null).value) && Truthy(Get(doc, Keys.PaymentVoucher, Null).value) ==>
              r == Get(doc, Keys.PaymentVoucher, Null).value
    ensures !Truthy(Get(doc, Keys.payment_voucher, Null).value) && !Truthy(Get(doc, Keys.PaymentVoucher, Null).value) ==> r == doc
  {
    var cs := [Get(doc, Keys.payment_voucher, Null), Get(doc, Keys.PaymentVoucher, Null), Ok(doc)];
    var r := FirstTruthy(cs);
    if Truthy(cs[0].value) then
      FirstTruthyAt(cs, 0);
      r.value
    else if Truthy(cs[1].value) then
      FirstTruthyAt(cs, 1);
      r.value
    else
      FirstTruthyAt(cs, 2);
      r.value
  }

  /** Candidate keys of the general (header) section, most recent convention first. */
  function GeneralKeys(): seq<string> {
    [ Keys.general_details, Keys.voucher_metadata, Keys.reference_details,
      Keys.general_information, Keys.VoucherDetails, Keys.HeaderInfo ]
  }

  /** Candidate keys of the project section. */
  function ProjectKeys(): seq<string> {
    [Keys.project_fund_details, Keys.project_details, Keys.ProjectFundDetails]
  }

  /** Where the item list may be, in order of preference. */
  function ItemsPaths(): seq<Path> {
    [ Top(Keys.details_of_bills_claimed), Top(Keys.bills_claimed_details),
      Under(Keys.bill_details, Keys.items_claimed), Under(Keys.claimed_items, Keys.items),
      Under(Keys.details_of_bills, Keys.items), Top(Keys.items), Top(Keys.details),
      Under(Keys.ItemDetails, Keys.BillsClaimed), Top(Keys.ItemDetails) ]
  }

  /** Where the amount summary may be, in order of preference. */
  function AmountPaths(): seq<Path> {
    [ Top(Keys.amount_summary), Top(Keys.financial_summary), Top(Keys.amount_details),
      Under(Keys.details_of_bills, Keys.amount_summary), Under(Keys.bill_details, Keys.amount_summary),
      Top(Keys.FinancialSummary) ]
  }

  /** Keys tried, in order, inside a dict found where the item list was expected. */
  function NestedItemKeys(): seq<string> {
    [Keys.items, Keys.BillsClaimed, Keys.items_claimed]
  }

  /** A dict found where the item list was expected is unwrapped one level:
      `items.get('items', []) or items.get('BillsClaimed', []) or items.get('items_claimed', []) or []`. */
  function UnwrapItems(items: Json): (r: Json)
    ensures !items.Obj? ==> r == items
    ensures items.Obj? ==> r == NestedItems(items.fields, NestedItemKeys())
  {
    if !items.Obj? then items
    else
      var cs := Gets(items, NestedItemKeys(), EmptyArr) + [Ok(EmptyArr)];
      FirstTruthyOfLookups(items, NestedItemKeys());
      FirstTruthy(cs).value
  }

  /** Reference reading of the unwrapping: the value of the first key,
      among those given, whose value is truthy; `[]` when there is none. */
  function NestedItems(fields: seq<(string, Json)>, keys: seq<string>): Json {
    if keys == [] then EmptyArr
    else if Lookup(fields, keys[0]).Some? && Truthy(Lookup(fields, keys[0]).value) then Lookup(fields, keys[0]).value
    else NestedItems(fields, keys[1..])
  }

  /** The chain `d.get(k1, []) or ... or d.get(kn, []) or []` is `NestedItems`. */
  lemma {:induction false} FirstTruthyOfLookups(d: Json, keys: seq<string>)
    requires d.Obj?
    ensures FirstTruthy(Gets(d, keys, EmptyArr) + [Ok(EmptyArr)]) == Ok(NestedItems(d.fields, keys))
    decreases |keys|
  {
    var cs := Gets(d, keys, EmptyArr) + [Ok(EmptyArr)];
    if keys == [] {
      FirstTruthyAt(cs, 0);
    } else if Truthy(cs[0].value) {
      FirstTruthyAt(cs, 0);
    } else {
      assert cs[1..] == Gets(d, keys[1..], EmptyArr) + [Ok(EmptyArr)];
      FirstTruthyOfLookups(d, keys[1..]);
    }
  }

  /** Locates the four sections; raises when a `.get` reaches a non-dict. */
  function ResolveSections(doc: Json): (r: Result<Sections>)
    requires doc.Obj?
    ensures r.Fail? ==> r.error == AttributeError
    ensures r.Ok? ==> r.value.pv == VoucherRoot(doc) && r.value.pv.Obj?
    ensures !VoucherRoot(doc).Obj? ==> r.Fail?
  {
    var pv := VoucherRoot(doc);
    if !pv.Obj? then Fail(AttributeError)
    else
      var gen := Pick(pv, GeneralKeys(), EmptyObj);
      var items :- Chase(pv, ItemsPaths(), EmptyArr);
      var amount :- Chase(pv, AmountPaths(), EmptyObj);
      var proj := Pick(pv, ProjectKeys(), EmptyObj);
      Ok(Sections(pv, gen, UnwrapItems(items), amount, proj))
  }

  /** Resolving the sections raises exactly when the voucher root is not a
      dict, or when the item chain or the amount chain reaches a two-level
      lookup through a non-dict; the general and project chains never raise. */
  lemma ResolveSectionsSucceeds(doc: Json)
    requires doc.Obj?
    ensures ResolveSections(doc).Ok? <==>
      VoucherRoot(doc).Obj? && Chase(VoucherRoot(doc), ItemsPaths(), EmptyArr).Ok?
      && Chase(VoucherRoot(doc), AmountPaths(), EmptyObj).Ok?
  {
  }

  // ---------------------------------------------------------------------------
  // Project number/title, source of payment and head of expense
  // ---------------------------------------------------------------------------

  /** `proj.get('project_no', '') or proj.get('ProjectNo', '')`, and the same for the title. */
  function ProjectHeading(proj: Json): (r: Result<(Json, Json)>)
    ensures r.Ok? <==> proj.Obj?
    ensures r.Fail? ==> r.error == AttributeError
  {
    if !proj.Obj? then Fail(AttributeError)
    else
      Ok((Pick(proj, [Keys.project_no, Keys.ProjectNo], EmptyStr),
          Pick(proj, [Keys.project_title, Keys.ProjectTitle], EmptyStr)))
  }

  /** `entry.get('contents')` of a dict entry. */
  function Contents(entry: Json): Json
    requires entry.Obj?
  {
    Get(entry, Keys.contents, Null).value
  }

  /** `entry.get('details', '')` of a dict entry. */
  function Details(entry: Json): Json
    requires entry.Obj?
  {
    Get(entry, Keys.details, EmptyStr).value
  }

  /** The `contents`/`details` rows of `proj['items']`, folded left to right:
      a `Project No` row sets the number, a `Project Title` row the title. */
  function ScanProjectRows(entries: seq<Json>, no: Json, title: Json): (r: Result<(Json, Json)>)
    ensures r.Ok? <==> forall i :: 0 <= i < |entries| ==> entries[i].Obj?
    ensures r.Fail? ==> r.error == AttributeError
    decreases |entries|
  {
    if entries == [] then Ok((no, title))
    else
      var acc :- ScanProjectRows(entries[..|entries| - 1], no, title);
      var entry := entries[|entries| - 1];
      if !entry.Obj? then Fail(AttributeError)
      else if Contents(entry) == Str(ProjectNoLabel) then Ok((Details(entry), acc.1))
      else if Contents(entry) == Str(ProjectTitleLabel) then Ok((acc.0, Details(entry)))
      else Ok(acc)
  }

  /** Project number and title, falling back to the `contents` list only when no number was found. */
  function ProjectNoAndTitle(proj: Json): (r: Result<(Json, Json)>)
    ensures !proj.Obj? ==> r == Fail(AttributeError)
    ensures r.Fail? ==> r.error in {AttributeError, TypeError}
    ensures proj.Obj? && (Truthy(ProjectHeading(proj).value.0) || !HasKey(proj.fields, Keys.items)) ==> r == ProjectHeading(proj)
  {
    var heading :- ProjectHeading(proj);
    if !Truthy(heading.0) && HasKey(proj.fields, Keys.items) then
      var entries :- Iterate(Get(proj, Keys.items, EmptyArr).value);
      ScanProjectRows(entries, heading.0, heading.1)
    else
      Ok(heading)
  }

  /** The keys of a tick-box map whose values are truthy, in key order. */
  function TickedKeys(fields: seq<(string, Json)>): (keys: seq<string>)
    ensures |keys| <= |fields|
    ensures forall k :: k in keys ==> exists i :: 0 <= i < |fields| && fields[i].0 == k && Truthy(fields[i].1)
    ensures forall i :: 0 <= i < |fields| && Truthy(fields[i].1) ==> fields[i].0 in keys
  {
    if fields == [] then []
    else
      var rest := TickedKeys(fields[1..]);
      assert forall k :: k in rest ==> exists i :: 0 <= i < |fields| && fields[i].0 == k && Truthy(fields[i].1) by {
        forall k | k in rest ensures exists i :: 0 <= i < |fields| && fields[i].0 == k && Truthy(fields[i].1) {
          var i :| 0 <= i < |fields[1..]| && fields[1..][i].0 == k && Truthy(fields[1..][i].1);
          assert fields[i + 1] == fields[1..][i];
        }
      }
      assert forall i :: 1 <= i < |fields| ==> fields[i] == fields[1..][i - 1];
      (if Truthy(fields[0].1) then [fields[0].0] else []) + rest
  }

  /** The ticked keys of a map are those of its first part followed by
      those of its second part: the join keeps the map's order. */
  lemma {:induction false} TickedKeysAppend(a: seq<(string, Json)>, b: seq<(string, Json)>)
    ensures TickedKeys(a + b) == TickedKeys(a) + TickedKeys(b)
    decreases |a|
  {
    if a == [] {
      assert a + b == b;
    } else {
      var head := if Truthy(a[0].1) then [a[0].0] else [];
      assert (a + b)[0] == a[0] && (a + b)[1..] == a[1..] + b;
      assert TickedKeys(a + b) == head + TickedKeys(a[1..] + b);
      assert TickedKeys(a) == head + TickedKeys(a[1..]);
      TickedKeysAppend(a[1..], b);
    }
  }

  /** A single pair contributes its key exactly when its value is truthy. */
  lemma TickedKeysOne(key: string, value: Json)
    ensures TickedKeys([(key, value)]) == if Truthy(value) then [key] else []
  {
    assert [(key, value)][1..] == [];
  }

  /** `sep.join(parts)`. */
  function Join(parts: seq<string>, sep: string): string {
    if parts == [] then ""
    else if |parts| == 1 then parts[0]
    else parts[0] + sep + Join(parts[1..], sep)
  }

  /** `', '.join([k for k, v in m.items() if v])`. */
  function JoinTicked(fields: seq<(string, Json)>): string {
    Join(TickedKeys(fields), ", ")
  }

  /** Joining two non-empty lists puts one separator between their joins. */
  lemma {:induction false} JoinAppend(a: seq<string>, b: seq<string>, sep: string)
    requires a != [] && b != []
    ensures Join(a + b, sep) == Join(a, sep) + sep + Join(b, sep)
    decreases |a|
  {
    assert (a + b)[0] == a[0];
    if |a| > 1 {
      assert (a + b)[1..] == a[1..] + b;
      JoinAppend(a[1..], b, sep);
    } else {
      assert (a + b)[1..] == b;
    }
  }

  /** The joined tick-box keys of a map are those of its first part, a
      `", "`, then those of its second part; a part with no ticked key
      adds nothing. */
  lemma JoinTickedAppend(a: seq<(string, Json)>, b: seq<(string, Json)>)
    ensures TickedKeys(a) == [] ==> JoinTicked(a + b) == JoinTicked(b)
    ensures TickedKeys(b) == [] ==> JoinTicked(a + b) == JoinTicked(a)
    ensures TickedKeys(a) != [] && TickedKeys(b) != [] ==>
      JoinTicked(a + b) == JoinTicked(a) + ", " + JoinTicked(b)
  {
    TickedKeysAppend(a, b);
    var ka, kb := TickedKeys(a), TickedKeys(b);
    if ka == [] {
      assert ka + kb == kb;
    } else if kb == [] {
      assert ka + kb == ka;
    } else {
      JoinAppend(ka, kb, ", ");
    }
  }

  /** The administrative tick-box section: `pv.get('administrative_approvals', {}) or pv.get('AccountingClassification', {})`. */
  function AdminSection(pv: Json): (r: Json)
    requires pv.Obj?
    ensures Truthy(Get(pv, Keys.administrative_approvals, EmptyObj).value) ==> r == Get(pv, Keys.administrative_approvals, EmptyObj).value
    ensures !Truthy(Get(pv, Keys.administrative_approvals, EmptyObj).value) ==> r == Get(pv, Keys.AccountingClassification, EmptyObj).value
  {
    var keys := [Keys.administrative_approvals, Keys.AccountingClassification];
    assert keys[1..] == [Keys.AccountingClassification];
    assert Pick(pv, keys[1..], EmptyObj) == Get(pv, Keys.AccountingClassification, EmptyObj).value;
    Pick(pv, keys, EmptyObj)
  }

  /** `pv.get('categorization_of_expense', {})`. */
  function CategorizationSection(pv: Json): (r: Json)
    requires pv.Obj?
    ensures !HasKey(pv.fields, Keys.categorization_of_expense) ==> r == EmptyObj
    ensures HasKey(pv.fields, Keys.categorization_of_expense) ==> (Keys.categorization_of_expense, r) in pv.fields
  {
    Get(pv, Keys.categorization_of_expense, EmptyObj).value
  }

  /** Reference reading of one of the two fields, by precedence: a
      categorisation wrapper (when the categorisation is a non-empty dict)
      wins, then a tick-box map of the administrative section, then the
      project's own string field. */
  function ResolvedField(pv: Json, proj: Json, key: string, altKey: string): Json
    requires pv.Obj? && proj.Obj? && AdminSection(pv).Obj?
  {
    var categorization := CategorizationSection(pv);
    var ticked := Get(AdminSection(pv), key, Null).value;
    if Truthy(categorization) && categorization.Obj? && Get(categorization, key, Null).value.Obj? then
      Get(Get(categorization, key, Null).value, Keys.selected, EmptyStr).value
    else if ticked.Obj? then Str(JoinTicked(ticked.fields))
    else Pick(proj, [key, altKey], EmptyStr)
  }

  /** Source of payment and head of expense: the project's string fields,
      overridden by an administrative tick-box map, overridden in turn by a
      categorisation `{"selected": ...}` wrapper. */
  function PaymentAndHead(pv: Json, proj: Json): (r: Result<(Json, Json)>)
    requires pv.Obj? && proj.Obj?
    ensures r.Fail? ==> r.error == AttributeError
    ensures r.Ok? <==> AdminSection(pv).Obj? && (Truthy(CategorizationSection(pv)) ==> CategorizationSection(pv).Obj?)
    ensures r.Ok? ==> r.value.0 == ResolvedField(pv, proj, Keys.source_of_payment, Keys.SourceOfPayment)
    ensures r.Ok? ==> r.value.1 == ResolvedField(pv, proj, Keys.head_of_expense, Keys.HeadOfExpense)
  {
    var source := Pick(proj, [Keys.source_of_payment, Keys.SourceOfPayment], EmptyStr);
    var head := Pick(proj, [Keys.head_of_expense, Keys.HeadOfExpense], EmptyStr);
    var admin := AdminSection(pv);
    var categorization := CategorizationSection(pv);
    if !admin.Obj? then Fail(AttributeError)
    else
      var adminSource := Get(admin, Keys.source_of_payment, Null).value;
      var source1 := if adminSource.Obj? then Str(JoinTicked(adminSource.fields)) else source;
      var adminHead := Get(admin, Keys.head_of_expense, Null).value;
      var head1 := if adminHead.Obj? then Str(JoinTicked(adminHead.fields)) else head;
      if !Truthy(categorization) then Ok((source1, head1))
      else if !categorization.Obj? then Fail(AttributeError)
      else
        var catSource := Get(categorization, Keys.source_of_payment, Null).value;
        var source2 := if catSource.Obj? then Get(catSource, Keys.selected, EmptyStr).value else source1;
        var catHead := Get(categorization, Keys.head_of_expense, Null).value;
        var head2 := if catHead.Obj? then Get(catHead, Keys.selected, EmptyStr).value else head1;
        Ok((source2, head2))
  }

  // ---------------------------------------------------------------------------
  // Row projection
  // ---------------------------------------------------------------------------

  /** What every row of one document shares: the source name, the sections
      and the resolved project and payment fields. */
  datatype Shared = Shared(
    source: string, gen: Json, amount: Json, proj: Json,
    projectNo: Json, projectTitle: Json, sourceOfPayment: Json, headOfExpense: Json)

  /** The sections a row reads through `.get` are dicts. */
  predicate Readable(c: Shared) {
    c.gen.Obj? && c.amount.Obj? && c.proj.Obj?
  }

  /** `amount.get('net_amount_payable_in_figure_inr', '') or amount.get('net_amount_payable_figure_inr', '')`. */
  function PayableFigureNoItems(amount: Json): Json
    requires amount.Obj?
  {
    Pick(amount, [Keys.net_amount_payable_in_figure_inr, Keys.net_amount_payable_figure_inr], EmptyStr)
  }

  /** Column `k` of the single row of a document without items. Its
      candidate lists are shorter than those of the per-item rows. */
  function NoItemsCell(c: Shared, k: nat): Json
    requires Readable(c) && k < 23
  {
    var gen, amount, proj := c.gen, c.amount, c.proj;
    match k
    case 0 => Str(c.source)
    case 1 => Pick(gen, [Keys.unique_reference_number], EmptyStr)
    case 2 => Pick(gen, [Keys.invoice_no], EmptyStr)
    case 3 => Pick(gen, [Keys.invoice_date], EmptyStr)
    case 4 => Pick(gen, [Keys.name_of_the_supplier, Keys.supplier_name], EmptyStr)
    case 5 => Pick(gen, [Keys.payment_to_be_made_in_the_name_of, Keys.payment_to_name], EmptyStr)
    case 6 => Pick(gen, [Keys.purchase_type], EmptyStr)
    case 7 => EmptyStr
    case 8 => EmptyStr
    case 9 => EmptyStr
    case 10 => PayableFigureNoItems(amount)
    case 11 => EmptyStr
    case 12 => Pick(amount, [Keys.total_amount_in_inr], EmptyStr)
    case 13 => Pick(amount, [Keys.advance_taken_in_inr], EmptyStr)
    case 14 => Pick(amount, [Keys.penalty_deducted_in_inr], EmptyStr)
    case 15 => PayableFigureNoItems(amount)
    case 16 => Pick(amount, [Keys.net_amount_payable_in_words_inr, Keys.net_amount_payable_words_inr], EmptyStr)
    case 17 => c.projectNo
    case 18 => c.projectTitle
    case 19 => Pick(proj, [Keys.balance_in_project], EmptyStr)
    case 20 => Pick(proj, [Keys.overhead_deducted], EmptyStr)
    case 21 => c.sourceOfPayment
    case _ => c.headOfExpense
  }

  function NoItemsRow(c: Shared): (r: Result<Row>)
    ensures r.Ok? <==> Readable(c)
    ensures r.Fail? ==> r.error == AttributeError
    ensures r.Ok? ==> |r.value| == |Columns| && r.value[0] == Str(c.source)
    ensures r.Ok? ==> r.value[7] == EmptyStr && r.value[8] == EmptyStr && r.value[9] == EmptyStr && r.value[RemarksCell] == EmptyStr
    ensures r.Ok? ==> r.value[NetAmountCell] == r.value[PayableFigureCell] == PayableFigureNoItems(c.amount)
    ensures r.Ok? ==> r.value[17] == c.projectNo && r.value[18] == c.projectTitle
    ensures r.Ok? ==> r.value[21] == c.sourceOfPayment && r.value[22] == c.headOfExpense
  {
    if !Readable(c) then Fail(AttributeError)
    else Ok(seq(23, k requires 0 <= k < 23 => NoItemsCell(c, k)))
  }

  /** Column `k` of every item row of a document: the cells outside
      columns 7 to 11, which all rows of the document share. */
  function SharedCell(c: Shared, k: nat): Json
    requires Readable(c) && k < 23 && !IsItemCell(k)
  {
    var gen, amount, proj := c.gen, c.amount, c.proj;
    match k
    case 0 => Str(c.source)
    case 1 => Pick(gen, [Keys.unique_reference_number, Keys.UniqueReferenceNumber], EmptyStr)
    case 2 => Pick(gen, [Keys.invoice_no, Keys.InvoiceNo], EmptyStr)
    case 3 => Pick(gen, [Keys.invoice_date, Keys.InvoiceDate], EmptyStr)
    case 4 => Pick(gen, [Keys.name_of_the_supplier, Keys.supplier_name, Keys.SupplierName], EmptyStr)
    case 5 => Pick(gen, [Keys.payment_to_be_made_in_the_name_of, Keys.payment_to_name, Keys.payment_to_be_made_in_name_of, Keys.PaymentInNameOf], EmptyStr)
    case 6 => Pick(gen, [Keys.purchase_type, Keys.PurchaseType], EmptyStr)
    case 12 => Pick(amount, [Keys.total_amount_in_inr, Keys.total_amount_inr, Keys.total_amount, Keys.TotalAmountINR], EmptyStr)
    case 13 => Pick(amount, [Keys.advance_taken_in_inr, Keys.advance_taken_inr, Keys.advance_taken, Keys.AdvanceTakenINR], EmptyStr)
    case 14 => Pick(amount, [Keys.penalty_deducted_in_inr, Keys.penalty_deducted_inr, Keys.penalty_deducted, Keys.PenaltyDeductedINR], EmptyStr)
    case 15 => Pick(amount, [Keys.net_amount_payable_in_figure_inr, Keys.net_amount_payable_figure_inr, Keys.net_amount_payable, Keys.NetAmountPayableFigureINR], EmptyStr)
    case 16 => Pick(amount, [Keys.net_amount_payable_in_words_inr, Keys.net_amount_payable_words_inr, Keys.net_amount_payable_words, Keys.NetAmountPayableWordsINR], EmptyStr)
    case 17 => c.projectNo
    case 18 => c.projectTitle
    case 19 => Pick(proj, [Keys.balance_in_project, Keys.BalanceInProject], EmptyStr)
    case 20 => Pick(proj, [Keys.overhead_deducted, Keys.OverheadDeducted], EmptyStr)
    case 21 => c.sourceOfPayment
    case _ => c.headOfExpense
  }

  /** Candidate keys of an item's net amount. */
  function NetAmountKeys(): seq<string> {
    [Keys.net_amount, Keys.net_amount_inr, Keys.NetAmount]
  }

  /** Column `k` (7 to 11) of the row of one item, read from the item.
      `item_description` is not among the item-name keys. */
  function ItemCell(it: Json, k: nat): (r: Json)
    requires it.Obj? && IsItemCell(k)
    ensures r == EmptyStr || exists i :: 0 <= i < |it.fields| && it.fields[i].1 == r
  {
    var keys := ItemKeys(k);
    PickSource(it, keys, EmptyStr);
    Pick(it, keys, EmptyStr)
  }

  /** Candidate keys of column `k` (7 to 11) of an item row. */
  function ItemKeys(k: nat): (keys: seq<string>)
    requires IsItemCell(k)
    ensures keys != []
  {
    match k
    case 7 => [Keys.type_of_stock, Keys.TypeOfStock, Keys.TypeofStock_Asset_ConsService]
    case 8 => [Keys.subcategory_of_the_stock, Keys.subcategory_of_stock, Keys.SubcategoryOfStock]
    case 9 => [Keys.item_name, Keys.description_item_name, Keys.description, Keys.Description, Keys.ItemName]
    case 10 => NetAmountKeys()
    case _ => [Keys.remarks, Keys.Remarks]
  }

  /** The row of one item: the document's shared cells, with the item's own
      cells in columns 7 to 11. */
  function ItemRow(c: Shared, it: Json): (r: Result<Row>)
    ensures r.Ok? <==> Readable(c) && it.Obj?
    ensures r.Fail? ==> r.error == AttributeError
    ensures r.Ok? ==> |r.value| == |Columns| && r.value[0] == Str(c.source)
    ensures r.Ok? ==> forall k :: 0 <= k < |r.value| && !IsItemCell(k) ==> r.value[k] == SharedCell(c, k)
    ensures r.Ok? ==> forall k :: IsItemCell(k) ==> r.value[k] == ItemCell(it, k)
  {
    if !Readable(c) || !it.Obj? then Fail(AttributeError)
    else Ok(seq(23, k requires 0 <= k < 23 => if IsItemCell(k) then ItemCell(it, k) else SharedCell(c, k)))
  }

  /** Every row has the 23 columns and names its source file in column 0. */
  predicate Framed(rows: seq<Row>, source: string) {
    forall i :: 0 <= i < |rows| ==> |rows[i]| == |Columns| && rows[i][0] == Str(source)
  }

  /** The rows of an item list, one per item in item order; raises at the
      first item that is not a dict. */
  function ItemRows(c: Shared, items: seq<Json>): (r: Result<seq<Row>>)
    ensures r.Ok? <==> forall i :: 0 <= i < |items| ==> ItemRow(c, items[i]).Ok?
    ensures r.Fail? ==> r.error == AttributeError
    ensures r.Ok? ==> |r.value| == |items|
    ensures r.Ok? ==> forall i :: 0 <= i < |items| ==> r.value[i] == ItemRow(c, items[i]).value
    decreases |items|
  {
    if items == [] then Ok([])
    else
      var prefix :- ItemRows(c, items[..|items| - 1]);
      var row :- ItemRow(c, items[|items| - 1]);
      Ok(prefix + [row])
  }

  /** The project number and title and the payment fields of a document,
      with the sections every row reads. */
  function SharedOf(s: Sections, source: string): (r: Result<Shared>)
    requires s.pv.Obj?
    ensures r.Ok? ==> r.value.source == source && r.value.gen == s.gen && r.value.amount == s.amount && r.value.proj == s.proj
  {
    var heading :- ProjectNoAndTitle(s.proj);
    var payment :- PaymentAndHead(s.pv, s.proj);
    Ok(Shared(source, s.gen, s.amount, s.proj, heading.0, heading.1, payment.0, payment.1))
  }

  /** The rows of a document once its item section is known: one row when
      the section is falsy, otherwise one row per element. */
  function RowsOf(c: Shared, items: Json): (r: Result<seq<Row>>)
    ensures r.Ok? ==> Framed(r.value, c.source)
    ensures !Truthy(items) ==> r == (if Readable(c) then Ok([NoItemsRow(c).value]) else Fail(AttributeError))
    ensures Truthy(items) && r.Ok? ==> Iterate(items).Ok? && |r.value| == |Iterate(items).value|
  {
    if !Truthy(items) then
      var row :- NoItemsRow(c);
      Ok([row])
    else
      var its :- Iterate(items);
      ItemRows(c, its)
  }

  /** The rows of a parsed document that is a dict. */
  function DocumentRows(doc: Json, source: string): (r: Result<seq<Row>>)
    requires doc.Obj?
    ensures r.Ok? ==> Framed(r.value, source)
  {
    var s :- ResolveSections(doc);
    var c :- SharedOf(s, source);
    RowsOf(c, s.items)
  }

  /** The document a parsed value stands for: a string is JSON text and is
      loaded, which may fail; anything else is the document itself. */
  function Document(parsed: Json, parse: string -> Option<Json>): (r: Option<Json>)
    ensures r.None? ==> parsed.Str? && parse(parsed.s).None?
    ensures parsed.Str? ==> r == parse(parsed.s)
    ensures !parsed.Str? ==> r == Some(parsed)
  {
    if parsed.Str? then parse(parsed.s) else Some(parsed)
  }

  /** `build_rows_from_parsed(parsed, source_pdf)`, with `json.loads` as `parse`. */
  function BuildRows(parsed: Json, source: string, parse: string -> Option<Json>): (r: Result<seq<Row>>)
    ensures r.Ok? ==> Framed(r.value, source)
    ensures !Truthy(parsed) ==> r == Ok([])
    ensures !parsed.Str? && !parsed.Obj? ==> r == Ok([])
    ensures Truthy(parsed) && parsed.Str? && parse(parsed.s).None? ==> r == Ok([ParseFailedRow(source, parsed.s)])
    ensures Truthy(parsed) && parsed.Str? && parse(parsed.s).Some? && !parse(parsed.s).value.Obj? ==> r == Ok([])
  {
    if !Truthy(parsed) then Ok([])
    else
      match Document(parsed, parse)
      case None => Ok([ParseFailedRow(source, parsed.s)])
      case Some(doc) => if doc.Obj? then DocumentRows(doc, source) else Ok([])
  }

  /** A per-document normaliser: the parsed document and the file stem to
      the document's rows, or the exception it raised. */
  type Normaliser = (Json, string) -> Result<seq<Row>>

  /** `build_rows_from_parsed` as the normaliser of the fold. */
  function BuildRowsWith(parse: string -> Option<Json>): Normaliser {
    (parsed: Json, stem: string) => BuildRows(parsed, stem, parse)
  }

  /** Every row a normaliser returns has the 23 columns and names its file
      in column 0. */
  ghost predicate FixedWidth(build: Normaliser) {
    forall parsed, stem :: build(parsed, stem).Ok? ==> Framed(build(parsed, stem).value, stem)
  }

  /** `build_rows_from_parsed` returns fixed-width rows. */
  lemma BuildRowsFixedWidth(parse: string -> Option<Json>)
    ensures FixedWidth(BuildRowsWith(parse))
  {
    var build := BuildRowsWith(parse);
    forall parsed, stem ensures build(parsed, stem) == BuildRows(parsed, stem, parse) {
    }
  }
}
