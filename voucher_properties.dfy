/** Properties of `build_rows_from_parsed` that relate several of its parts:
    the precedence of the fallback chains, the last-match rule of the
    project rows, the shape of a document's rows, and worked documents. */
module VoucherProperties {
  import opened Wrappers
  import opened PyJson
  import Keys
  import opened VoucherRows

  // ---------------------------------------------------------------------------
  // Fallback chains
  // ---------------------------------------------------------------------------

  /** The general section is `general_details` whenever that key holds a
      non-empty value, and `HeaderInfo` only when the five keys before it
      hold nothing. */
  lemma {:induction false} GeneralDetailsPrecedence(doc: Json)
    requires doc.Obj? && ResolveSections(doc).Ok?
    ensures var pv := VoucherRoot(doc);
      Truthy(Get(pv, Keys.general_details, EmptyObj).value) ==>
        ResolveSections(doc).value.gen == Get(pv, Keys.general_details, EmptyObj).value
    ensures var pv := VoucherRoot(doc);
      (forall j :: 0 <= j < 5 ==> !Truthy(Get(pv, GeneralKeys()[j], EmptyObj).value)) ==>
        ResolveSections(doc).value.gen == Get(pv, Keys.HeaderInfo, EmptyObj).value
  {
    var pv := VoucherRoot(doc);
    if Truthy(Get(pv, Keys.general_details, EmptyObj).value) {
      PickAt(pv, GeneralKeys(), EmptyObj, 0);
    }
    if forall j :: 0 <= j < 5 ==> !Truthy(Get(pv, GeneralKeys()[j], EmptyObj).value) {
      PickAt(pv, GeneralKeys(), EmptyObj, 5);
    }
  }

  /** An item whose only amount is `net_amount: 0` gets an empty Net Amount
      cell: 0 is falsy, so the chain moves on to the absent keys and ends
      on the default of the last one. */
  lemma {:induction false} NetAmountZeroIsBlank(c: Shared, it: Json)
    requires ItemRow(c, it).Ok?
    requires Get(it, Keys.net_amount, EmptyStr).value == Num(0.0)
    requires !HasKey(it.fields, Keys.net_amount_inr) && !HasKey(it.fields, Keys.NetAmount)
    ensures ItemRow(c, it).value[NetAmountCell] == EmptyStr
  {
    PickAt(it, NetAmountKeys(), EmptyStr, 2);
  }

  /** An item named only under a key outside the five name keys (such as
      `item_description`) gets an empty Description cell, and an item whose
      amount is only under `net_amount_inr` shows that amount. */
  lemma {:induction false} UnlistedNameAndFallbackAmount(c: Shared, it: Json, amount: Json)
    requires ItemRow(c, it).Ok?
    requires !HasKey(it.fields, Keys.item_name) && !HasKey(it.fields, Keys.description_item_name)
    requires !HasKey(it.fields, Keys.description) && !HasKey(it.fields, Keys.Description)
    requires !HasKey(it.fields, Keys.ItemName)
    requires !HasKey(it.fields, Keys.net_amount) && Lookup(it.fields, Keys.net_amount_inr) == Some(amount) && Truthy(amount)
    ensures ItemRow(c, it).value[9] == EmptyStr
    ensures ItemRow(c, it).value[NetAmountCell] == amount
  {
    PickAt(it, [Keys.item_name, Keys.description_item_name, Keys.description, Keys.Description, Keys.ItemName], EmptyStr, 4);
    PickAt(it, NetAmountKeys(), EmptyStr, 1);
  }

  // ---------------------------------------------------------------------------
  // The project rows: the last matching row wins
  // ---------------------------------------------------------------------------

  /** The position of the last dict entry whose `contents` is `tag`. */
  function LastLabelled(entries: seq<Json>, tag: string): (r: Option<nat>)
    ensures r.Some? ==> r.value < |entries| && entries[r.value].Obj? && Contents(entries[r.value]) == Str(tag)
    ensures r.Some? ==> forall j :: r.value < j < |entries| && entries[j].Obj? ==> Contents(entries[j]) != Str(tag)
    ensures r.None? ==> forall j :: 0 <= j < |entries| && entries[j].Obj? ==> Contents(entries[j]) != Str(tag)
  {
    if entries == [] then None
    else
      var last := entries[|entries| - 1];
      if last.Obj? && Contents(last) == Str(tag) then Some(|entries| - 1)
      else LastLabelled(entries[..|entries| - 1], tag)
  }

  /** The `details` of the last entry labelled `tag`, or `default`. */
  function LabelledDetails(entries: seq<Json>, tag: string, default: Json): Json
    requires forall i :: 0 <= i < |entries| ==> entries[i].Obj?
  {
    match LastLabelled(entries, tag)
    case Some(i) => Details(entries[i])
    case None => default
  }

  /** One more entry: it is the last labelled one when it carries the
      label, otherwise the answer is the one for the entries before it. */
  lemma LabelledDetailsStep(entries: seq<Json>, tag: string, default: Json)
    requires entries != [] && forall i :: 0 <= i < |entries| ==> entries[i].Obj?
    ensures var prefix, last := entries[..|entries| - 1], entries[|entries| - 1];
      LabelledDetails(entries, tag, default)
      == if Contents(last) == Str(tag) then Details(last) else LabelledDetails(prefix, tag, default)
  {
  }

  /** Scanning the project rows gives the details of the last `Project No`
      row and of the last `Project Title` row, and keeps the values read
      from the project section when there is no such row. */
  lemma {:induction false} ScanProjectRowsLastWins(entries: seq<Json>, no: Json, title: Json)
    requires forall i :: 0 <= i < |entries| ==> entries[i].Obj?
    ensures ScanProjectRows(entries, no, title)
         == Ok((LabelledDetails(entries, ProjectNoLabel, no), LabelledDetails(entries, ProjectTitleLabel, title)))
    decreases |entries|
  {
    if entries != [] {
      ScanProjectRowsLastWins(entries[..|entries| - 1], no, title);
      LabelledDetailsStep(entries, ProjectNoLabel, no);
      LabelledDetailsStep(entries, ProjectTitleLabel, title);
    }
  }

  // ---------------------------------------------------------------------------
  // Shape of a document's rows
  // ---------------------------------------------------------------------------

  /** The rows of an item list agree on every column outside 7 to 11: those
      cells come from the document, not from the item. */
  lemma ItemRowsAgreeOutsideItemCells(c: Shared, items: seq<Json>)
    requires ItemRows(c, items).Ok?
    ensures var rows := ItemRows(c, items).value;
      forall i, j, k :: 0 <= i < |rows| && 0 <= j < |rows| && 0 <= k < |Columns| && !IsItemCell(k) ==> rows[i][k] == rows[j][k]
  {
    var rows := ItemRows(c, items).value;
    forall i, j, k | 0 <= i < |rows| && 0 <= j < |rows| && 0 <= k < |Columns| && !IsItemCell(k)
      ensures rows[i][k] == rows[j][k]
    {
      assert rows[i] == ItemRow(c, items[i]).value;
      assert rows[j] == ItemRow(c, items[j]).value;
    }
  }

  // ---------------------------------------------------------------------------
  // Worked documents
  // ---------------------------------------------------------------------------

  /** Every lookup in an empty dict gives the default. */
  lemma {:induction false} PickEmpty(keys: seq<string>, default: Json)
    requires keys != []
    ensures Pick(EmptyObj, keys, default) == default
    decreases |keys|
  {
    if |keys| > 1 && !Truthy(default) {
      PickEmpty(keys[1..], default);
    }
  }

  /** Every path into an empty dict gives the default. */
  lemma {:induction false} ChaseEmpty(paths: seq<Path>, default: Json)
    requires paths != []
    ensures Chase(EmptyObj, paths, default) == Ok(default)
    decreases |paths|
  {
    if |paths| > 1 && !Truthy(default) {
      ChaseEmpty(paths[1..], default);
    }
  }

  /** The sections of an empty document: all empty, and no items. */
  lemma EmptyDocumentSections(doc: Json)
    requires doc.Obj? && doc.fields == []
    ensures ResolveSections(doc) == Ok(Sections(doc, doc, EmptyArr, doc, doc))
  {
    assert VoucherRoot(doc) == doc;
    PickEmpty(GeneralKeys(), EmptyObj);
    ChaseEmpty(ItemsPaths(), EmptyArr);
    ChaseEmpty(AmountPaths(), EmptyObj);
    PickEmpty(ProjectKeys(), EmptyObj);
  }

  /** The shared fields of an empty document are all the empty string. */
  lemma EmptyDocumentShared(doc: Json, source: string)
    requires doc.Obj? && doc.fields == []
    ensures SharedOf(Sections(doc, doc, EmptyArr, doc, doc), source)
         == Ok(Shared(source, doc, doc, doc, EmptyStr, EmptyStr, EmptyStr, EmptyStr))
  {
    forall keys | keys != [] ensures Pick(doc, keys, EmptyStr) == EmptyStr {
      PickEmpty(keys, EmptyStr);
    }
    assert ProjectNoAndTitle(doc) == Ok((EmptyStr, EmptyStr));
    assert AdminSection(doc) == EmptyObj by {
      PickEmpty([Keys.administrative_approvals, Keys.AccountingClassification], EmptyObj);
    }
  }

  /** The source name followed by empty cells. */
  function BlankRow(source: string): (row: Row)
    ensures |row| == |Columns| && row[0] == Str(source)
    ensures forall k :: 0 < k < |Columns| ==> row[k] == EmptyStr
  {
    [Str(source)] + Blanks(|Columns| - 1)
  }

  /** The row of an empty document is blank after the source name. */
  lemma EmptyDocumentRow(doc: Json, source: string)
    requires doc.Obj? && doc.fields == []
    ensures NoItemsRow(Shared(source, doc, doc, doc, EmptyStr, EmptyStr, EmptyStr, EmptyStr)) == Ok(BlankRow(source))
  {
    var c := Shared(source, doc, doc, doc, EmptyStr, EmptyStr, EmptyStr, EmptyStr);
    forall keys | keys != [] ensures Pick(doc, keys, EmptyStr) == EmptyStr {
      PickEmpty(keys, EmptyStr);
    }
    var row := NoItemsRow(c).value;
    forall k | 0 < k < |Columns| ensures row[k] == EmptyStr {
      assert row[k] == NoItemsCell(c, k);
    }
    assert row == BlankRow(source);
  }

  /** A document whose item section is falsy gives exactly its item-less row. */
  lemma ItemlessDocumentRows(doc: Json, source: string, s: Sections, c: Shared, row: Row)
    requires doc.Obj?
    ensures ResolveSections(doc) == Ok(s) && s.pv.Obj? && SharedOf(s, source) == Ok(c)
            && !Truthy(s.items) && NoItemsRow(c) == Ok(row) ==>
      DocumentRows(doc, source) == Ok([row])
  {
  }

  /** A truthy item section gives the rows of its items, in iteration
      order; iterating a section that is neither a list, a dict nor a
      string raises TypeError. */
  lemma RowsOfTruthy(c: Shared, items: Json)
    requires Truthy(items)
    ensures RowsOf(c, items) == (if Iterate(items).Ok? then ItemRows(c, Iterate(items).value) else Fail(TypeError))
  {
  }

  /** The shared fields of a document's rows are its project number and
      title and its source of payment and head of expense; the rows raise
      exactly when resolving one of those pairs raises. */
  lemma SharedOfFields(s: Sections, source: string)
    requires s.pv.Obj?
    ensures SharedOf(s, source).Ok? <==> ProjectNoAndTitle(s.proj).Ok? && PaymentAndHead(s.pv, s.proj).Ok?
    ensures SharedOf(s, source).Ok? ==>
      var c := SharedOf(s, source).value;
      (c.projectNo, c.projectTitle) == ProjectNoAndTitle(s.proj).value
      && (c.sourceOfPayment, c.headOfExpense) == PaymentAndHead(s.pv, s.proj).value
  {
  }

  /** A document whose item section is truthy gives the rows of its items:
      one per item, in order, each the item's row. */
  lemma ItemizedDocumentRows(doc: Json, source: string, s: Sections, c: Shared, its: seq<Json>)
    requires doc.Obj?
    ensures ResolveSections(doc) == Ok(s) && s.pv.Obj? && SharedOf(s, source) == Ok(c)
            && Truthy(s.items) && Iterate(s.items) == Ok(its) ==>
      DocumentRows(doc, source) == ItemRows(c, its)
  {
  }

  /** An empty dict, read as a voucher, gives one blank row. */
  lemma EmptyDocumentRows(doc: Json, source: string)
    requires doc.Obj? && doc.fields == []
    ensures DocumentRows(doc, source) == Ok([BlankRow(source)])
  {
    EmptyDocumentSections(doc);
    EmptyDocumentShared(doc, source);
    EmptyDocumentRow(doc, source);
    ItemlessDocumentRows(doc, source, Sections(doc, doc, EmptyArr, doc, doc),
                         Shared(source, doc, doc, doc, EmptyStr, EmptyStr, EmptyStr, EmptyStr), BlankRow(source));
  }

  /** An empty dict is falsy and gives no rows, but a text that parses to
      an empty dict (`'{}'`) gives one row, blank after the source name. */
  lemma EmptyObjectStringVsDict(doc: Json, text: string, source: string, parse: string -> Option<Json>)
    requires doc.Obj? && doc.fields == []
    requires text != "" && parse(text) == Some(doc)
    ensures BuildRows(doc, source, parse) == Ok([])
    ensures BuildRows(Str(text), source, parse) == Ok([BlankRow(source)])
  {
    assert !Truthy(doc);
    EmptyDocumentRows(doc, source);
    assert Truthy(Str(text));
    assert parse(Str(text).s) == Some(doc);
  }

  /** A chain over `a + b` whose prefix `a` found a truthy value. */
  lemma PickExtended(o: Json, a: seq<string>, b: seq<string>, full: seq<string>)
    requires o.Obj? && a != [] && full == a + b
    ensures Truthy(Pick(o, a, EmptyStr)) ==> Pick(o, full, EmptyStr) == Pick(o, a, EmptyStr)
  {
    if Truthy(Pick(o, a, EmptyStr)) {
      PickPrefix(o, a, b, EmptyStr);
    }
  }

  /** Columns 1 to 6, read from the general section. */
  lemma GeneralCellsAgree(c: Shared, k: nat)
    requires Readable(c) && 1 <= k <= 6
    ensures Truthy(NoItemsCell(c, k)) ==> NoItemsCell(c, k) == SharedCell(c, k)
  {
    var o := c.gen;
    if k == 1 {
      PickExtended(o, [Keys.unique_reference_number], [Keys.UniqueReferenceNumber],
                   [Keys.unique_reference_number, Keys.UniqueReferenceNumber]);
    } else if k == 2 {
      PickExtended(o, [Keys.invoice_no], [Keys.InvoiceNo], [Keys.invoice_no, Keys.InvoiceNo]);
    } else if k == 3 {
      PickExtended(o, [Keys.invoice_date], [Keys.InvoiceDate], [Keys.invoice_date, Keys.InvoiceDate]);
    } else if k == 4 {
      PickExtended(o, [Keys.name_of_the_supplier, Keys.supplier_name], [Keys.SupplierName],
                   [Keys.name_of_the_supplier, Keys.supplier_name, Keys.SupplierName]);
    } else if k == 5 {
      PickExtended(o, [Keys.payment_to_be_made_in_the_name_of, Keys.payment_to_name],
                   [Keys.payment_to_be_made_in_name_of, Keys.PaymentInNameOf],
                   [Keys.payment_to_be_made_in_the_name_of, Keys.payment_to_name, Keys.payment_to_be_made_in_name_of, Keys.PaymentInNameOf]);
    } else {
      PickExtended(o, [Keys.purchase_type], [Keys.PurchaseType], [Keys.purchase_type, Keys.PurchaseType]);
    }
  }

  /** Columns 12 to 16, read from the amount section. */
  lemma AmountCellsAgree(c: Shared, k: nat)
    requires Readable(c) && 12 <= k <= 16
    ensures Truthy(NoItemsCell(c, k)) ==> NoItemsCell(c, k) == SharedCell(c, k)
  {
    var o := c.amount;
    if k == 12 {
      PickExtended(o, [Keys.total_amount_in_inr], [Keys.total_amount_inr, Keys.total_amount, Keys.TotalAmountINR],
                   [Keys.total_amount_in_inr, Keys.total_amount_inr, Keys.total_amount, Keys.TotalAmountINR]);
    } else if k == 13 {
      PickExtended(o, [Keys.advance_taken_in_inr], [Keys.advance_taken_inr, Keys.advance_taken, Keys.AdvanceTakenINR],
                   [Keys.advance_taken_in_inr, Keys.advance_taken_inr, Keys.advance_taken, Keys.AdvanceTakenINR]);
    } else if k == 14 {
      PickExtended(o, [Keys.penalty_deducted_in_inr], [Keys.penalty_deducted_inr, Keys.penalty_deducted, Keys.PenaltyDeductedINR],
                   [Keys.penalty_deducted_in_inr, Keys.penalty_deducted_inr, Keys.penalty_deducted, Keys.PenaltyDeductedINR]);
    } else {
      PayableCellsAgree(c, k);
    }
  }

  /** Columns 15 and 16, the net amount payable in figures and in words. */
  lemma PayableCellsAgree(c: Shared, k: nat)
    requires Readable(c) && 15 <= k <= 16
    ensures Truthy(NoItemsCell(c, k)) ==> NoItemsCell(c, k) == SharedCell(c, k)
  {
    var o := c.amount;
    if k == 15 {
      PickExtended(o, [Keys.net_amount_payable_in_figure_inr, Keys.net_amount_payable_figure_inr],
                   [Keys.net_amount_payable, Keys.NetAmountPayableFigureINR],
                   [Keys.net_amount_payable_in_figure_inr, Keys.net_amount_payable_figure_inr, Keys.net_amount_payable, Keys.NetAmountPayableFigureINR]);
    } else {
      PickExtended(o, [Keys.net_amount_payable_in_words_inr, Keys.net_amount_payable_words_inr],
                   [Keys.net_amount_payable_words, Keys.NetAmountPayableWordsINR],
                   [Keys.net_amount_payable_in_words_inr, Keys.net_amount_payable_words_inr, Keys.net_amount_payable_words, Keys.NetAmountPayableWordsINR]);
    }
  }

  /** The item-less row reads a prefix of each candidate list of the item
      rows: wherever it found a truthy value, an item row of the same
      document shows that value too, and the source name, project and
      payment columns are the same in both. */
  lemma NoItemsCellAgreesWithShared(c: Shared, k: nat)
    requires Readable(c) && k < |Columns| && !IsItemCell(k)
    ensures Truthy(NoItemsCell(c, k)) ==> NoItemsCell(c, k) == SharedCell(c, k)
    ensures k in [0, 17, 18, 21, 22] ==> NoItemsCell(c, k) == SharedCell(c, k)
  {
    if 1 <= k <= 6 {
      GeneralCellsAgree(c, k);
    } else if 12 <= k <= 16 {
      AmountCellsAgree(c, k);
    } else if k == 19 {
      PickExtended(c.proj, [Keys.balance_in_project], [Keys.BalanceInProject], [Keys.balance_in_project, Keys.BalanceInProject]);
    } else if k == 20 {
      PickExtended(c.proj, [Keys.overhead_deducted], [Keys.OverheadDeducted], [Keys.overhead_deducted, Keys.OverheadDeducted]);
    }
  }
}
