/** The step-by-step procedure of `build_rows_from_parsed`: variables that
    are reassigned as the document is inspected, and loops that append rows.
    Each method is proved to compute the reference function of the same
    name in `VoucherRows`. */
module RowBuilder {
  import opened Wrappers
  import opened PyJson
  import Keys
  import opened VoucherRows

  /** Project number and title: read from the project section, then, when no
      number was found, overwritten row by row from its `items` list. */
  method ResolveProjectNoAndTitle(proj: Json) returns (r: Result<(Json, Json)>)
    ensures r == ProjectNoAndTitle(proj)
  {
    if !proj.Obj? {
      return Fail(AttributeError);
    }
    var projectNo := Pick(proj, [Keys.project_no, Keys.ProjectNo], EmptyStr);
    var projectTitle := Pick(proj, [Keys.project_title, Keys.ProjectTitle], EmptyStr);
    ghost var heading := (projectNo, projectTitle);
    assert ProjectHeading(proj) == Ok(heading);
    if !Truthy(projectNo) && HasKey(proj.fields, Keys.items) {
      var listed := Iterate(Get(proj, Keys.items, EmptyArr).value);
      if listed.Fail? {
        return Fail(listed.error);
      }
      var entries := listed.value;
      for i := 0 to |entries|
        invariant ScanProjectRows(entries[..i], heading.0, heading.1) == Ok((projectNo, projectTitle))
      {
        var entry := entries[i];
        assert entries[..i + 1][..i] == entries[..i];
        if !entry.Obj? {
          assert !ScanProjectRows(entries, heading.0, heading.1).Ok?;
          return Fail(AttributeError);
        }
        if Contents(entry) == Str(ProjectNoLabel) {
          projectNo := Details(entry);
        } else if Contents(entry) == Str(ProjectTitleLabel) {
          projectTitle := Details(entry);
        }
      }
      assert entries[..|entries|] == entries;
    }
    return Ok((projectNo, projectTitle));
  }

  /** Source of payment and head of expense, each reassigned as the
      administrative and categorisation sections are inspected. */
  method ResolvePaymentAndHead(pv: Json, proj: Json) returns (r: Result<(Json, Json)>)
    requires pv.Obj? && proj.Obj?
    ensures r == PaymentAndHead(pv, proj)
  {
    var sourceOfPayment := Pick(proj, [Keys.source_of_payment, Keys.SourceOfPayment], EmptyStr);
    var headOfExpense := Pick(proj, [Keys.head_of_expense, Keys.HeadOfExpense], EmptyStr);
    var admin := AdminSection(pv);
    var categorization := CategorizationSection(pv);
    if !admin.Obj? {
      return Fail(AttributeError);
    }
    var ticked := Get(admin, Keys.source_of_payment, Null).value;
    if ticked.Obj? {
      sourceOfPayment := Str(JoinTicked(ticked.fields));
    }
    ticked := Get(admin, Keys.head_of_expense, Null).value;
    if ticked.Obj? {
      headOfExpense := Str(JoinTicked(ticked.fields));
    }
    if Truthy(categorization) {
      if !categorization.Obj? {
        return Fail(AttributeError);
      }
      var wrapper := Get(categorization, Keys.source_of_payment, Null).value;
      if wrapper.Obj? {
        sourceOfPayment := Get(wrapper, Keys.selected, EmptyStr).value;
      }
      wrapper := Get(categorization, Keys.head_of_expense, Null).value;
      if wrapper.Obj? {
        headOfExpense := Get(wrapper, Keys.selected, EmptyStr).value;
      }
    }
    return Ok((sourceOfPayment, headOfExpense));
  }

  /** One row per item, appended in item order; stops at the first item
      whose row cannot be built. */
  method AppendItemRows(c: Shared, items: seq<Json>) returns (r: Result<seq<Row>>)
    ensures r == ItemRows(c, items)
  {
    var rows: seq<Row> := [];
    for i := 0 to |items|
      invariant ItemRows(c, items[..i]) == Ok(rows)
    {
      assert items[..i + 1][..i] == items[..i];
      var row := ItemRow(c, items[i]);
      if row.Fail? {
        assert !ItemRows(c, items).Ok?;
        return Fail(row.error);
      }
      rows := rows + [row.value];
    }
    assert items[..|items|] == items;
    return Ok(rows);
  }

  /** The rows of a document that is a dict: resolve the sections, then the
      shared fields, then emit one row, or one row per item. */
  method AppendDocumentRows(doc: Json, sourcePdf: string) returns (result: Result<seq<Row>>)
    requires doc.Obj?
    ensures result == DocumentRows(doc, sourcePdf)
  {
    var sections := ResolveSections(doc);
    if sections.Fail? {
      return Fail(sections.error);
    }
    var s := sections.value;
    var heading := ResolveProjectNoAndTitle(s.proj);
    if heading.Fail? {
      return Fail(heading.error);
    }
    var payment := ResolvePaymentAndHead(s.pv, s.proj);
    if payment.Fail? {
      return Fail(payment.error);
    }
    var c := Shared(sourcePdf, s.gen, s.amount, s.proj, heading.value.0, heading.value.1, payment.value.0, payment.value.1);
    assert SharedOf(s, sourcePdf) == Ok(c);
    if !Truthy(s.items) {
      var row := NoItemsRow(c);
      if row.Fail? {
        return Fail(row.error);
      }
      return Ok([row.value]);
    }
    var listed := Iterate(s.items);
    if listed.Fail? {
      return Fail(listed.error);
    }
    result := AppendItemRows(c, listed.value);
  }

  /** `build_rows_from_parsed(parsed, source_pdf)`, with `json.loads` as `parse`. */
  method BuildRowsFromParsed(parsed: Json, sourcePdf: string, parse: string -> Option<Json>)
    returns (result: Result<seq<Row>>)
    ensures result == BuildRows(parsed, sourcePdf, parse)
  {
    if !Truthy(parsed) {
      return Ok([]);
    }
    var doc := parsed;
    if parsed.Str? {
      var loaded := parse(parsed.s);
      if loaded.None? {
        return Ok([ParseFailedRow(sourcePdf, parsed.s)]);
      }
      doc := loaded.value;
    }
    if !doc.Obj? {
      return Ok([]);
    }
    result := AppendDocumentRows(doc, sourcePdf);
  }
}
