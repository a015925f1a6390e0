/** The dict keys the voucher normaliser looks up, one constant per key,
    each named exactly as the key it spells. The extraction service uses
    several naming conventions for the same field (snake_case, CamelCase,
    with or without an `_in_` or a unit), hence the near-duplicates. */
module Keys {
  const payment_voucher: string := "payment_voucher"
  const PaymentVoucher: string := "PaymentVoucher"
  const general_details: string := "general_details"
  const voucher_metadata: string := "voucher_metadata"
  const reference_details: string := "reference_details"
  const general_information: string := "general_information"
  const VoucherDetails: string := "VoucherDetails"
  const HeaderInfo: string := "HeaderInfo"
  const details_of_bills_claimed: string := "details_of_bills_claimed"
  const bills_claimed_details: string := "bills_claimed_details"
  const bill_details: string := "bill_details"
  const items_claimed: string := "items_claimed"
  const claimed_items: string := "claimed_items"
  const items: string := "items"
  const details_of_bills: string := "details_of_bills"
  const details: string := "details"
  const ItemDetails: string := "ItemDetails"
  const BillsClaimed: string := "BillsClaimed"
  const amount_summary: string := "amount_summary"
  const financial_summary: string := "financial_summary"
  const amount_details: string := "amount_details"
  const FinancialSummary: string := "FinancialSummary"
  const project_fund_details: string := "project_fund_details"
  const project_details: string := "project_details"
  const ProjectFundDetails: string := "ProjectFundDetails"
  const project_no: string := "project_no"
  const ProjectNo: string := "ProjectNo"
  const project_title: string := "project_title"
  const ProjectTitle: string := "ProjectTitle"
  const contents: string := "contents"
  const source_of_payment: string := "source_of_payment"
  const SourceOfPayment: string := "SourceOfPayment"
  const head_of_expense: string := "head_of_expense"
  const HeadOfExpense: string := "HeadOfExpense"
  const administrative_approvals: string := "administrative_approvals"
  const AccountingClassification: string := "AccountingClassification"
  const categorization_of_expense: string := "categorization_of_expense"
  const selected: string := "selected"
  const unique_reference_number: string := "unique_reference_number"
  const invoice_no: string := "invoice_no"
  const invoice_date: string := "invoice_date"
  const name_of_the_supplier: string := "name_of_the_supplier"
  const supplier_name: string := "supplier_name"
  const payment_to_be_made_in_the_name_of: string := "payment_to_be_made_in_the_name_of"
  const payment_to_name: string := "payment_to_name"
  const purchase_type: string := "purchase_type"
  const net_amount_payable_in_figure_inr: string := "net_amount_payable_in_figure_inr"
  const net_amount_payable_figure_inr: string := "net_amount_payable_figure_inr"
  const total_amount_in_inr: string := "total_amount_in_inr"
  const advance_taken_in_inr: string := "advance_taken_in_inr"
  const penalty_deducted_in_inr: string := "penalty_deducted_in_inr"
  const net_amount_payable_in_words_inr: string := "net_amount_payable_in_words_inr"
  const net_amount_payable_words_inr: string := "net_amount_payable_words_inr"
  const balance_in_project: string := "balance_in_project"
  const overhead_deducted: string := "overhead_deducted"
  const UniqueReferenceNumber: string := "UniqueReferenceNumber"
  const InvoiceNo: string := "InvoiceNo"
  const InvoiceDate: string := "InvoiceDate"
  const SupplierName: string := "SupplierName"
  const payment_to_be_made_in_name_of: string := "payment_to_be_made_in_name_of"
  const PaymentInNameOf: string := "PaymentInNameOf"
  const PurchaseType: string := "PurchaseType"
  const type_of_stock: string := "type_of_stock"
  const TypeOfStock: string := "TypeOfStock"
  const TypeofStock_Asset_ConsService: string := "TypeofStock_Asset_ConsService"
  const subcategory_of_the_stock: string := "subcategory_of_the_stock"
  const subcategory_of_stock: string := "subcategory_of_stock"
  const SubcategoryOfStock: string := "SubcategoryOfStock"
  const item_name: string := "item_name"
  const description_item_name: string := "description_item_name"
  const description: string := "description"
  const Description: string := "Description"
  const ItemName: string := "ItemName"
  const net_amount: string := "net_amount"
  const net_amount_inr: string := "net_amount_inr"
  const NetAmount: string := "NetAmount"
  const remarks: string := "remarks"
  const Remarks: string := "Remarks"
  const total_amount_inr: string := "total_amount_inr"
  const total_amount: string := "total_amount"
  const TotalAmountINR: string := "TotalAmountINR"
  const advance_taken_inr: string := "advance_taken_inr"
  const advance_taken: string := "advance_taken"
  const AdvanceTakenINR: string := "AdvanceTakenINR"
  const penalty_deducted_inr: string := "penalty_deducted_inr"
  const penalty_deducted: string := "penalty_deducted"
  const PenaltyDeductedINR: string := "PenaltyDeductedINR"
  const net_amount_payable: string := "net_amount_payable"
  const NetAmountPayableFigureINR: string := "NetAmountPayableFigureINR"
  const net_amount_payable_words: string := "net_amount_payable_words"
  const NetAmountPayableWordsINR: string := "NetAmountPayableWordsINR"
  const BalanceInProject: string := "BalanceInProject"
  const OverheadDeducted: string := "OverheadDeducted"
}
