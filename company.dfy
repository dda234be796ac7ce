/** The issuer's fixed details, shown in the document header, footer and share text. */
module Company {
  const Name := "DEE PIESS"
  const Tagline := "INTERIOR PROJECTS"
  const Address := "Shop No. 6-7-73, C-Block 108, Bansilalpet, Secunderabad - 500003"
  const Phone := "040-27536209 / 9848132615"
  const Gstin := "36AAALC1234A1Z5"
  const BankName := "ICICI Bank"
  const AccountName := "DEE PIESS"
  const AccountNumber := "000405001234"
  const Ifsc := "ICIC0000004"
  const PhonePe := "9848132615"
  const GooglePay := "9848132615"
  const Terms: seq<string> := [
    "50% Advance payment required to initiate the project.",
    "40% Payment after completion of 80% work.",
    "10% Final payment before handover.",
    "Quotation valid for 15 days from the date of issue.",
    "Any additional work will be charged extra as per actuals.",
    "All disputes are subject to Secunderabad jurisdiction."
  ]
}
