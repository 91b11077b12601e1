// The acquiring banks and the fixed bank-to-dialect table (src/bank.rs).
// The dialect enum itself is declared in src/messaging_specification/mod.rs;
// it lives here because the table names it and Dafny modules, unlike Rust's,
// may not import each other in a cycle.

module Bank {
  datatype Bank = Ems | Hsbc | Fdms | Cardnet | Stfs | Lloyds | Barclays

  /** The two message families: the bitmap dialect and the APACS fixed layout. */
  datatype MessagingSpecification = Iso8853 | Apacs

  /** `Bank::spec`: Ems, Fdms, Cardnet and Stfs speak the bitmap dialect; Hsbc, Lloyds and Barclays speak APACS. */
  function Spec(b: Bank): (d: MessagingSpecification)
    ensures d == Iso8853 <==> b == Ems || b == Fdms || b == Cardnet || b == Stfs
    ensures d == Apacs <==> b == Hsbc || b == Lloyds || b == Barclays
  {
    match b
    case Ems | Fdms | Cardnet | Stfs => Iso8853
    case Hsbc | Lloyds | Barclays => Apacs
  }
}
