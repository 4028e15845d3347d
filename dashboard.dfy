/**
 * The dashboard: searching a client by DNI (8 digits) or RUC (11 digits), starting a loan
 * for a found client or a stub for a new one, and the filter of the active-loan history.
 */
module Dashboard {
  import opened Wrappers
  import opened Lists
  import opened Text
  import opened Clients
  import NewLoan

  /** `length === 8 || length === 11`: the length of a DNI or of a RUC. */
  predicate IsSearchableDocument(document: string) {
    |document| == 8 || |document| == 11
  }

  /** `value.replace(/\D/g, "").slice(0, 11)` on the document field. */
  function DocumentInput(typed: string): (r: string)
    ensures AllDigits(r)
    ensures r <= KeepDigits(typed)
    ensures |r| == if |KeepDigits(typed)| <= 11 then |KeepDigits(typed)| else 11
  {
    SanitizeDigits(typed, 11)
  }

  /** The typed text can be searched exactly when it holds eight digits, or eleven or more. */
  lemma DocumentInputSearchable(typed: string)
    ensures IsSearchableDocument(DocumentInput(typed)) <==> |KeepDigits(typed)| == 8 || |KeepDigits(typed)| >= 11
  {
  }

  /**
   * `filteredLoans`: the active loans; with a search term, only those whose DNI or RUC
   * (a missing one read as empty) contains the lower-cased term.
   */
  function FilteredLoans(loans: seq<Loan>, searchLoanDni: string): (r: seq<Loan>)
    ensures forall loan :: loan in r ==> loan in loans && loan.estado == "activo"
    ensures IsSubsequence(r, loans)
    ensures searchLoanDni == "" ==> r == Filter(loans, (loan: Loan) => loan.estado == "activo")
    ensures searchLoanDni != "" ==>
              forall loan :: loan in r <==>
                loan in loans && loan.estado == "activo"
                && (Contains(OrEmpty(loan.cliente.dniCliente), ToLower(searchLoanDni))
                    || Contains(OrEmpty(loan.cliente.ruc), ToLower(searchLoanDni)))
    ensures searchLoanDni != "" ==>
              forall loan :: multiset(r)[loan] ==
                if loan.estado == "activo"
                   && (Contains(OrEmpty(loan.cliente.dniCliente), ToLower(searchLoanDni))
                       || Contains(OrEmpty(loan.cliente.ruc), ToLower(searchLoanDni)))
                then multiset(loans)[loan] else 0
  {
    var shown := (loan: Loan) =>
      if loan.estado != "activo" then false
      else if searchLoanDni == "" then true
      else
        var term := ToLower(searchLoanDni);
        Contains(OrEmpty(loan.cliente.dniCliente), term) || Contains(OrEmpty(loan.cliente.ruc), term);
    if searchLoanDni == "" then
      FilterSameTest(loans, shown, (loan: Loan) => loan.estado == "activo");
      Filter(loans, shown)
    else
      Filter(loans, shown)
  }

  /** Lower-casing leaves a string of digits as it is. */
  lemma ToLowerOfDigits(s: string)
    requires AllDigits(s)
    ensures ToLower(s) == s
  {
  }

  /** Typing a client's whole DNI or RUC keeps that client's active loan in the list. */
  lemma DocumentFindsItsLoan(loans: seq<Loan>, loan: Loan, document: string)
    requires loan in loans && loan.estado == "activo"
    requires document != "" && AllDigits(document)
    requires OrEmpty(loan.cliente.dniCliente) == document || OrEmpty(loan.cliente.ruc) == document
    ensures loan in FilteredLoans(loans, document)
  {
    ToLowerOfDigits(document);
    assert OccursAt(document, document, 0);
  }

  /** A found client with no active loan can start a new one. */
  predicate CanStartNewLoan(client: Option<ClientSummary>) {
    client.Some? && !client.value.tienePrestamoActivo
  }

  /**
   * The record handed to the loan form for a document nobody holds yet: a company with
   * that RUC when it has 11 characters, otherwise a person with that DNI; no active loan.
   */
  function NewClientStub(document: string): (r: ClientSummary)
    ensures !r.tienePrestamoActivo
    ensures r.nombreCliente == "" && r.apellidoCliente == "" && r.razonSocial == Some("")
    ensures |document| == 11 ==> r.tipo == Juridica && r.ruc == Some(document) && r.dniCliente == ""
    ensures |document| != 11 ==> r.tipo == Natural && r.dniCliente == document && r.ruc == Some("")
  {
    var isRuc := |document| == 11;
    ClientSummary(
      if isRuc then "" else document,
      "", "",
      Some(if isRuc then document else ""),
      Some(""),
      if isRuc then Juridica else Natural,
      false)
  }

  /**
   * The loan form looks the stub up by the very document searched: a RUC for a company,
   * a DNI for a person; it is never turned away for lack of a document.
   */
  lemma StubIsLookedUpByItsDocument(document: string)
    requires IsSearchableDocument(document)
    ensures NewLoan.ClientLookup(Some(NewClientStub(document)))
            == if |document| == 11 then NewLoan.ByRuc(document) else NewLoan.ByDni(document)
    ensures CanStartNewLoan(Some(NewClientStub(document)))
  {
  }

  /** The page's state. */
  class Page {
    var searchDocument: string
    var client: Option<ClientSummary>
    var loading: bool
    var searched: bool

    /** The document field holds digits only, and a search result is shown only for a DNI or RUC. */
    predicate Valid()
      reads this
    {
      AllDigits(searchDocument) && |searchDocument| <= 11
      && (searched ==> IsSearchableDocument(searchDocument))
    }

    constructor ()
      ensures Valid()
      ensures searchDocument == "" && client == None && !loading && !searched
    {
      searchDocument := "";
      client := None;
      loading := false;
      searched := false;
    }

    /** Typing in the document field: digits only, at most 11, and any earlier result is dropped. */
    method OnDocumentChange(typed: string)
      requires Valid()
      modifies this
      ensures Valid()
      ensures searchDocument == DocumentInput(typed)
      ensures client == None && !searched && loading == old(loading)
    {
      searchDocument := DocumentInput(typed);
      client := None;
      searched := false;
    }

    /**
     * `handleSearchClient`: a document that is neither a DNI nor a RUC is refused and
     * nothing changes. Otherwise `result` is the service's answer: None when it fails,
     * Some(None) when nobody holds the document, Some(Some(c)) when `c` does.
     */
    method HandleSearchClient(result: Option<Option<ClientSummary>>) returns (accepted: bool)
      requires Valid()
      modifies this
      ensures Valid()
      ensures accepted <==> IsSearchableDocument(old(searchDocument))
      ensures searchDocument == old(searchDocument)
      ensures !accepted ==> client == old(client) && loading == old(loading) && searched == old(searched)
      ensures accepted ==> searched && !loading
      ensures accepted ==> client == (if result.Some? && result.value.Some? then result.value else None)
    {
      if !IsSearchableDocument(searchDocument) {
        return false;
      }
      loading := true;
      client := None;
      searched := false;
      if result.Some? && result.value.Some? {
        client := result.value;
      } else {
        client := None;
      }
      loading := false;
      searched := true;
      accepted := true;
    }

    /** `handleNewLoan`: the client handed to the loan form, only a found one with no active loan. */
    method HandleNewLoan() returns (target: Option<ClientSummary>)
      ensures target.Some? <==> CanStartNewLoan(client)
      ensures target.Some? ==> target == client
    {
      if client.Some? && !client.value.tienePrestamoActivo {
        target := client;
      } else {
        target := None;
      }
    }

    /** After a search that found nobody, the stub for the searched document reaches the loan form's lookup. */
    lemma StubAfterSearchIsLookedUp()
      requires Valid() && searched && client == None
      ensures NewLoan.ClientLookup(Some(NewClientStub(searchDocument))).ByRuc?
              || NewLoan.ClientLookup(Some(NewClientStub(searchDocument))).ByDni?
    {
      StubIsLookedUpByItsDocument(searchDocument);
    }
  }
}
