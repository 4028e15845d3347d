/**
 * The loan form: loading the client found on the dashboard, validating and saving the
 * client's data, and the guards before a loan is submitted. Amounts are exact reals.
 */
module NewLoan {
  import opened Wrappers
  import opened Text
  import opened Calendar
  import opened Clients
  import ScheduleCalculator

  /** `UIT_VALUE`: above this loan amount a sworn declaration is required. */
  const UitValue: real := 5150.0

  // ---------------------------------------------------------------------------
  // Legal age

  /** Completed years on `today` of someone born on `birth`: one less while this year's birthday is still ahead. */
  function AgeInYears(birth: Date, today: Date): int {
    var age := today.year - birth.year;
    var monthDifference := today.month - birth.month;
    if monthDifference < 0 || (monthDifference == 0 && today.day < birth.day) then age - 1 else age
  }

  /** Having completed `k` years is having reached the `k`-th birthday; the birthday itself counts. */
  lemma AgeReachedIffBirthdayPassed(birth: Date, today: Date, k: int)
    ensures AgeInYears(birth, today) >= k <==> OnOrBefore(Date(birth.year + k, birth.month, birth.day), today)
  {
  }

  /**
   * `isOfLegalAge`, reading the birth date as the calendar date typed: false for an empty
   * or unreadable date, else whether 18 years are completed.
   */
  function IsOfLegalAge(birthDateString: string, today: Date): (r: bool)
    ensures r <==> ParseIsoDate(birthDateString).Some?
                   && var b := ParseIsoDate(birthDateString).value;
                      OnOrBefore(Date(b.year + 18, b.month, b.day), today)
  {
    if birthDateString == "" then false
    else match ParseIsoDate(birthDateString)
      case None => false
      case Some(birth) =>
        AgeReachedIffBirthdayPassed(birth, today, 18);
        AgeInYears(birth, today) >= 18
  }

  /** On the 18th birthday the client is of age; the day before, not yet. */
  lemma EighteenthBirthday(birthDateString: string, birth: Date)
    requires ParseIsoDate(birthDateString) == Some(birth)
    requires IsValidDate(Date(birth.year + 18, birth.month, birth.day))
    ensures IsOfLegalAge(birthDateString, Date(birth.year + 18, birth.month, birth.day))
    ensures !IsOfLegalAge(birthDateString, PreviousDay(Date(birth.year + 18, birth.month, birth.day)))
  {
  }

  /**
   * The calendar date the code reads from `new Date(s)` through `getFullYear`, `getMonth`
   * and `getDate`: the string is taken as midnight UTC and shown in the browser's zone, so a
   * browser behind UTC sees the day before.
   */
  function BirthDateAsRead(s: string, behindUtc: bool): (r: Option<Date>)
    ensures r.Some? <==> ParseIsoDate(s).Some?
    ensures r.Some? ==> IsValidDate(r.value)
    ensures r.Some? && !behindUtc ==> r == ParseIsoDate(s)
    ensures r.Some? && behindUtc ==> OnOrBefore(r.value, ParseIsoDate(s).value) && r.value != ParseIsoDate(s).value
    ensures r.Some? && behindUtc ==>
              forall e :: IsValidDate(e) && OnOrBefore(r.value, e) && OnOrBefore(e, ParseIsoDate(s).value) ==>
                e == r.value || e == ParseIsoDate(s).value
  {
    match ParseIsoDate(s)
    case None => None
    case Some(d) => Some(if behindUtc then PreviousDay(d) else d)
  }

  /** `isOfLegalAge` as written, in a browser at or ahead of UTC (`behindUtc` false) or behind it. */
  function IsOfLegalAgeAsWritten(birthDateString: string, today: Date, behindUtc: bool): (r: bool)
    ensures r <==> BirthDateAsRead(birthDateString, behindUtc).Some?
                   && var b := BirthDateAsRead(birthDateString, behindUtc).value;
                      OnOrBefore(Date(b.year + 18, b.month, b.day), today)
    ensures !behindUtc ==> (r <==> IsOfLegalAge(birthDateString, today))
  {
    if birthDateString == "" then false
    else match BirthDateAsRead(birthDateString, behindUtc)
      case None => false
      case Some(birth) =>
        AgeReachedIffBirthdayPassed(birth, today, 18);
        AgeInYears(birth, today) >= 18
  }

  /** At or ahead of UTC the code as written computes the intended age check. */
  lemma AsWrittenAgreesAheadOfUtc(birthDateString: string, today: Date)
    ensures IsOfLegalAgeAsWritten(birthDateString, today, false) == IsOfLegalAge(birthDateString, today)
  {
  }

  /**
   * Behind UTC (Lima is UTC−5) the code as written accepts a client born on 2006-10-19 on
   * 2024-10-18, the day before the 18th birthday.
   */
  lemma AsWrittenAdmitsTheDayBefore()
    ensures IsOfLegalAgeAsWritten("2006-10-19", Date(2024, 10, 18), true)
    ensures !IsOfLegalAge("2006-10-19", Date(2024, 10, 18))
  {
    BirthDateExample();
  }

  /** `2006-10-19` reads as that date. */
  lemma BirthDateExample()
    ensures ParseIsoDate("2006-10-19") == Some(Date(2006, 10, 19))
  {
    var s := "2006-10-19";
    assert s[..4] == "2006" && s[5..7] == "10" && s[8..] == "19";
    BirthDateDigits();
    assert IsValidDate(Date(2006, 10, 19));
  }

  /** The three numbers of `2006-10-19`. */
  lemma BirthDateDigits()
    ensures AllDigits("2006") && AllDigits("10") && AllDigits("19")
    ensures DigitsValue("2006") == 2006 && DigitsValue("10") == 10 && DigitsValue("19") == 19
  {
    YearDigits();
    DigitsValueOfTwo('1', '0');
    DigitsValueOfTwo('1', '9');
  }

  /** `2006` is the number 2006. */
  lemma YearDigits()
    ensures AllDigits("2006") && DigitsValue("2006") == 2006
  {
    DigitsValueOfFour('2', '0', '0', '6');
  }

  // ---------------------------------------------------------------------------
  // Amount above one UIT

  /** `parseFloat(amount) > UIT_VALUE`; an unreadable amount (NaN) compares false. */
  function ExceedsUit(amount: string): (r: bool)
    ensures r ==> ParseFloat(amount).Some? && ParseFloat(amount).value > UitValue
    ensures ParseFloat(amount).Some? && ParseFloat(amount).value > UitValue ==> r
  {
    match ParseFloat(amount)
    case None => false
    case Some(v) => v > UitValue
  }

  /** A whole amount needs a declaration exactly when it is more than 5150 soles. */
  lemma WholeAmountExceedsUit(ds: string)
    requires ds != [] && AllDigits(ds)
    ensures ExceedsUit(ds) <==> DigitsValue(ds) > 5150
  {
    ParseDigits(ds);
  }

  /**
   * An amount with decimals needs a declaration exactly when its whole part is above 5150,
   * or is 5150 with a non-zero fraction.
   */
  lemma DecimalAmountExceedsUit(whole: string, frac: string)
    requires whole != [] && AllDigits(whole) && AllDigits(frac)
    ensures ExceedsUit(whole + "." + frac) <==>
              DigitsValue(whole) > 5150 || (DigitsValue(whole) == 5150 && DigitsValue(frac) > 0)
  {
    ParseDecimal(whole, frac);
    var w, f := DigitsValue(whole), FractionValue(frac);
    assert f > 0.0 <==> DigitsValue(frac) > 0 by {
      PositiveQuotient(DigitsValue(frac) as real, Pow10(|frac|) as real);
    }
    assert w as real + f > UitValue <==> w > 5150 || (w == 5150 && f > 0.0);
  }

  lemma PositiveQuotient(a: real, b: real)
    requires 0.0 <= a && b > 0.0
    ensures a / b > 0.0 <==> a > 0.0
  {
    if a > 0.0 {
      assert a / b * b == a;
    }
  }

  /** An amount of exactly one UIT needs no declaration. */
  lemma OneUitIsNotAbove()
    ensures !ExceedsUit("5150")
  {
    DigitsValueOfFour('5', '1', '5', '0');
    ParseDigits("5150");
  }

  /** Half a sol more than one UIT needs a declaration. */
  lemma AboveOneUit()
    ensures ExceedsUit("5150.5")
  {
    var whole, frac := "5150", "5";
    DigitsValueOfFour('5', '1', '5', '0');
    assert DigitsValue(whole) == 5150;
    assert DigitsValue(frac) == 5 by { assert frac[..0] == []; }
    assert FractionValue(frac) > 0.0;
    ParseDecimal(whole, frac);
    assert whole + "." + frac == "5150.5";
  }

  /** An empty amount is NaN and never above one UIT. */
  lemma EmptyAmountIsNotAbove()
    ensures !ExceedsUit("")
  {
    ParseEmpty();
  }

  // ---------------------------------------------------------------------------
  // Email and phone

  /** No character that `\s` matches, and no '@'. */
  predicate NoSpaceNorAt(t: string) {
    forall k :: 0 <= k < |t| ==> !IsWhitespace(t[k]) && t[k] != '@'
  }

  /**
   * `/^[^\s@]+@[^\s@]+\.[^\s@]+$/`: three non-empty runs free of whitespace and '@', the
   * first two joined by '@' and the last two by '.'.
   */
  predicate MatchesEmailPattern(s: string) {
    exists i, j | 0 < i && i + 1 < j && j + 1 < |s| ::
      s[i] == '@' && s[j] == '.' && NoSpaceNorAt(s[..i]) && NoSpaceNorAt(s[i + 1..j]) && NoSpaceNorAt(s[j + 1..])
  }

  /** The first position of `c` in `s`. */
  function IndexOf(s: string, c: char): (r: Option<nat>)
    ensures r.Some? ==> r.value < |s| && s[r.value] == c && c !in s[..r.value]
    ensures r.None? ==> c !in s
  {
    if s == [] then None
    else if s[0] == c then Some(0)
    else match IndexOf(s[1..], c)
      case None => None
      case Some(k) =>
        assert s[..k + 1] == [s[0]] + s[1..][..k];
        Some(k + 1)
  }

  /**
   * The email pattern read as a direct check: exactly one '@', after a non-empty local
   * part, and a domain with a '.' that is neither its first nor its last character.
   */
  predicate IsValidEmail(s: string) {
    match IndexOf(s, '@')
    case None => false
    case Some(at) =>
      var domain := s[at + 1..];
      at > 0 && NoSpaceNorAt(s[..at]) && NoSpaceNorAt(domain)
      && |domain| >= 3 && '.' in domain[1..|domain| - 1]
  }

  /** The direct check accepts exactly the strings the regular expression matches. */
  lemma EmailCheckMatchesPattern(s: string)
    ensures IsValidEmail(s) <==> MatchesEmailPattern(s)
  {
    if IsValidEmail(s) {
      EmailCheckSound(s);
    }
    if MatchesEmailPattern(s) {
      EmailCheckComplete(s);
    }
  }

  /** What the direct check accepts, the regular expression matches. */
  lemma EmailCheckSound(s: string)
    requires IsValidEmail(s)
    ensures MatchesEmailPattern(s)
  {
    var at := IndexOf(s, '@').value;
    var domain := s[at + 1..];
    var m :| 0 <= m < |domain| - 2 && domain[1..|domain| - 1][m] == '.';
    var j := at + 2 + m;
    assert s[j] == '.';
    assert s[at + 1..j] == domain[..m + 1];
    assert s[j + 1..] == domain[m + 2..];
    assert NoSpaceNorAt(s[at + 1..j]);
    assert NoSpaceNorAt(s[j + 1..]);
  }

  /** A character not found before position `i`, but at it, is first found at `i`. */
  lemma IndexOfIsFirst(s: string, c: char, i: nat)
    requires i < |s| && s[i] == c && c !in s[..i]
    ensures IndexOf(s, c) == Some(i)
  {
    assert s[i] in s;
  }

  /** What the regular expression matches, the direct check accepts. */
  lemma EmailCheckComplete(s: string)
    requires MatchesEmailPattern(s)
    ensures IsValidEmail(s)
  {
    var i, j :| 0 < i && i + 1 < j && j + 1 < |s| && s[i] == '@' && s[j] == '.'
                && NoSpaceNorAt(s[..i]) && NoSpaceNorAt(s[i + 1..j]) && NoSpaceNorAt(s[j + 1..]);
    EmailCheckCompleteAt(s, i, j);
  }

  /** The direct check accepts a match whose '@' is at `i` and whose '.' is at `j`. */
  lemma EmailCheckCompleteAt(s: string, i: nat, j: nat)
    requires 0 < i && i + 1 < j && j + 1 < |s| && s[i] == '@' && s[j] == '.'
    requires NoSpaceNorAt(s[..i]) && NoSpaceNorAt(s[i + 1..j]) && NoSpaceNorAt(s[j + 1..])
    ensures IsValidEmail(s)
  {
    assert '@' !in s[..i] by {
      forall k | 0 <= k < i ensures s[..i][k] != '@' {
      }
    }
    IndexOfIsFirst(s, '@', i);
    DomainHasNoSpaceNorAt(s, i, j);
    var domain := s[i + 1..];
    assert |domain| >= 3;
    assert domain[1..|domain| - 1][j - i - 2] == '.';
  }

  /** The part after the '@' is the two runs around the '.', so it has no whitespace and no '@'. */
  lemma DomainHasNoSpaceNorAt(s: string, i: nat, j: nat)
    requires i + 1 < j && j + 1 < |s| && s[j] == '.'
    requires NoSpaceNorAt(s[i + 1..j]) && NoSpaceNorAt(s[j + 1..])
    ensures NoSpaceNorAt(s[i + 1..])
  {
    var domain := s[i + 1..];
    forall p | 0 <= p < |domain| ensures !IsWhitespace(domain[p]) && domain[p] != '@' {
      if p + i + 1 < j {
        assert domain[p] == s[i + 1..j][p];
      } else if p + i + 1 > j {
        assert domain[p] == s[j + 1..][p + i - j];
      }
    }
  }

  /** `/^\d{9}$/`: exactly nine decimal digits. */
  predicate IsNineDigits(s: string) {
    |s| == 9 && AllDigits(s)
  }

  // ---------------------------------------------------------------------------
  // Saving the client

  /** The client fields of the form, as typed. */
  datatype ClientForm = ClientForm(
    direccionCliente: string,
    fechaNacimiento: string,
    correoCliente: string,
    telefonoCliente: string,
    esPep: bool,
    ruc: string,
    razonSocial: string,
    direccionFiscal: string,
    fechaConstitucion: string,
    representanteLegalDni: string,
    representanteLegalNombre: string,
    cargoRepresentante: string)

  /** The blank form the page starts with. */
  const EmptyForm := ClientForm("", "", "", "", false, "", "", "", "", "", "", "")

  /** Why `handleRegisterClient` refuses to save. */
  datatype RegisterError =
    | MissingCompanyFields
    | RucLength
    | RepresentativeDniLength
    | MissingClientFields
    | Underage
    | InvalidEmail
    | InvalidPhone

  /** The six company fields are all filled in. */
  predicate CompanyFieldsFilled(form: ClientForm) {
    form.ruc != "" && form.razonSocial != "" && form.direccionFiscal != "" && form.fechaConstitucion != ""
    && form.representanteLegalDni != "" && form.representanteLegalNombre != ""
  }

  /** The four personal fields are all filled in. */
  predicate PersonFieldsFilled(form: ClientForm) {
    form.direccionCliente != "" && form.fechaNacimiento != "" && form.correoCliente != "" && form.telefonoCliente != ""
  }

  /**
   * The validation chain of `handleRegisterClient`: the company checks or the personal
   * checks, by client type, then the email and phone checks for both; the first failure
   * is reported.
   */
  function ValidateClientForm(kind: ClientKind, form: ClientForm, today: Date): (r: Option<RegisterError>)
    ensures r.None? <==>
              (kind == Juridica ==> CompanyFieldsFilled(form) && |form.ruc| == 11 && |form.representanteLegalDni| == 8)
              && (kind == Natural ==> PersonFieldsFilled(form) && IsOfLegalAge(form.fechaNacimiento, today))
              && MatchesEmailPattern(form.correoCliente) && IsNineDigits(form.telefonoCliente)
    ensures kind == Juridica ==> r != Some(MissingClientFields) && r != Some(Underage)
    ensures kind == Natural ==>
              r != Some(MissingCompanyFields) && r != Some(RucLength) && r != Some(RepresentativeDniLength)
    ensures r == Some(Underage) ==> PersonFieldsFilled(form) && !IsOfLegalAge(form.fechaNacimiento, today)
    ensures r == Some(InvalidPhone) ==> MatchesEmailPattern(form.correoCliente) && !IsNineDigits(form.telefonoCliente)
  {
    if kind == Juridica && !CompanyFieldsFilled(form) then Some(MissingCompanyFields)
    else if kind == Juridica && |form.ruc| != 11 then Some(RucLength)
    else if kind == Juridica && |form.representanteLegalDni| != 8 then Some(RepresentativeDniLength)
    else if kind == Natural && !PersonFieldsFilled(form) then Some(MissingClientFields)
    else if kind == Natural && !IsOfLegalAge(form.fechaNacimiento, today) then Some(Underage)
    else if !IsValidEmail(form.correoCliente) then (EmailCheckMatchesPattern(form.correoCliente); Some(InvalidEmail))
    else if !IsNineDigits(form.telefonoCliente) then (EmailCheckMatchesPattern(form.correoCliente); Some(InvalidPhone))
    else EmailCheckMatchesPattern(form.correoCliente); None
  }

  /** A company is never checked for age: its validation ignores the birth date and the day. */
  lemma CompanyValidationIgnoresBirthDate(form: ClientForm, birthDate: string, today: Date, otherDay: Date)
    ensures ValidateClientForm(Juridica, form, today)
            == ValidateClientForm(Juridica, form.(fechaNacimiento := birthDate), otherDay)
  {
  }

  /** `value.replace(/\D/g, "").slice(0, 8)` on the representative's DNI field. */
  function RepresentativeDniInput(typed: string): (r: string)
    ensures AllDigits(r)
    ensures r <= KeepDigits(typed)
    ensures |r| == if |KeepDigits(typed)| <= 8 then |KeepDigits(typed)| else 8
  {
    SanitizeDigits(typed, 8)
  }

  /** The representative's DNI passes the length check exactly when eight digits or more were typed. */
  lemma RepresentativeDniLengthCheck(typed: string)
    ensures |RepresentativeDniInput(typed)| == 8 <==> |KeepDigits(typed)| >= 8
  {
  }

  // ---------------------------------------------------------------------------
  // Loading the client

  /** How the page fetches the client handed over by the dashboard. */
  datatype Lookup = NoDocument | ByRuc(ruc: string) | ByDni(dni: string) | NoIdentifier

  /**
   * Without a DNI and a RUC the page goes back; a company with a RUC is looked up by RUC,
   * otherwise a client with a DNI by DNI, and anything else is an error.
   */
  function ClientLookup(summary: Option<ClientSummary>): (r: Lookup)
    ensures r == NoDocument <==> summary.None? || (summary.value.dniCliente == "" && OrEmpty(summary.value.ruc) == "")
    ensures r.ByRuc? ==> summary.Some? && summary.value.tipo == Juridica && Some(r.ruc) == summary.value.ruc && r.ruc != ""
    ensures r.ByDni? ==> summary.Some? && r.dni == summary.value.dniCliente && r.dni != ""
    ensures summary.Some? && summary.value.tipo == Juridica && OrEmpty(summary.value.ruc) != "" ==>
              r == ByRuc(OrEmpty(summary.value.ruc))
    ensures summary.Some? && !(summary.value.tipo == Juridica && OrEmpty(summary.value.ruc) != "")
            && summary.value.dniCliente != "" ==>
              r == ByDni(summary.value.dniCliente)
    ensures r == NoIdentifier <==>
              summary.Some? && summary.value.tipo == Natural && summary.value.dniCliente == "" && OrEmpty(summary.value.ruc) != ""
  {
    match summary
    case None => NoDocument
    case Some(s) =>
      if s.dniCliente == "" && OrEmpty(s.ruc) == "" then NoDocument
      else if s.tipo == Juridica && OrEmpty(s.ruc) != "" then ByRuc(s.ruc.value)
      else if s.dniCliente != "" then ByDni(s.dniCliente)
      else
        assert s.tipo == Natural;
        NoIdentifier
  }

  // ---------------------------------------------------------------------------
  // Submitting the loan

  /** The loan fields of the form, as typed. */
  datatype LoanState = LoanState(amount: string, interestRate: string, loanDate: string, installments: string)

  /** The loan sent to the backend. */
  datatype LoanDto = LoanDto(idCliente: string, monto: real, tasaInteresAnual: real, numeroCuotas: int, fechaPrestamo: string)

  /** Why `handleSubmitLoan` refuses to send. */
  datatype SubmitError = MissingClientId | ClientNotSaved | InvalidLoanAmount | InvalidInterestRate | InvalidInstallments

  /** `clientDetails?.idCliente` is present and not empty. */
  predicate HasClientId(details: Option<ClientDetail>) {
    details.Some? && details.value.idCliente.Some? && details.value.idCliente.value != ""
  }

  /** `parseFloat(s)` is a number above zero (NaN is not). */
  predicate ParsesPositive(s: string) {
    ParseFloat(s).Some? && ParseFloat(s).value > 0.0
  }

  /** `parseInt(s, 10)` is a number above zero. */
  predicate ParsesPositiveInt(s: string) {
    ParseInt(s).Some? && ParseInt(s).value > 0
  }

  /**
   * The guards of `handleSubmitLoan`, in order: a saved client with an id, then a positive
   * amount, interest rate and number of instalments; what passes is the loan to send.
   */
  function SubmitLoan(details: Option<ClientDetail>, registered: bool, loan: LoanState): (r: Result<LoanDto, SubmitError>)
    ensures r.Ok? <==> HasClientId(details) && registered && ParsesPositive(loan.amount)
                       && ParsesPositive(loan.interestRate) && ParsesPositiveInt(loan.installments)
    ensures r.Ok? ==> r.value == LoanDto(details.value.idCliente.value, ParseFloat(loan.amount).value,
                                         ParseFloat(loan.interestRate).value, ParseInt(loan.installments).value,
                                         loan.loanDate)
    ensures r == Err(MissingClientId) <==> !HasClientId(details)
    ensures r == Err(ClientNotSaved) <==> HasClientId(details) && !registered
  {
    if !HasClientId(details) then Err(MissingClientId)
    else if !registered then Err(ClientNotSaved)
    else if !ParsesPositive(loan.amount) then Err(InvalidLoanAmount)
    else if !ParsesPositive(loan.interestRate) then Err(InvalidInterestRate)
    else if !ParsesPositiveInt(loan.installments) then Err(InvalidInstallments)
    else Ok(LoanDto(details.value.idCliente.value, ParseFloat(loan.amount).value,
                    ParseFloat(loan.interestRate).value, ParseInt(loan.installments).value, loan.loanDate))
  }

  /**
   * A loan that passes the guards has a repayment schedule that closes: its rate is
   * positive, it has at least one instalment, and the principal portions add up to the amount.
   */
  lemma AcceptedLoanScheduleCloses(details: Option<ClientDetail>, registered: bool, loan: LoanState)
    requires SubmitLoan(details, registered, loan).Ok?
    ensures var dto := SubmitLoan(details, registered, loan).value;
            dto.tasaInteresAnual > 0.0 && dto.numeroCuotas >= 1
            && ScheduleCalculator.PrincipalRepaid(dto.monto, dto.tasaInteresAnual, dto.numeroCuotas, dto.numeroCuotas)
               == dto.monto
  {
    var dto := SubmitLoan(details, registered, loan).value;
    ScheduleCalculator.PrincipalsRepayTheLoan(dto.monto, dto.tasaInteresAnual, dto.numeroCuotas);
  }

  /** With the form's defaults (24% a year, one instalment), a saved client and 1000 typed, the loan goes out. */
  lemma DefaultTermsAreAccepted(id: string, loanDate: string)
    requires id != ""
    ensures SubmitLoan(Some(ClientDetail(Some(id), None, None, Natural, false)), true,
                       LoanState("1000", "24", loanDate, "1"))
            == Ok(LoanDto(id, 1000.0, 24.0, 1, loanDate))
  {
    DefaultTermsParse();
  }

  /** `1000`, `24` and `1` read as those numbers. */
  lemma DefaultTermsParse()
    ensures ParseFloat("1000") == Some(1000.0) && ParseFloat("24") == Some(24.0) && ParseInt("1") == Some(1)
  {
    ThousandDigits();
    ParseDigits("1000");
    TwentyFourDigits();
    ParseDigits("24");
    ParseDigits("1");
  }

  /** `1000` is the number 1000. */
  lemma ThousandDigits()
    ensures AllDigits("1000") && DigitsValue("1000") == 1000
  {
    DigitsValueOfFour('1', '0', '0', '0');
  }

  /** `24` is the number 24. */
  lemma TwentyFourDigits()
    ensures AllDigits("24") && DigitsValue("24") == 24
  {
    DigitsValueOfTwo('2', '4');
  }

  // ---------------------------------------------------------------------------
  // The page

  /** What one press of the save button did. */
  datatype RegisterOutcome = NoClient | Rejected(error: RegisterError) | Saved | SaveFailed

  /** The page's state. */
  class LoanForm {
    var clientDetails: Option<ClientDetail>
    var formState: ClientForm
    var loanState: LoanState
    var isClientRegistered: bool
    var loading: bool

    /** A fresh page: blank client fields, 24% a year, one instalment, dated `today`. */
    constructor (today: string)
      ensures clientDetails == None && formState == EmptyForm
      ensures loanState == LoanState("", "24", today, "1")
      ensures !isClientRegistered && !loading
    {
      clientDetails := None;
      formState := EmptyForm;
      loanState := LoanState("", "24", today, "1");
      isClientRegistered := false;
      loading := false;
    }

    /**
     * The client-loading effect once the lookup has answered: `data` is the client fetched
     * (None when the service fails, which changes nothing). The fetched client replaces the
     * loaded one, and one the backend already knows (`esNuevo` false) counts as registered
     * without saving the form again. Filling the form fields from it is not modelled.
     */
    method LoadClient(data: Option<ClientDetail>)
      modifies this
      ensures data.Some? ==> clientDetails == data
      ensures data.Some? ==> isClientRegistered == (old(isClientRegistered) || !data.value.esNuevo)
      ensures data.None? ==>
                clientDetails == old(clientDetails) && isClientRegistered == old(isClientRegistered)
                && formState == old(formState)
      ensures loanState == old(loanState) && loading == old(loading)
    {
      if data.Some? {
        clientDetails := data;
        if !data.value.esNuevo {
          isClientRegistered := true;
        }
      }
    }

    /** Typing in the representative's DNI field keeps digits only, at most eight. */
    method SetRepresentativeDni(typed: string)
      modifies this
      ensures formState == old(formState).(representanteLegalDni := RepresentativeDniInput(typed))
      ensures clientDetails == old(clientDetails) && loanState == old(loanState)
      ensures isClientRegistered == old(isClientRegistered) && loading == old(loading)
    {
      formState := formState.(representanteLegalDni := RepresentativeDniInput(typed));
    }

    /**
     * `handleRegisterClient`: without a client nothing happens; a form that fails the
     * checks is refused; otherwise it is sent, and `saved` is the service's answer (None
     * when it fails). A saved client replaces the loaded one and counts as registered.
     */
    method HandleRegisterClient(today: Date, saved: Option<ClientDetail>) returns (outcome: RegisterOutcome)
      modifies this
      ensures old(clientDetails).None? ==> outcome == NoClient
      ensures old(clientDetails).Some? ==>
                match ValidateClientForm(old(clientDetails).value.tipo, old(formState), today)
                case Some(e) => outcome == Rejected(e)
                case None => outcome == (if saved.Some? then Saved else SaveFailed)
      ensures outcome == Saved ==> clientDetails == saved && isClientRegistered
      ensures outcome != Saved ==> clientDetails == old(clientDetails) && isClientRegistered == old(isClientRegistered)
      ensures outcome == Saved || outcome == SaveFailed ==> !loading
      ensures outcome.NoClient? || outcome.Rejected? ==> loading == old(loading)
      ensures formState == old(formState) && loanState == old(loanState)
    {
      if clientDetails.None? {
        return NoClient;
      }
      var error := ValidateClientForm(clientDetails.value.tipo, formState, today);
      if error.Some? {
        return Rejected(error.value);
      }
      loading := true;
      if saved.Some? {
        clientDetails := saved;
        isClientRegistered := true;
        outcome := Saved;
      } else {
        outcome := SaveFailed;
      }
      loading := false;
    }

    /**
     * `handleSubmitLoan`: the loan sent, or why nothing was sent. Sending ends with the
     * page no longer loading, whatever the service answers.
     */
    method HandleSubmitLoan() returns (result: Result<LoanDto, SubmitError>)
      modifies this
      ensures result == SubmitLoan(clientDetails, isClientRegistered, loanState)
      ensures result.Ok? ==> !loading
      ensures result.Err? ==> loading == old(loading)
      ensures clientDetails == old(clientDetails) && formState == old(formState)
      ensures loanState == old(loanState) && isClientRegistered == old(isClientRegistered)
    {
      result := SubmitLoan(clientDetails, isClientRegistered, loanState);
      if result.Ok? {
        loading := true;
        loading := false;
      }
    }
  }
}
