/** The customer row generator: the fixed per-column draw protocol and the rules
    that turn the draws into one customer row.

    `Generate` is the specification: every attribute is drawn from the state its
    own column's stream had when the row began, so it says outright that no draw
    disturbs another column. `CustomerRowGenerator` is the generator object: it
    keeps one stream per column and advances them in place, one draw after the
    other, in the order the generator makes its calls; its method is proved to
    produce exactly what `Generate` describes. */
module CustomerGenerator {
  import opened JavaInt
  import opened Schema
  import opened Collaborators

  /** The columns whose streams a customer row draws from, in the order of the draws. */
  const CustomerDrawOrder: seq<Column> := [
    C_PREFERRED_CUST_FLAG, C_CURRENT_HDEMO_SK, C_CURRENT_CDEMO_SK, C_CURRENT_ADDR_SK,
    C_FIRST_NAME, C_LAST_NAME, C_SALUTATION, C_BIRTH_DAY, C_EMAIL_ADDRESS,
    C_LAST_REVIEW_DATE, C_FIRST_SALES_DATE_ID, C_BIRTH_COUNTRY, C_NULLS]

  /** A customer is preferred when the draw from [1, 100] is below this. */
  const PreferredPercent: int32 := 50
  const MinBirthday: Date := Date(1924, 1, 1)
  const MaxBirthday: Date := Date(1992, 12, 31)
  /** Days back from today of the earliest last-review date. */
  const ReviewWindowDays: int32 := 365
  /** Days back from today of the earliest first-sales date. */
  const SalesWindowDays: int32 := 3650
  /** Days from the first sale to the first shipment. */
  const ShiptoDelayDays: int32 := 30

  /** Every column has its stream. */
  ghost predicate HasAllStreams<S>(streams: map<Column, S>)
  {
    forall c: Column :: c in streams
  }

  /** The salutation table a first name selects: a name with no weight among the
      female first names is taken as male. */
  function SalutationTable<S, Sc>(env: Collaborators<S, Sc>, nameIndex: int32): (table: SalutationsWeights)
  {
    if env.getWeightForIndex(nameIndex, FEMALE_FREQUENCY) == 0 then MALE else FEMALE
  }

  /* Each column's draw: the value drawn from that column's stream in state `s`,
     and the stream's next state. */

  function PreferredCustFlagDraw<S, Sc>(env: Collaborators<S, Sc>, s: S): (drawn: (int32, S))
  {
    env.generateUniformRandomInt(1, 100, s)
  }

  /** The household-demographics key: anchor 1 (a small reference dimension). */
  function CurrentHdemoDraw<S, Sc>(env: Collaborators<S, Sc>, scaling: Sc, s: S): (drawn: (int64, S))
  {
    env.generateJoinKey(C_CURRENT_HDEMO_SK, HOUSEHOLD_DEMOGRAPHICS, 1, scaling, s)
  }

  /** The customer-demographics key: anchor 1. */
  function CurrentCdemoDraw<S, Sc>(env: Collaborators<S, Sc>, scaling: Sc, s: S): (drawn: (int64, S))
  {
    env.generateJoinKey(C_CURRENT_CDEMO_SK, CUSTOMER_DEMOGRAPHICS, 1, scaling, s)
  }

  /** The current-address key: the customer's own key is the anchor (one address per customer). */
  function CurrentAddrDraw<S, Sc>(env: Collaborators<S, Sc>, scaling: Sc, customerSk: int64, s: S): (drawn: (int64, S))
  {
    env.generateJoinKey(C_CURRENT_ADDR_SK, CUSTOMER_ADDRESS, customerSk, scaling, s)
  }

  /** The index of the first name, drawn from the weights of all first names. */
  function FirstNameDraw<S, Sc>(env: Collaborators<S, Sc>, s: S): (drawn: (int32, S))
  {
    env.pickRandomIndex(GENERAL_FREQUENCY, s)
  }

  function LastNameDraw<S, Sc>(env: Collaborators<S, Sc>, s: S): (drawn: (string, S))
  {
    env.pickRandomLastName(s)
  }

  /** The salutation, from the table the first name at `nameIndex` selects. */
  function SalutationDraw<S, Sc>(env: Collaborators<S, Sc>, nameIndex: int32, s: S): (drawn: (string, S))
  {
    env.pickRandomSalutation(SalutationTable(env, nameIndex), s)
  }

  function BirthdayDraw<S, Sc>(env: Collaborators<S, Sc>, s: S): (drawn: (Date, S))
  {
    env.generateUniformRandomDate(MinBirthday, MaxBirthday, s)
  }

  function EmailDraw<S, Sc>(env: Collaborators<S, Sc>, firstName: string, lastName: string, s: S): (drawn: (string, S))
  {
    env.generateRandomEmail(firstName, lastName, s)
  }

  /** The last-review date, as a Julian day, drawn between a year ago and today. */
  function LastReviewDateDraw<S, Sc>(env: Collaborators<S, Sc>, s: S): (drawn: (int32, S))
  {
    var oneYearAgo := env.fromJulianDays(SubInt32(env.julianTodaysDate, ReviewWindowDays));
    var today := env.fromJulianDays(env.julianTodaysDate);
    var (lastReviewDate, next) := env.generateUniformRandomDate(oneYearAgo, today, s);
    (env.toJulianDays(lastReviewDate), next)
  }

  /** The first-sales date, as a Julian day, drawn between ten years ago and today. */
  function FirstSalesDateDraw<S, Sc>(env: Collaborators<S, Sc>, s: S): (drawn: (int32, S))
  {
    var tenYearsAgo := env.fromJulianDays(SubInt32(env.julianTodaysDate, SalesWindowDays));
    var today := env.fromJulianDays(env.julianTodaysDate);
    var (firstSalesDate, next) := env.generateUniformRandomDate(tenYearsAgo, today, s);
    (env.toJulianDays(firstSalesDate), next)
  }

  function BirthCountryDraw<S, Sc>(env: Collaborators<S, Sc>, s: S): (drawn: (string, S))
  {
    env.pickRandomCountry(s)
  }

  /** The null mask of a customer row. */
  function NullsDraw<S, Sc>(env: Collaborators<S, Sc>, s: S): (drawn: (int64, S))
  {
    env.createNullBitMap(CUSTOMER, s)
  }

  /** The first ship-to date: a fixed delay after the first sale, in Java `int` arithmetic. */
  function FirstShiptoDate(firstSalesDateId: int32): (firstShiptoDateId: int32)
  {
    AddInt32(firstSalesDateId, ShiptoDelayDays)
  }

  /** The state of column `c`'s stream once the row is complete, from the
      streams `streams` as they were when the row began: a column the row draws
      from has moved on by exactly its one draw, any other column is untouched. */
  function StreamAfter<S, Sc>(env: Collaborators<S, Sc>, scaling: Sc, rowNumber: int64,
                              streams: map<Column, S>, c: Column): (next: S)
    requires HasAllStreams(streams)
  {
    match c
    case C_PREFERRED_CUST_FLAG => PreferredCustFlagDraw(env, streams[c]).1
    case C_CURRENT_HDEMO_SK => CurrentHdemoDraw(env, scaling, streams[c]).1
    case C_CURRENT_CDEMO_SK => CurrentCdemoDraw(env, scaling, streams[c]).1
    case C_CURRENT_ADDR_SK => CurrentAddrDraw(env, scaling, rowNumber, streams[c]).1
    case C_FIRST_NAME => FirstNameDraw(env, streams[c]).1
    case C_LAST_NAME => LastNameDraw(env, streams[c]).1
    case C_SALUTATION =>
      SalutationDraw(env, FirstNameDraw(env, streams[C_FIRST_NAME]).0, streams[c]).1
    case C_BIRTH_DAY => BirthdayDraw(env, streams[c]).1
    case C_EMAIL_ADDRESS =>
      var firstName := env.getFirstNameFromIndex(FirstNameDraw(env, streams[C_FIRST_NAME]).0);
      EmailDraw(env, firstName, LastNameDraw(env, streams[C_LAST_NAME]).0, streams[c]).1
    case C_LAST_REVIEW_DATE => LastReviewDateDraw(env, streams[c]).1
    case C_FIRST_SALES_DATE_ID => FirstSalesDateDraw(env, streams[c]).1
    case C_BIRTH_COUNTRY => BirthCountryDraw(env, streams[c]).1
    case C_NULLS => NullsDraw(env, streams[c]).1
    case C_CUSTOMER_SK | C_CUSTOMER_ID | C_FIRST_SHIPTO_DATE_ID | C_BIRTH_MONTH
       | C_BIRTH_YEAR | C_LOGIN => streams[c]
  }

  /** A generated row together with the state of every stream after it. */
  datatype Generated<S> = Generated(row: CustomerRow, streams: map<Column, S>)

  /** The row generated for `rowNumber` from the streams `streams` as they are
      when generation of the row starts, and the streams afterwards: each column
      draws once, from its own stream as it was at the start. */
  function Generate<S, Sc>(env: Collaborators<S, Sc>, scaling: Sc, rowNumber: int64, streams: map<Column, S>): (g: Generated<S>)
    requires HasAllStreams(streams)
  {
    var (randomInt, _) := PreferredCustFlagDraw(env, streams[C_PREFERRED_CUST_FLAG]);
    var (hdemo, _) := CurrentHdemoDraw(env, scaling, streams[C_CURRENT_HDEMO_SK]);
    var (cdemo, _) := CurrentCdemoDraw(env, scaling, streams[C_CURRENT_CDEMO_SK]);
    var (addr, _) := CurrentAddrDraw(env, scaling, rowNumber, streams[C_CURRENT_ADDR_SK]);
    var (nameIndex, _) := FirstNameDraw(env, streams[C_FIRST_NAME]);
    var firstName := env.getFirstNameFromIndex(nameIndex);
    var (lastName, _) := LastNameDraw(env, streams[C_LAST_NAME]);
    var (salutation, _) := SalutationDraw(env, nameIndex, streams[C_SALUTATION]);
    var (birthday, _) := BirthdayDraw(env, streams[C_BIRTH_DAY]);
    var (email, _) := EmailDraw(env, firstName, lastName, streams[C_EMAIL_ADDRESS]);
    var (lastReview, _) := LastReviewDateDraw(env, streams[C_LAST_REVIEW_DATE]);
    var (firstSales, _) := FirstSalesDateDraw(env, streams[C_FIRST_SALES_DATE_ID]);
    var (country, _) := BirthCountryDraw(env, streams[C_BIRTH_COUNTRY]);
    var (nulls, _) := NullsDraw(env, streams[C_NULLS]);
    Generated(
      CustomerRow(
        rowNumber, env.makeBusinessKey(rowNumber), cdemo, hdemo, addr,
        FirstShiptoDate(firstSales), firstSales, salutation, firstName, lastName,
        randomInt < PreferredPercent, birthday.day, birthday.month, birthday.year,
        country, email, lastReview, nulls),
      map c: Column | c in streams :: StreamAfter(env, scaling, rowNumber, streams, c))
  }

  /** Advancing each drawn stream in turn, in the order of the draws, leaves the
      streams `Generate` describes. */
  lemma StreamsAdvancedInDrawOrder<S, Sc>(env: Collaborators<S, Sc>, scaling: Sc, rowNumber: int64,
                                          m: map<Column, S>)
    requires HasAllStreams(m)
    ensures Generate(env, scaling, rowNumber, m).streams ==
      m[C_PREFERRED_CUST_FLAG := PreferredCustFlagDraw(env, m[C_PREFERRED_CUST_FLAG]).1]
       [C_CURRENT_HDEMO_SK := CurrentHdemoDraw(env, scaling, m[C_CURRENT_HDEMO_SK]).1]
       [C_CURRENT_CDEMO_SK := CurrentCdemoDraw(env, scaling, m[C_CURRENT_CDEMO_SK]).1]
       [C_CURRENT_ADDR_SK := CurrentAddrDraw(env, scaling, rowNumber, m[C_CURRENT_ADDR_SK]).1]
       [C_FIRST_NAME := FirstNameDraw(env, m[C_FIRST_NAME]).1]
       [C_LAST_NAME := LastNameDraw(env, m[C_LAST_NAME]).1]
       [C_SALUTATION := SalutationDraw(env, FirstNameDraw(env, m[C_FIRST_NAME]).0, m[C_SALUTATION]).1]
       [C_BIRTH_DAY := BirthdayDraw(env, m[C_BIRTH_DAY]).1]
       [C_EMAIL_ADDRESS := EmailDraw(env, env.getFirstNameFromIndex(FirstNameDraw(env, m[C_FIRST_NAME]).0),
                                     LastNameDraw(env, m[C_LAST_NAME]).0, m[C_EMAIL_ADDRESS]).1]
       [C_LAST_REVIEW_DATE := LastReviewDateDraw(env, m[C_LAST_REVIEW_DATE]).1]
       [C_FIRST_SALES_DATE_ID := FirstSalesDateDraw(env, m[C_FIRST_SALES_DATE_ID]).1]
       [C_BIRTH_COUNTRY := BirthCountryDraw(env, m[C_BIRTH_COUNTRY]).1]
       [C_NULLS := NullsDraw(env, m[C_NULLS]).1]
  {
  }

  /** The columns whose streams, as they were when the row began, a field's value depends on. */
  function StreamsRead(f: Field): (columns: set<Column>)
    ensures forall c :: c in columns ==> c in CustomerDrawOrder
    ensures f in {CustomerSk, CustomerId} <==> columns == {}
    ensures forall c, d :: c in columns && d in columns && c !in {C_FIRST_NAME, C_LAST_NAME} && d !in {C_FIRST_NAME, C_LAST_NAME} ==> c == d
    ensures f !in {Salutation, EmailAddress} ==> |columns| <= 1
  {
    match f
    case CustomerSk => {}
    case CustomerId => {}
    case CurrentCdemoSk => {C_CURRENT_CDEMO_SK}
    case CurrentHdemoSk => {C_CURRENT_HDEMO_SK}
    case CurrentAddrSk => {C_CURRENT_ADDR_SK}
    case FirstShiptoDateId => {C_FIRST_SALES_DATE_ID}
    case FirstSalesDateId => {C_FIRST_SALES_DATE_ID}
    case Salutation => {C_FIRST_NAME, C_SALUTATION}
    case FirstName => {C_FIRST_NAME}
    case LastName => {C_LAST_NAME}
    case PreferredCustFlag => {C_PREFERRED_CUST_FLAG}
    case BirthDay => {C_BIRTH_DAY}
    case BirthMonth => {C_BIRTH_DAY}
    case BirthYear => {C_BIRTH_DAY}
    case BirthCountry => {C_BIRTH_COUNTRY}
    case EmailAddress => {C_FIRST_NAME, C_LAST_NAME, C_EMAIL_ADDRESS}
    case LastReviewDate => {C_LAST_REVIEW_DATE}
    case NullBitMap => {C_NULLS}
  }

  /** The customer generator object: it owns one pseudorandom stream per column,
      and generating a row advances the streams it draws from. */
  class CustomerRowGenerator<S, Sc> {
    var streams: map<Column, S>
    /** The columns drawn from so far, in order. */
    ghost var drawLog: seq<Column>

    ghost predicate Valid()
      reads this
    {
      HasAllStreams(streams)
    }

    constructor (initialStreams: map<Column, S>)
      requires HasAllStreams(initialStreams)
      ensures Valid() && streams == initialStreams && drawLog == []
    {
      streams := initialStreams;
      drawLog := [];
    }

    /** Generates the customer row `rowNumber`. Each draw reads the current state
        of its column's stream and replaces it with the state after the draw
        and records the column in `log`; `current` carries the streams from one
        draw to the next, and the generator keeps the streams and the log when the
        row is complete. The log records the order of the calls: with one stream per
        column, no value and no stream depends on that order. */
    method GenerateRowAndChildRows(rowNumber: int64, scaling: Sc, env: Collaborators<S, Sc>)
      returns (result: RowGeneratorResult)
      requires Valid()
      modifies this
      ensures Valid()
      ensures result.row == Generate(env, scaling, rowNumber, old(streams)).row
      ensures result.childRows == []
      ensures streams == Generate(env, scaling, rowNumber, old(streams)).streams
      ensures drawLog == old(drawLog) + CustomerDrawOrder
    {
      var current := streams;
      ghost var log: seq<Column> := [];

      var cCustomerSk := rowNumber;
      var cCustomerId := env.makeBusinessKey(rowNumber);
      var (randomInt, sFlag) := PreferredCustFlagDraw(env, current[C_PREFERRED_CUST_FLAG]);
      current, log := current[C_PREFERRED_CUST_FLAG := sFlag], log + [C_PREFERRED_CUST_FLAG];
      var cPreferredCustFlag := randomInt < PreferredPercent;

      var (cCurrentHdemoSk, sHdemo) := CurrentHdemoDraw(env, scaling, current[C_CURRENT_HDEMO_SK]);
      current, log := current[C_CURRENT_HDEMO_SK := sHdemo], log + [C_CURRENT_HDEMO_SK];
      var (cCurrentCdemoSk, sCdemo) := CurrentCdemoDraw(env, scaling, current[C_CURRENT_CDEMO_SK]);
      current, log := current[C_CURRENT_CDEMO_SK := sCdemo], log + [C_CURRENT_CDEMO_SK];
      var (cCurrentAddrSk, sAddr) := CurrentAddrDraw(env, scaling, cCustomerSk, current[C_CURRENT_ADDR_SK]);
      current, log := current[C_CURRENT_ADDR_SK := sAddr], log + [C_CURRENT_ADDR_SK];

      var (nameIndex, sFirstName) := FirstNameDraw(env, current[C_FIRST_NAME]);
      current, log := current[C_FIRST_NAME := sFirstName], log + [C_FIRST_NAME];
      var cFirstName := env.getFirstNameFromIndex(nameIndex);
      var (cLastName, sLastName) := LastNameDraw(env, current[C_LAST_NAME]);
      current, log := current[C_LAST_NAME := sLastName], log + [C_LAST_NAME];
      var (cSalutation, sSalutation) := SalutationDraw(env, nameIndex, current[C_SALUTATION]);
      current, log := current[C_SALUTATION := sSalutation], log + [C_SALUTATION];

      var (birthday, sBirthday) := BirthdayDraw(env, current[C_BIRTH_DAY]);
      current, log := current[C_BIRTH_DAY := sBirthday], log + [C_BIRTH_DAY];
      var cBirthDay := birthday.day;
      var cBirthMonth := birthday.month;
      var cBirthYear := birthday.year;

      var (cEmailAddress, sEmail) := EmailDraw(env, cFirstName, cLastName, current[C_EMAIL_ADDRESS]);
      current, log := current[C_EMAIL_ADDRESS := sEmail], log + [C_EMAIL_ADDRESS];
      var (cLastReviewDate, sReview) := LastReviewDateDraw(env, current[C_LAST_REVIEW_DATE]);
      current, log := current[C_LAST_REVIEW_DATE := sReview], log + [C_LAST_REVIEW_DATE];
      var (cFirstSalesDateId, sSales) := FirstSalesDateDraw(env, current[C_FIRST_SALES_DATE_ID]);
      current, log := current[C_FIRST_SALES_DATE_ID := sSales], log + [C_FIRST_SALES_DATE_ID];
      var cFirstShiptoDateId := FirstShiptoDate(cFirstSalesDateId);

      var (cBirthCountry, sCountry) := BirthCountryDraw(env, current[C_BIRTH_COUNTRY]);
      current, log := current[C_BIRTH_COUNTRY := sCountry], log + [C_BIRTH_COUNTRY];

      var (nullBitMap, sNulls) := NullsDraw(env, current[C_NULLS]);
      current, log := current[C_NULLS := sNulls], log + [C_NULLS];

      assert log == CustomerDrawOrder;
      StreamsAdvancedInDrawOrder(env, scaling, rowNumber, streams);
      streams, drawLog := current, drawLog + log;
      result := RowGeneratorResult(
        CustomerRow(
          cCustomerSk, cCustomerId, cCurrentCdemoSk, cCurrentHdemoSk, cCurrentAddrSk,
          cFirstShiptoDateId, cFirstSalesDateId, cSalutation, cFirstName, cLastName,
          cPreferredCustFlag, cBirthDay, cBirthMonth, cBirthYear, cBirthCountry,
          cEmailAddress, cLastReviewDate, nullBitMap),
        []);
    }
  }
}
