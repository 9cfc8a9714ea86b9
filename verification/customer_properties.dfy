/** What the customer generator guarantees, stated about `Generate` (which the
    generator's method is proved to compute) for every choice of collaborators,
    unless a property names an assumption about them. */
module CustomerProperties {
  import opened JavaInt
  import opened Schema
  import opened Collaborators
  import opened CustomerGenerator

  /** The columns whose streams, as they were when the row began, the state of
      `column`'s stream after the row depends on: its own, and for the salutation
      and the email address also those of the names they are made from. */
  function DrawInputs(column: Column): (columns: set<Column>)
    ensures column in columns
    ensures forall c :: c in columns && c != column ==> c in {C_FIRST_NAME, C_LAST_NAME}
    ensures column !in {C_SALUTATION, C_EMAIL_ADDRESS} ==> columns == {column}
  {
    match column
    case C_SALUTATION => {C_FIRST_NAME, C_SALUTATION}
    case C_EMAIL_ADDRESS => {C_FIRST_NAME, C_LAST_NAME, C_EMAIL_ADDRESS}
    case _ => {column}
  }

  /** The surrogate key is the row number, and the business key is a function of
      the row number alone, whatever state the streams are in. */
  lemma KeysFromRowNumber<S, Sc>(env: Collaborators<S, Sc>, scaling: Sc, rowNumber: int64,
                                 m1: map<Column, S>, m2: map<Column, S>)
    requires HasAllStreams(m1) && HasAllStreams(m2)
    ensures Generate(env, scaling, rowNumber, m1).row.cCustomerSk == rowNumber
    ensures Generate(env, scaling, rowNumber, m1).row.cCustomerId == env.makeBusinessKey(rowNumber)
    ensures Generate(env, scaling, rowNumber, m1).row.cCustomerId == Generate(env, scaling, rowNumber, m2).row.cCustomerId
  {
  }

  /** The customer is preferred exactly when the draw from [1, 100] on the
      preferred-customer stream is below 50; when that draw respects its bounds,
      exactly when it is in [1, 49]. */
  lemma PreferredFlagThreshold<S, Sc>(env: Collaborators<S, Sc>, scaling: Sc, rowNumber: int64, m: map<Column, S>)
    requires HasAllStreams(m)
    ensures var draw := env.generateUniformRandomInt(1, 100, m[C_PREFERRED_CUST_FLAG]).0;
      && (Generate(env, scaling, rowNumber, m).row.cPreferredCustFlag <==> draw < 50)
      && (IntDrawInBounds(env, 1, 100, m[C_PREFERRED_CUST_FLAG]) ==>
            (Generate(env, scaling, rowNumber, m).row.cPreferredCustFlag <==> 1 <= draw <= 49))
  {
  }

  /** The demographics keys are generated with anchor 1, the address key with the
      customer's own key; each from its own column's stream and the given scaling,
      and each lands in its own field of the row (cdemo before hdemo). */
  lemma JoinKeyAnchors<S, Sc>(env: Collaborators<S, Sc>, scaling: Sc, rowNumber: int64, m: map<Column, S>)
    requires HasAllStreams(m)
    ensures var g := Generate(env, scaling, rowNumber, m);
      var hdemo := env.generateJoinKey(C_CURRENT_HDEMO_SK, HOUSEHOLD_DEMOGRAPHICS, 1, scaling, m[C_CURRENT_HDEMO_SK]);
      var cdemo := env.generateJoinKey(C_CURRENT_CDEMO_SK, CUSTOMER_DEMOGRAPHICS, 1, scaling, m[C_CURRENT_CDEMO_SK]);
      var addr := env.generateJoinKey(C_CURRENT_ADDR_SK, CUSTOMER_ADDRESS, rowNumber, scaling, m[C_CURRENT_ADDR_SK]);
      && g.row.cCurrentHdemoSk == hdemo.0 && g.streams[C_CURRENT_HDEMO_SK] == hdemo.1
      && g.row.cCurrentCdemoSk == cdemo.0 && g.streams[C_CURRENT_CDEMO_SK] == cdemo.1
      && g.row.cCurrentAddrSk == addr.0 && g.streams[C_CURRENT_ADDR_SK] == addr.1
  {
  }

  /** The salutation comes from the MALE table exactly when the chosen first name
      has weight 0 among female first names, and from the FEMALE table otherwise;
      either way it is one draw on the salutation stream. */
  lemma SalutationConditioning<S, Sc>(env: Collaborators<S, Sc>, scaling: Sc, rowNumber: int64, m: map<Column, S>)
    requires HasAllStreams(m)
    ensures var g := Generate(env, scaling, rowNumber, m);
      var nameIndex := env.pickRandomIndex(GENERAL_FREQUENCY, m[C_FIRST_NAME]).0;
      var table := if env.getWeightForIndex(nameIndex, FEMALE_FREQUENCY) == 0 then MALE else FEMALE;
      && g.row.cFirstName == env.getFirstNameFromIndex(nameIndex)
      && g.row.cSalutation == env.pickRandomSalutation(table, m[C_SALUTATION]).0
      && g.streams[C_SALUTATION] == env.pickRandomSalutation(table, m[C_SALUTATION]).1
  {
  }

  /** The last name and the birth country are each one draw on their own stream,
      and the email address is one draw on its own stream made from the row's first
      and last names; each of the three streams advances by exactly that draw. */
  lemma TextFieldsDrawn<S, Sc>(env: Collaborators<S, Sc>, scaling: Sc, rowNumber: int64, m: map<Column, S>)
    requires HasAllStreams(m)
    ensures var g := Generate(env, scaling, rowNumber, m);
      var email := env.generateRandomEmail(g.row.cFirstName, g.row.cLastName, m[C_EMAIL_ADDRESS]);
      && g.row.cLastName == env.pickRandomLastName(m[C_LAST_NAME]).0
      && g.streams[C_LAST_NAME] == env.pickRandomLastName(m[C_LAST_NAME]).1
      && g.row.cBirthCountry == env.pickRandomCountry(m[C_BIRTH_COUNTRY]).0
      && g.streams[C_BIRTH_COUNTRY] == env.pickRandomCountry(m[C_BIRTH_COUNTRY]).1
      && g.row.cEmailAddress == email.0 && g.streams[C_EMAIL_ADDRESS] == email.1
  {
  }

  /** Birth day, month and year are the parts of one date drawn on the birth-day
      stream between 1924-01-01 and 1992-12-31; when that draw respects its
      bounds, the date lies between them. */
  lemma BirthDateInRange<S, Sc>(env: Collaborators<S, Sc>, scaling: Sc, rowNumber: int64, m: map<Column, S>)
    requires HasAllStreams(m)
    ensures var row := Generate(env, scaling, rowNumber, m).row;
      var birthday := Date(row.cBirthYear, row.cBirthMonth, row.cBirthDay);
      && birthday == env.generateUniformRandomDate(Date(1924, 1, 1), Date(1992, 12, 31), m[C_BIRTH_DAY]).0
      && (DateDrawInBounds(env, Date(1924, 1, 1), Date(1992, 12, 31), m[C_BIRTH_DAY]) ==>
            env.toJulianDays(Date(1924, 1, 1)) <= env.toJulianDays(birthday) <= env.toJulianDays(Date(1992, 12, 31)))
  {
  }

  /** The last-review date is the Julian day of one date drawn on its own stream
      between the dates of Julian days today - 365 and today; the first-sales date
      likewise with today - 3650, both subtractions in Java `int` arithmetic. Each
      of the two streams advances by exactly that draw. */
  lemma ReviewAndSalesDatesDrawn<S, Sc>(env: Collaborators<S, Sc>, scaling: Sc, rowNumber: int64, m: map<Column, S>)
    requires HasAllStreams(m)
    ensures var g := Generate(env, scaling, rowNumber, m);
      var today := env.julianTodaysDate;
      var review := env.generateUniformRandomDate(env.fromJulianDays(SubInt32(today, 365)), env.fromJulianDays(today), m[C_LAST_REVIEW_DATE]);
      var sales := env.generateUniformRandomDate(env.fromJulianDays(SubInt32(today, 3650)), env.fromJulianDays(today), m[C_FIRST_SALES_DATE_ID]);
      && g.row.cLastReviewDate == env.toJulianDays(review.0) && g.streams[C_LAST_REVIEW_DATE] == review.1
      && g.row.cFirstSalesDateId == env.toJulianDays(sales.0) && g.streams[C_FIRST_SALES_DATE_ID] == sales.1
  {
  }

  /** When the two date draws respect their bounds and Julian conversion
      round-trips at today, today - 365 and today - 3650, the last-review date lies
      within the last 365 days and the first-sales date within the last 3650
      days, both as Julian day numbers. */
  lemma ReviewAndSalesDatesInRange<S, Sc>(env: Collaborators<S, Sc>, scaling: Sc, rowNumber: int64, m: map<Column, S>)
    requires HasAllStreams(m)
    requires MinInt32 + 3650 <= env.julianTodaysDate
    requires var today := env.julianTodaysDate;
      && DateDrawInBounds(env, env.fromJulianDays(today - 365), env.fromJulianDays(today), m[C_LAST_REVIEW_DATE])
      && DateDrawInBounds(env, env.fromJulianDays(today - 3650), env.fromJulianDays(today), m[C_FIRST_SALES_DATE_ID])
      && JulianRoundTripAt(env, today) && JulianRoundTripAt(env, today - 365) && JulianRoundTripAt(env, today - 3650)
    ensures var row := Generate(env, scaling, rowNumber, m).row;
      && env.julianTodaysDate - 365 <= row.cLastReviewDate <= env.julianTodaysDate
      && env.julianTodaysDate - 3650 <= row.cFirstSalesDateId <= env.julianTodaysDate
  {
  }

  /** The first ship-to date is the first-sales date plus 30 in Java `int`
      arithmetic, and no stream is drawn for it. */
  lemma ShiptoDateFollowsSales<S, Sc>(env: Collaborators<S, Sc>, scaling: Sc, rowNumber: int64, m: map<Column, S>)
    requires HasAllStreams(m)
    ensures var g := Generate(env, scaling, rowNumber, m);
      && (g.row.cFirstSalesDateId <= MaxInt32 - 30 ==> g.row.cFirstShiptoDateId == g.row.cFirstSalesDateId + 30)
      && (g.row.cFirstSalesDateId > MaxInt32 - 30 ==> g.row.cFirstShiptoDateId == g.row.cFirstSalesDateId + 30 - Modulus32)
      && g.streams[C_FIRST_SHIPTO_DATE_ID] == m[C_FIRST_SHIPTO_DATE_ID]
  {
  }

  /** When the first-sales draw respects its bounds, Julian conversion round-trips
      at today and today - 3650, and today is at least 30 below the largest `int`,
      the ship-to date is exactly 30 days after the first sale and at most 30 days
      after today. */
  lemma ShiptoDateExact<S, Sc>(env: Collaborators<S, Sc>, scaling: Sc, rowNumber: int64, m: map<Column, S>)
    requires HasAllStreams(m)
    requires MinInt32 + 3650 <= env.julianTodaysDate <= MaxInt32 - 30
    requires var today := env.julianTodaysDate;
      && DateDrawInBounds(env, env.fromJulianDays(today - 3650), env.fromJulianDays(today), m[C_FIRST_SALES_DATE_ID])
      && JulianRoundTripAt(env, today) && JulianRoundTripAt(env, today - 3650)
    ensures var row := Generate(env, scaling, rowNumber, m).row;
      && row.cFirstShiptoDateId == row.cFirstSalesDateId + 30
      && env.julianTodaysDate - 3620 <= row.cFirstShiptoDateId <= env.julianTodaysDate + 30
  {
    ReviewAndSalesDatesDrawn(env, scaling, rowNumber, m);
    ShiptoDateFollowsSales(env, scaling, rowNumber, m);
  }

  /** The null mask is computed for the CUSTOMER table from the nulls stream, which
      advances by exactly that draw. */
  lemma NullBitMapFromNullsStream<S, Sc>(env: Collaborators<S, Sc>, scaling: Sc, rowNumber: int64, m: map<Column, S>)
    requires HasAllStreams(m)
    ensures var g := Generate(env, scaling, rowNumber, m);
      && g.row.nullBitMap == env.createNullBitMap(CUSTOMER, m[C_NULLS]).0
      && g.streams[C_NULLS] == env.createNullBitMap(CUSTOMER, m[C_NULLS]).1
  {
  }

  /** After the row every column still has a stream; the preferred-flag, first-name
      and birth-day streams have advanced by exactly their one draw (the other ten
      drawn streams are stated with the fields they produce), and every column the
      row does not draw from keeps its stream. */
  lemma EachStreamDrawnOnce<S, Sc>(env: Collaborators<S, Sc>, scaling: Sc, rowNumber: int64, m: map<Column, S>)
    requires HasAllStreams(m)
    ensures var g := Generate(env, scaling, rowNumber, m);
      && HasAllStreams(g.streams)
      && g.streams[C_PREFERRED_CUST_FLAG] == env.generateUniformRandomInt(1, 100, m[C_PREFERRED_CUST_FLAG]).1
      && g.streams[C_FIRST_NAME] == env.pickRandomIndex(GENERAL_FREQUENCY, m[C_FIRST_NAME]).1
      && g.streams[C_BIRTH_DAY] == env.generateUniformRandomDate(Date(1924, 1, 1), Date(1992, 12, 31), m[C_BIRTH_DAY]).1
      && forall c :: c !in CustomerDrawOrder ==> g.streams[c] == m[c]
  {
  }

  /** A field's value depends only on the row number and the streams it reads:
      two stream maps that agree on those streams give the field the same value. */
  lemma FieldReadsOnlyItsStreams<S, Sc>(env: Collaborators<S, Sc>, scaling: Sc, rowNumber: int64,
                                        m1: map<Column, S>, m2: map<Column, S>, f: Field)
    requires HasAllStreams(m1) && HasAllStreams(m2)
    requires forall d :: d in StreamsRead(f) ==> m1[d] == m2[d]
    ensures FieldValue(Generate(env, scaling, rowNumber, m1).row, f) == FieldValue(Generate(env, scaling, rowNumber, m2).row, f)
  {
    match f
    case CustomerSk =>
    case CustomerId =>
    case CurrentCdemoSk =>
    case CurrentHdemoSk =>
    case CurrentAddrSk =>
    case FirstShiptoDateId =>
    case FirstSalesDateId =>
    case Salutation =>
    case FirstName =>
    case LastName =>
    case PreferredCustFlag =>
    case BirthDay =>
    case BirthMonth =>
    case BirthYear =>
    case BirthCountry =>
    case EmailAddress =>
    case LastReviewDate =>
    case NullBitMap =>
  }

  /** A stream's state after the row depends only on the streams its draw reads. */
  lemma StreamReadsOnlyItsInputs<S, Sc>(env: Collaborators<S, Sc>, scaling: Sc, rowNumber: int64,
                                        m1: map<Column, S>, m2: map<Column, S>, column: Column)
    requires HasAllStreams(m1) && HasAllStreams(m2)
    requires forall d :: d in DrawInputs(column) ==> m1[d] == m2[d]
    ensures StreamAfter(env, scaling, rowNumber, m1, column) == StreamAfter(env, scaling, rowNumber, m2, column)
  {
    match column
    case C_CUSTOMER_SK =>
    case C_CUSTOMER_ID =>
    case C_CURRENT_CDEMO_SK =>
    case C_CURRENT_HDEMO_SK =>
    case C_CURRENT_ADDR_SK =>
    case C_FIRST_SHIPTO_DATE_ID =>
    case C_FIRST_SALES_DATE_ID =>
    case C_SALUTATION =>
    case C_FIRST_NAME =>
    case C_LAST_NAME =>
    case C_PREFERRED_CUST_FLAG =>
    case C_BIRTH_DAY =>
    case C_BIRTH_MONTH =>
    case C_BIRTH_YEAR =>
    case C_BIRTH_COUNTRY =>
    case C_LOGIN =>
    case C_EMAIL_ADDRESS =>
    case C_LAST_REVIEW_DATE =>
    case C_NULLS =>
  }

  /** Stream isolation: if two stream maps differ at most in the stream of column
      `c`, every field that does not read `c` has the same value in both rows, and
      every stream whose draw does not read `c` ends in the same state. */
  lemma StreamIsolation<S, Sc>(env: Collaborators<S, Sc>, scaling: Sc, rowNumber: int64,
                               m1: map<Column, S>, m2: map<Column, S>, c: Column)
    requires HasAllStreams(m1) && HasAllStreams(m2)
    requires forall d :: d != c ==> m1[d] == m2[d]
    ensures var g1, g2 := Generate(env, scaling, rowNumber, m1), Generate(env, scaling, rowNumber, m2);
      && (forall f :: c !in StreamsRead(f) ==> FieldValue(g1.row, f) == FieldValue(g2.row, f))
      && (forall d :: c !in DrawInputs(d) ==> g1.streams[d] == g2.streams[d])
  {
    forall f | c !in StreamsRead(f)
      ensures FieldValue(Generate(env, scaling, rowNumber, m1).row, f) == FieldValue(Generate(env, scaling, rowNumber, m2).row, f)
    {
      FieldReadsOnlyItsStreams(env, scaling, rowNumber, m1, m2, f);
    }
    forall d | c !in DrawInputs(d)
      ensures Generate(env, scaling, rowNumber, m1).streams[d] == Generate(env, scaling, rowNumber, m2).streams[d]
    {
      StreamReadsOnlyItsInputs(env, scaling, rowNumber, m1, m2, d);
    }
  }

  /** Determinism: the row, and the streams it draws from afterwards, depend only
      on the row number and the states of the drawn columns' streams. */
  lemma Determinism<S, Sc>(env: Collaborators<S, Sc>, scaling: Sc, rowNumber: int64,
                           m1: map<Column, S>, m2: map<Column, S>)
    requires HasAllStreams(m1) && HasAllStreams(m2)
    requires forall c :: c in CustomerDrawOrder ==> m1[c] == m2[c]
    ensures var g1, g2 := Generate(env, scaling, rowNumber, m1), Generate(env, scaling, rowNumber, m2);
      && g1.row == g2.row
      && forall c :: c in CustomerDrawOrder ==> g1.streams[c] == g2.streams[c]
  {
    var g1, g2 := Generate(env, scaling, rowNumber, m1), Generate(env, scaling, rowNumber, m2);
    forall f ensures FieldValue(g1.row, f) == FieldValue(g2.row, f) {
      FieldReadsOnlyItsStreams(env, scaling, rowNumber, m1, m2, f);
    }
    RowsEqualByFields(g1.row, g2.row);
    forall c | c in CustomerDrawOrder ensures g1.streams[c] == g2.streams[c] {
      StreamReadsOnlyItsInputs(env, scaling, rowNumber, m1, m2, c);
    }
  }
}
