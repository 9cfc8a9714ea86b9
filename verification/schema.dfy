/** The values the customer generator works with: table and column identities,
    calendar dates, the name and salutation weight tables it names, and the
    customer row itself. */
module Schema {
  import opened JavaInt

  /** The tables the customer generator refers to. */
  datatype Table = CUSTOMER | CUSTOMER_ADDRESS | CUSTOMER_DEMOGRAPHICS | HOUSEHOLD_DEMOGRAPHICS

  /** Column identities of the customer table; each one selects its own
      pseudorandom stream and is never used as a value. The enumeration follows
      the columns of the TPC-DS customer table, plus the stream of the null mask. */
  datatype Column =
    | C_CUSTOMER_SK | C_CUSTOMER_ID | C_CURRENT_CDEMO_SK | C_CURRENT_HDEMO_SK
    | C_CURRENT_ADDR_SK | C_FIRST_SHIPTO_DATE_ID | C_FIRST_SALES_DATE_ID
    | C_SALUTATION | C_FIRST_NAME | C_LAST_NAME | C_PREFERRED_CUST_FLAG
    | C_BIRTH_DAY | C_BIRTH_MONTH | C_BIRTH_YEAR | C_BIRTH_COUNTRY | C_LOGIN
    | C_EMAIL_ADDRESS | C_LAST_REVIEW_DATE | C_NULLS

  /** The first-name weight columns the generator reads. */
  datatype FirstNamesWeights = GENERAL_FREQUENCY | FEMALE_FREQUENCY

  /** The salutation weight columns the generator samples from. */
  datatype SalutationsWeights = MALE | FEMALE

  /** A calendar date as the generator's `Date` holds it. */
  datatype Date = Date(year: int32, month: int32, day: int32)

  /** One row of the customer table, its fields in the order of the row's
      constructor, ending with the packed null mask. */
  datatype CustomerRow = CustomerRow(
    cCustomerSk: int64,
    cCustomerId: string,
    cCurrentCdemoSk: int64,
    cCurrentHdemoSk: int64,
    cCurrentAddrSk: int64,
    cFirstShiptoDateId: int32,
    cFirstSalesDateId: int32,
    cSalutation: string,
    cFirstName: string,
    cLastName: string,
    cPreferredCustFlag: bool,
    cBirthDay: int32,
    cBirthMonth: int32,
    cBirthYear: int32,
    cBirthCountry: string,
    cEmailAddress: string,
    cLastReviewDate: int32,
    nullBitMap: int64)

  /** What a generator returns: the row and, for hierarchical tables, its child
      rows; the customer table is flat. */
  datatype RowGeneratorResult = RowGeneratorResult(row: CustomerRow, childRows: seq<CustomerRow>)

  /** The fields of a customer row, named so that properties can range over them. */
  datatype Field =
    | CustomerSk | CustomerId | CurrentCdemoSk | CurrentHdemoSk | CurrentAddrSk
    | FirstShiptoDateId | FirstSalesDateId | Salutation | FirstName | LastName
    | PreferredCustFlag | BirthDay | BirthMonth | BirthYear | BirthCountry
    | EmailAddress | LastReviewDate | NullBitMap

  /** A field's value, whatever its type. */
  datatype Value = Number(n: int) | Text(s: string) | Flag(b: bool)

  function FieldValue(row: CustomerRow, f: Field): (v: Value)
  {
    match f
    case CustomerSk => Number(row.cCustomerSk)
    case CustomerId => Text(row.cCustomerId)
    case CurrentCdemoSk => Number(row.cCurrentCdemoSk)
    case CurrentHdemoSk => Number(row.cCurrentHdemoSk)
    case CurrentAddrSk => Number(row.cCurrentAddrSk)
    case FirstShiptoDateId => Number(row.cFirstShiptoDateId)
    case FirstSalesDateId => Number(row.cFirstSalesDateId)
    case Salutation => Text(row.cSalutation)
    case FirstName => Text(row.cFirstName)
    case LastName => Text(row.cLastName)
    case PreferredCustFlag => Flag(row.cPreferredCustFlag)
    case BirthDay => Number(row.cBirthDay)
    case BirthMonth => Number(row.cBirthMonth)
    case BirthYear => Number(row.cBirthYear)
    case BirthCountry => Text(row.cBirthCountry)
    case EmailAddress => Text(row.cEmailAddress)
    case LastReviewDate => Number(row.cLastReviewDate)
    case NullBitMap => Number(row.nullBitMap)
  }

  /** Rows whose fields all agree are equal. */
  lemma RowsEqualByFields(r1: CustomerRow, r2: CustomerRow)
    requires forall f :: FieldValue(r1, f) == FieldValue(r2, f)
    ensures r1 == r2
  {
    assert FieldValue(r1, CustomerSk) == FieldValue(r2, CustomerSk);
    assert FieldValue(r1, CustomerId) == FieldValue(r2, CustomerId);
    assert FieldValue(r1, CurrentCdemoSk) == FieldValue(r2, CurrentCdemoSk);
    assert FieldValue(r1, CurrentHdemoSk) == FieldValue(r2, CurrentHdemoSk);
    assert FieldValue(r1, CurrentAddrSk) == FieldValue(r2, CurrentAddrSk);
    assert FieldValue(r1, FirstShiptoDateId) == FieldValue(r2, FirstShiptoDateId);
    assert FieldValue(r1, FirstSalesDateId) == FieldValue(r2, FirstSalesDateId);
    assert FieldValue(r1, Salutation) == FieldValue(r2, Salutation);
    assert FieldValue(r1, FirstName) == FieldValue(r2, FirstName);
    assert FieldValue(r1, LastName) == FieldValue(r2, LastName);
    assert FieldValue(r1, PreferredCustFlag) == FieldValue(r2, PreferredCustFlag);
    assert FieldValue(r1, BirthDay) == FieldValue(r2, BirthDay);
    assert FieldValue(r1, BirthMonth) == FieldValue(r2, BirthMonth);
    assert FieldValue(r1, BirthYear) == FieldValue(r2, BirthYear);
    assert FieldValue(r1, BirthCountry) == FieldValue(r2, BirthCountry);
    assert FieldValue(r1, EmailAddress) == FieldValue(r2, EmailAddress);
    assert FieldValue(r1, LastReviewDate) == FieldValue(r2, LastReviewDate);
    assert FieldValue(r1, NullBitMap) == FieldValue(r2, NullBitMap);
  }
}
