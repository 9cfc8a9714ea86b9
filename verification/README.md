# TPC-DS customer row generator

A Dafny model of the customer row generator of a TPC-DS data generator written in
Java (`CustomerRowGenerator.generateRowAndChildRows`). The generator turns a row
number into one row of the TPC-DS `customer` table. Every random attribute is drawn
from a pseudorandom stream that belongs to that attribute's column. Each draw
advances only that stream, and the draws happen one after the other in a fixed
order. A few fixed rules turn the draws into the row:

- the surrogate key is the row number;
- the customer is preferred when a draw from [1, 100] is below 50;
- the demographics keys use the cardinality anchor 1 and the address key uses the customer's own key;
- the salutation table (male or female) follows the chosen first name;
- the birth date is drawn between 1924-01-01 and 1992-12-31;
- the last-review and first-sales dates are drawn back from "today";
- the first ship-to date is the first-sales date plus 30;
- the last name and the birth country are one draw each, and the email address is made from the first and last names with one draw;
- the null mask is computed last.

Files:

- `java_int.dfy` (module `JavaInt`): Java `int` and `long` as bounded integers, with the two's-complement wrap-around of `int` addition and subtraction that the date arithmetic uses.
- `schema.dfy` (module `Schema`): the tables, the column identities that select streams, dates, the weight tables the generator names, the customer row, and a field-by-field view of the row.
- `collaborators.dfy` (module `Collaborators`): everything the generator calls but does not contain, as a record of functions.
  - A drawing function takes the state of a stream (an opaque type `S`) and returns the value and the stream's next state.
  - Scaling is an opaque type `Sc`.
  - Three predicates state what a property may assume about one call a row makes: that a draw on a given stream state respects its bounds, and that Julian conversion round-trips at a given day.
- `customer_generator.dfy` (module `CustomerGenerator`): holds the specification and the generator object.
  - `Generate`, the specification: the row and the streams after it, as functions of the row number and the streams when the row begins.
  - `CustomerRowGenerator`, the generator object: it holds the per-column streams and draws from them in the source's order. Its method is proved to compute `Generate`.
- `customer_properties.dfy` (module `CustomerProperties`): the generator's rules, stream isolation and determinism, stated and proved about `Generate`.

## Model

| member | source | states |
|---|---|---|
| CustomerGenerator.CustomerRowGenerator.constructor | src/main/java/io/prestosql/tpcds/row/generator/CustomerRowGenerator.java:62-65 | a new customer generator holds a stream for every column, as given, and has drawn nothing yet |
| CustomerGenerator.CustomerRowGenerator.GenerateRowAndChildRows | src/main/java/io/prestosql/tpcds/row/generator/CustomerRowGenerator.java:68-124 | the method draws once from each of the 13 drawn columns' streams, each draw reading and advancing the current state of its own column's stream; its row and its new streams are exactly those of `Generate` from the streams before the call; it returns no child rows; its ghost log records the columns in the order of the calls, `CustomerDrawOrder` |
| CustomerGenerator.StreamsAdvancedInDrawOrder | src/main/java/io/prestosql/tpcds/row/generator/CustomerRowGenerator.java:72-123 | advancing the 13 drawn streams one after the other, in draw order, leaves the same streams as `Generate` |
| CustomerGenerator.StreamsRead | src/main/java/io/prestosql/tpcds/row/generator/CustomerRowGenerator.java:70-123 | the columns whose streams each field is drawn from all belong to the draw order; only the surrogate and business keys read no stream; a field reads at most one column besides the first-name and last-name columns, and only the salutation and the email address read more than one column |
| CustomerProperties.DrawInputs | src/main/java/io/prestosql/tpcds/row/generator/CustomerRowGenerator.java:81-97 | a stream's state after the row depends on that stream itself; only the salutation and email streams also depend on other streams, namely the first-name and last-name streams |
| CustomerProperties.KeysFromRowNumber | src/main/java/io/prestosql/tpcds/row/generator/CustomerRowGenerator.java:70-71 | the surrogate key is the row number; the business key is the business key of the row number, the same whatever the streams hold |
| CustomerProperties.PreferredFlagThreshold | src/main/java/io/prestosql/tpcds/row/generator/CustomerRowGenerator.java:72-74 | the preferred flag is set exactly when the [1, 100] draw on the preferred-flag stream is below 50; if that one draw respects its bounds, exactly when it is in [1, 49] |
| CustomerProperties.JoinKeyAnchors | src/main/java/io/prestosql/tpcds/row/generator/CustomerRowGenerator.java:76-79 | the household and customer demographics keys are join keys with anchor 1 and the address key has the row number as anchor; each key is drawn from its own column's stream with the given scaling, lands in its own field and advances only its own stream |
| CustomerProperties.SalutationConditioning | src/main/java/io/prestosql/tpcds/row/generator/CustomerRowGenerator.java:81-85 | the first name is the one at the index drawn from the general first-name weights; the salutation is one draw on the salutation stream, from the MALE table exactly when that index has female weight 0 and from the FEMALE table otherwise |
| CustomerProperties.TextFieldsDrawn | src/main/java/io/prestosql/tpcds/row/generator/CustomerRowGenerator.java:83-104 | the last name is one last-name pick on its own stream and the birth country one country pick on its own stream; the email address is one email draw on its own stream from the row's first and last names, in that order; each of the three streams advances by exactly its draw |
| CustomerProperties.BirthDateInRange | src/main/java/io/prestosql/tpcds/row/generator/CustomerRowGenerator.java:87-95 | birth day, month and year are the parts of the one date drawn between 1924-01-01 and 1992-12-31 on the birth-day stream; if that one draw respects its bounds, the date lies within them |
| CustomerProperties.ReviewAndSalesDatesDrawn | src/main/java/io/prestosql/tpcds/row/generator/CustomerRowGenerator.java:89-101 | the last-review date is the Julian day of the one date drawn on its own stream between the dates of days today-365 and today, the first-sales date likewise with today-3650 (both subtractions in Java `int`); each of the two streams advances by exactly that draw |
| CustomerProperties.ReviewAndSalesDatesInRange | src/main/java/io/prestosql/tpcds/row/generator/CustomerRowGenerator.java:89-101 | if those two draws respect their bounds and Julian conversion round-trips at today, today-365 and today-3650, with today at least 3650 above the smallest `int`, the last-review Julian day lies in [today-365, today] and the first-sales Julian day in [today-3650, today] |
| CustomerProperties.ShiptoDateFollowsSales | src/main/java/io/prestosql/tpcds/row/generator/CustomerRowGenerator.java:100-102 | the first ship-to date is the first-sales date plus 30 in Java `int` arithmetic, wrapping when the sum passes the largest `int`; no stream is drawn for it |
| CustomerProperties.ShiptoDateExact | src/main/java/io/prestosql/tpcds/row/generator/CustomerRowGenerator.java:89-102 | if the first-sales draw respects its bounds, Julian conversion round-trips at today and today-3650, and today lies in [smallest `int` + 3650, largest `int` - 30], the ship-to date is exactly the first-sales date plus 30, within [today-3620, today+30] |
| CustomerProperties.NullBitMapFromNullsStream | src/main/java/io/prestosql/tpcds/row/generator/CustomerRowGenerator.java:123 | the null mask is the CUSTOMER-table mask drawn from the nulls stream, which advances by exactly that draw |
| CustomerProperties.EachStreamDrawnOnce | src/main/java/io/prestosql/tpcds/row/generator/CustomerRowGenerator.java:72-123 | after the row every column still has a stream; the preferred-flag stream has advanced by exactly its [1, 100] draw, the first-name stream by exactly its general-weights index pick and the birth-day stream by exactly its 1924-01-01 to 1992-12-31 date draw; and every column outside the draw order keeps its stream unchanged |
| CustomerProperties.FieldReadsOnlyItsStreams | src/main/java/io/prestosql/tpcds/row/generator/CustomerRowGenerator.java:70-123 | two stream maps that agree on the streams a field reads give that field the same value |
| CustomerProperties.StreamReadsOnlyItsInputs | src/main/java/io/prestosql/tpcds/row/generator/CustomerRowGenerator.java:72-123 | two stream maps that agree on a column's draw inputs leave that column's stream in the same state after the row |
| CustomerProperties.StreamIsolation | src/main/java/io/prestosql/tpcds/row/generator/CustomerRowGenerator.java:72-123 | changing one column's stream changes no field that does not read it, and no other stream whose draw does not read it |
| CustomerProperties.Determinism | src/main/java/io/prestosql/tpcds/row/generator/CustomerRowGenerator.java:68-124 | the row and the drawn streams after it depend only on the row number, the collaborators, the scaling and the states of the 13 drawn streams |
| JavaInt.SubInt32 | src/main/java/io/prestosql/tpcds/row/generator/CustomerRowGenerator.java:89-90 | Java `int` subtraction: the exact difference when it fits, otherwise the difference shifted by 2^32 |
| JavaInt.AddInt32 | src/main/java/io/prestosql/tpcds/row/generator/CustomerRowGenerator.java:102 | Java `int` addition: the exact sum when it fits, otherwise the sum shifted by 2^32 |

## Left out

- The pseudorandom streams themselves: seeding, skip-ahead and how a draw consumes seeds. A stream is an opaque state per column, and every drawing collaborator returns the next state.
- The bodies of the collaborators, which are not part of this model. They are left free, and a property that needs a range or round-trip fact takes it as an explicit assumption: `generateUniformRandomInt`, `generateUniformRandomDate`, `generateJoinKey`, the name, salutation and country pickers, `generateRandomEmail`, `makeBusinessKey`, `createNullBitMap`, `fromJulianDays`, `toJulianDays`.
- The distribution tables behind the name, salutation and country pickers and their loading.
- `JULIAN_TODAYS_DATE` is a field of the collaborator record rather than a fixed constant. A property holds for any "today" unless it bounds "today" in its assumptions.
- `Session`: only its scaling is passed to the method, as an opaque value. The unused parent and child generator parameters are dropped.
- The `AbstractRowGenerator` base class and its stream objects are not part of this model.
  - The generator keeps its streams as a map from column to state.
  - The method carries that map from draw to draw and stores it back once the row is complete, rather than updating thirteen stream objects in place.
- The source's column enumeration is not part of this model; `Column` lists the columns of the TPC-DS customer table and the null-mask stream, so that the columns this generator never draws from can be named.
- The order of the draws is not something the contracts can observe. With one independent stream per column, no value and no stream after the row depends on the order in which the streams are drawn. The method makes the calls in the source's order, and its ghost log records that order as written next to each draw; the log is not derived from the draws.
- Collaborators that fail. Every collaborator is a total function, so a call that throws cannot be expressed; in the source, the streams advanced before such a throw would stay advanced, and no row would be returned.
- The row and result classes are records of their fields; the outer driver, parallel or chunked generation, and output formatting are not part of this model.
- CustomerProperties.PreferredFlagThreshold: the [1, 49] range holds only if the one flag draw respects its bounds, an assumption stated in the lemma, because the uniform-draw collaborator is not modelled.
- CustomerProperties.BirthDateInRange: the range holds only if the one birth-date draw respects its bounds, an assumption stated in the lemma, because the date collaborator is not modelled.
- CustomerProperties.ReviewAndSalesDatesInRange: the ranges assume that the two date draws respect their bounds, that Julian conversion round-trips at the three days the row uses, and that "today" is at least 3650 above the smallest `int`.
- CustomerProperties.ShiptoDateExact: the exact sum assumes the first-sales draw and round-trip facts above and that "today" is at least 30 below the largest `int`; without that bound, the wrapped sum is what ShiptoDateFollowsSales states.
