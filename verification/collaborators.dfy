/** The code the customer generator calls but does not contain. Each collaborator
    is a parameter: a pure function that takes the current state of the stream it
    draws from (of the opaque type S) and returns the drawn value with the
    stream's next state. Scaling (of the opaque type Sc) is only passed through.
    Nothing is assumed about a collaborator unless a property says so through one
    of the predicates below, each about the one call a row makes. */
module Collaborators {
  import opened JavaInt
  import opened Schema

  datatype Collaborators<!S, !Sc> = Collaborators(
    /** The fixed-width business key of a row number; draws nothing. */
    makeBusinessKey: int64 -> string,
    /** An integer drawn uniformly from [low, high]. */
    generateUniformRandomInt: (int32, int32, S) -> (int32, S),
    /** A date drawn uniformly between two dates. */
    generateUniformRandomDate: (Date, Date, S) -> (Date, S),
    /** A foreign key into a table, from the column, the cardinality anchor and the scaling. */
    generateJoinKey: (Column, Table, int64, Sc, S) -> (int64, S),
    /** An index drawn from a weighted first-name column. */
    pickRandomIndex: (FirstNamesWeights, S) -> (int32, S),
    /** The first name stored at an index; draws nothing. */
    getFirstNameFromIndex: int32 -> string,
    /** The weight of an index in a first-name weight column; draws nothing. */
    getWeightForIndex: (int32, FirstNamesWeights) -> int32,
    pickRandomLastName: S -> (string, S),
    pickRandomSalutation: (SalutationsWeights, S) -> (string, S),
    /** An email address made from a first and a last name. */
    generateRandomEmail: (string, string, S) -> (string, S),
    pickRandomCountry: S -> (string, S),
    /** The packed null mask of a row of the given table. */
    createNullBitMap: (Table, S) -> (int64, S),
    toJulianDays: Date -> int32,
    fromJulianDays: int32 -> Date,
    /** The Julian day number the generator treats as today. */
    julianTodaysDate: int32)

  /** The integer drawn from [low, high] on stream state `s` lies within those bounds. */
  ghost predicate IntDrawInBounds<S, Sc>(env: Collaborators<S, Sc>, low: int32, high: int32, s: S)
  {
    low <= env.generateUniformRandomInt(low, high, s).0 <= high
  }

  /** The date drawn between `low` and `high` on stream state `s` lies, as a Julian
      day, within those bounds. */
  ghost predicate DateDrawInBounds<S, Sc>(env: Collaborators<S, Sc>, low: Date, high: Date, s: S)
  {
    env.toJulianDays(low) <= env.toJulianDays(env.generateUniformRandomDate(low, high, s).0) <= env.toJulianDays(high)
  }

  /** Converting the Julian day number `j` to a date and back gives `j`. */
  ghost predicate JulianRoundTripAt<S, Sc>(env: Collaborators<S, Sc>, j: int32)
  {
    env.toJulianDays(env.fromJulianDays(j)) == j
  }
}
