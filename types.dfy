/** The records of the `types` package that the exception constructors read.
    Only the fields the constructors copy are modelled for the records whose
    declarations are not part of this model (ValIsJail, ValIsActive,
    ValRanking); ValSignMissed and Proposal follow the field order of their
    positional literals in db/evmos-db/db_test.go. */
module Types {

  /** Go's `int64`. */
  type Int64 = x: int | -0x8000_0000_0000_0000 <= x < 0x8000_0000_0000_0000

  /** Go's `int`, 64 bits wide on the platforms the monitor is built for, so
      `int64(x)` of a `GoInt` keeps its value. */
  type GoInt = Int64

  datatype ValIsJail = ValIsJail(chainName: string, moniker: string)

  datatype ValIsActive = ValIsActive(chainName: string, moniker: string)

  datatype ValRanking = ValRanking(chainName: string, blockHeight: Int64, moniker: string)

  datatype ValSignMissed = ValSignMissed(
    chainName: string,
    moniker: string,
    operatorAddr: string,
    blockHeight: GoInt)

  /** A governance proposal snapshot; the last three fields are the submitter's
      moniker and address and the status code. */
  datatype Proposal = Proposal(
    chainName: string,
    proposalId: Int64,
    votingStartTime: string,
    votingEndTime: string,
    description: string,
    moniker: string,
    operatorAddr: string,
    status: GoInt)
}
