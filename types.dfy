/**
 * The shared data shapes of types.ts: a unit owner (`Neighbor`), the aggregate
 * petition statistics (`BuildingStats`) and the static building facts.
 * They carry no behaviour of their own.
 */
module Types {
  import opened Wrappers

  /** An owner's stance on the petition. */
  datatype Status = Signed | Pending | Opposed

  /** The optional role of an owner within the building team. */
  datatype Role = Admin | Member

  /** Whether the team has a way to reach an owner. */
  datatype ContactStatus = Available | Missing

  /** One record per building unit and its owner. */
  datatype Neighbor = Neighbor(
    id: string,
    unit: string,
    name: string,
    status: Status,
    isResident: bool,
    role: Option<Role>,
    contactStatus: ContactStatus)

  /** The aggregate figures the dashboard displays. */
  datatype BuildingStats = BuildingStats(totalUnits: int, signedUnits: int, targetUnits: int)

  /** Static facts about the building's ownership structure, shown as text. */
  datatype BuildingFacts = BuildingFacts(freeholderName: string, managingAgent: string, annualFees: string)
}
