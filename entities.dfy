/** The records the screens receive from the backend, as the front end sees
    them. Optional JSON fields are `Option`s; the denormalised engineer and
    project snapshots an assignment carries may be absent. */
module Entities {
  import opened Basics

  const ManagerRole: string := "manager"
  const EngineerRole: string := "engineer"

  /** The signed-in user returned by the session store. An absent id is the empty string. */
  datatype User = User(id: string, role: string, name: string)

  datatype Engineer = Engineer(
    id: string,
    name: string,
    email: string,
    role: string,
    seniority: Option<string>,
    department: Option<string>,
    skills: seq<string>,
    availability: int)

  datatype Project = Project(
    id: string,
    name: string,
    description: Option<string>,
    status: string,
    startDate: string,
    endDate: Option<string>,
    teamSize: int,
    requiredSkills: seq<string>,
    managerId: string)

  /** The engineer snapshot embedded in an assignment. */
  datatype EngineerRef = EngineerRef(name: Option<string>, skills: Option<seq<string>>)

  /** The project snapshot embedded in an assignment. */
  datatype ProjectRef = ProjectRef(name: Option<string>)

  datatype Assignment = Assignment(
    id: string,
    engineerId: string,
    projectId: string,
    role: string,
    allocationPercentage: int,
    startDate: string,
    endDate: Option<string>,
    createdAt: string,
    engineer: Option<EngineerRef>,
    project: Option<ProjectRef>)

  /** The capacity summary of one engineer. */
  datatype EngineerCapacity = EngineerCapacity(
    engineerId: string,
    totalCapacity: int,
    usedCapacity: int,
    availableCapacity: int)

  /** `allocationPercentage` read by the sums and averages. */
  function Allocation(a: Assignment): int { a.allocationPercentage }
}
