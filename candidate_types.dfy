/** The records the application exchanges with the candidate service. */
module CandidateTypes {
  import opened Wrappers

  /** A flat category: any status may change to any other. */
  datatype Status = Active | Interview | Rejected

  /** The status filter of the list: every status, or one. */
  datatype StatusFilter = All | Only(status: Status)

  datatype Skill = Skill(id: int, name: string)

  /** The personal fields a detail response carries and a list response omits. */
  datatype Contact = Contact(email: string, phone: string, description: string)

  /**
   * A candidate record. Timestamps are ISO-8601 strings. `contact` is `None`
   * for records from the list endpoint and `Some` for records returned by
   * create and status update.
   */
  datatype Candidate = Candidate(
    id: int,
    name: string,
    position: string,
    status: Status,
    skills: seq<Skill>,
    createdAt: string,
    updatedAt: string,
    contact: Option<Contact>)

  /** The body of a create request; absent optional fields are `None`. */
  datatype CreatePayload = CreatePayload(
    name: string,
    position: string,
    email: string,
    phone: string,
    description: Option<string>,
    status: Option<Status>,
    skillIds: Option<seq<int>>)

  /** Some record of `cs` carries `id`. */
  predicate HasId(cs: seq<Candidate>, id: int) {
    exists i :: 0 <= i < |cs| && cs[i].id == id
  }

  /** No two records of `cs` share an id. */
  predicate UniqueIds(cs: seq<Candidate>) {
    forall i, j :: 0 <= i < j < |cs| ==> cs[i].id != cs[j].id
  }
}
