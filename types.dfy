/** The records shared by the client (src/types/election.ts, src/types/auth.ts).
    Date strings are modelled as integer instants; ids and texts as strings. */
module Types {
  import opened Wrappers

  /** An instant in time (milliseconds since the epoch, say). */
  type Instant = int

  /** `Election['status']`. */
  datatype Status = Draft | Active | Completed

  /** `User['role']`. */
  datatype Role = Student | Admin

  datatype User = User(id: string, email: string, role: Role, studentId: Option<string>, name: Option<string>)

  datatype Candidate = Candidate(
    id: string,
    name: string,
    description: string,
    platform: Option<string>,
    imageUrl: Option<string>,
    electionId: string)

  /** `Omit<Candidate, 'id' | 'electionId'>`: a candidate that has not been stored yet. */
  datatype CandidateDraft = CandidateDraft(
    name: string,
    description: string,
    platform: Option<string>,
    imageUrl: Option<string>)

  datatype Election = Election(
    id: string,
    title: string,
    description: string,
    startDate: Instant,
    endDate: Instant,
    status: Status,
    allowMultipleVotes: bool,
    createdAt: Instant)

  datatype Vote = Vote(
    id: string,
    electionId: string,
    candidateId: string,
    voterId: string,
    createdAt: Instant)
}
