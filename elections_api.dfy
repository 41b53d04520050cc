/** The record mappings of the API layer (src/lib/api/elections.ts). The
    store itself is not modelled: what it hands back to a query or an insert
    is a parameter of the operation that consumes it. */
module ElectionsApi {
  import opened Wrappers
  import opened Types

  /** What the store hands back: the data, or the error it reported. */
  datatype Fetch<+T> = Fetched(data: T) | StoreError(message: string)

  /** What the API functions throw. */
  datatype ApiError =
    | MissingElectionId          // "Election ID is required"
    | NoElectionReturned         // "No election data returned"
    | StoreFailure(message: string)

  // ---------------------------------------------------------------------
  // Reading one election

  /** A row of the `candidates` table, as embedded in an election query. */
  datatype CandidateRow = CandidateRow(
    id: string,
    name: string,
    description: string,
    image_url: Option<string>,
    election_id: string,
    platform: Option<string>)

  /** A row of the `elections` table, with its embedded candidates when the
      query asked for them. */
  datatype ElectionRow = ElectionRow(
    id: string,
    title: string,
    description: string,
    start_date: Instant,
    end_date: Instant,
    status: Status,
    allow_multiple_votes: bool,
    created_at: Instant,
    candidates: Option<seq<CandidateRow>>)

  /** What `getElection` returns: every modelled column of the row, the camel-case
      copies of the four snake-case columns, and the mapped candidates. */
  datatype MappedElection = MappedElection(
    id: string,
    title: string,
    description: string,
    start_date: Instant,
    end_date: Instant,
    status: Status,
    allow_multiple_votes: bool,
    created_at: Instant,
    startDate: Instant,
    endDate: Instant,
    allowMultipleVotes: bool,
    createdAt: Instant,
    candidates: Option<seq<Candidate>>)

  /** One embedded candidate row as the client sees it: the platform shown is
      the description, whatever the row's own platform column holds. */
  function MapCandidate(row: CandidateRow): (c: Candidate)
    ensures c.platform == Some(c.description)
  {
    Candidate(row.id, row.name, row.description, Some(row.description), row.image_url, row.election_id)
  }

  /** `candidates.map(...)`: one candidate per row, in the same order. */
  function MapCandidates(rows: seq<CandidateRow>): (r: seq<Candidate>)
    ensures |r| == |rows|
    ensures forall i :: 0 <= i < |rows| ==>
      && r[i].id == rows[i].id
      && r[i].name == rows[i].name
      && r[i].description == rows[i].description
      && r[i].imageUrl == rows[i].image_url
      && r[i].electionId == rows[i].election_id
      && r[i].platform == Some(rows[i].description)
  {
    if rows == [] then [] else [MapCandidate(rows[0])] + MapCandidates(rows[1..])
  }

  /** The camel-case fields of a mapped election agree with their
      snake-case columns. */
  predicate CaseCopiesAgree(e: MappedElection) {
    && e.startDate == e.start_date
    && e.endDate == e.end_date
    && e.allowMultipleVotes == e.allow_multiple_votes
    && e.createdAt == e.created_at
  }

  /** The object `getElection` builds from a row. */
  function MapElection(row: ElectionRow): (e: MappedElection)
    ensures e.id == row.id && e.title == row.title && e.description == row.description
    ensures e.status == row.status
    ensures e.start_date == row.start_date && e.end_date == row.end_date
    ensures e.allow_multiple_votes == row.allow_multiple_votes && e.created_at == row.created_at
    ensures CaseCopiesAgree(e)
    ensures e.candidates.None? <==> row.candidates.None?
    ensures row.candidates.Some? ==> e.candidates == Some(MapCandidates(row.candidates.value))
  {
    MappedElection(
      row.id, row.title, row.description,
      row.start_date, row.end_date, row.status, row.allow_multiple_votes, row.created_at,
      row.start_date, row.end_date, row.allow_multiple_votes, row.created_at,
      match row.candidates
      case None => None
      case Some(rows) => Some(MapCandidates(rows)))
  }

  /** `getElection(id)`: an empty id is refused before the store is asked;
      `fetched` is what the store answers for that id. */
  function GetElection(id: string, fetched: Fetch<Option<ElectionRow>>): (r: Result<Option<MappedElection>, ApiError>)
    ensures id == "" ==> r == Failure(MissingElectionId)
    ensures id != "" && fetched.StoreError? ==> r == Failure(StoreFailure(fetched.message))
    ensures id != "" && fetched == Fetched(None) ==> r == Success(None)
    ensures id != "" && fetched.Fetched? && fetched.data.Some? ==>
              r.Success? && r.value.Some? && r.value.value == MapElection(fetched.data.value)
  {
    if id == "" then Failure(MissingElectionId)
    else match fetched
      case StoreError(m) => Failure(StoreFailure(m))
      case Fetched(None) => Success(None)
      case Fetched(Some(row)) => Success(Some(MapElection(row)))
  }

  /** The empty-id guard does not depend on anything the store holds. */
  lemma EmptyIdNeverLooksUp(f1: Fetch<Option<ElectionRow>>, f2: Fetch<Option<ElectionRow>>)
    ensures GetElection("", f1) == GetElection("", f2)
    ensures GetElection("", f1).Failure?
  {
  }

  // ---------------------------------------------------------------------
  // Creating an election

  /** The argument of `createElection`. */
  datatype NewElection = NewElection(
    title: string,
    description: string,
    startDate: Instant,
    endDate: Instant,
    allowMultipleVotes: bool,
    candidates: seq<CandidateDraft>,
    status: Status)

  /** The row inserted into `elections`. */
  datatype ElectionInsert = ElectionInsert(
    title: string,
    description: string,
    start_date: Instant,
    end_date: Instant,
    allow_multiple_votes: bool,
    status: Status)

  /** A row inserted into `candidates`. */
  datatype CandidateInsert = CandidateInsert(
    name: string,
    description: string,
    image_url: Option<string>,
    election_id: string)

  function ElectionInsertRow(data: NewElection): (row: ElectionInsert)
    ensures row.title == data.title && row.description == data.description
    ensures row.start_date == data.startDate && row.end_date == data.endDate
    ensures row.allow_multiple_votes == data.allowMultipleVotes && row.status == data.status
  {
    ElectionInsert(data.title, data.description, data.startDate, data.endDate, data.allowMultipleVotes, data.status)
  }

  /** `candidate.imageUrl || null`: a missing or empty URL is stored as null. */
  function ImageUrlColumn(imageUrl: Option<string>): (column: Option<string>)
    ensures column.None? <==> imageUrl.None? || imageUrl == Some("")
    ensures column.Some? ==> column == imageUrl
  {
    match imageUrl
    case None => None
    case Some(s) => if s == "" then None else Some(s)
  }

  function CandidateInsertRow(c: CandidateDraft, electionId: string): CandidateInsert {
    CandidateInsert(c.name, c.description, ImageUrlColumn(c.imageUrl), electionId)
  }

  /** The rows inserted into `candidates` for a new election: one per
      candidate, in order, each pointing at the new election. */
  function CandidateInsertRows(candidates: seq<CandidateDraft>, electionId: string): (rows: seq<CandidateInsert>)
    ensures |rows| == |candidates|
    ensures forall i :: 0 <= i < |rows| ==>
      && rows[i].election_id == electionId
      && rows[i].name == candidates[i].name
      && rows[i].description == candidates[i].description
      && rows[i].image_url == ImageUrlColumn(candidates[i].imageUrl)
  {
    if candidates == [] then []
    else [CandidateInsertRow(candidates[0], electionId)] + CandidateInsertRows(candidates[1..], electionId)
  }

  /** What a call of `createElection` does: the election insert it issues,
      the candidate insert it issues (if it gets that far) and what it
      returns or throws. */
  datatype CreateRun = CreateRun(
    electionInsert: ElectionInsert,
    candidateInsert: Option<seq<CandidateInsert>>,
    result: Result<ElectionRow, ApiError>)

  /** `createElection(data)`. `inserted` is the store's answer to the
      election insert, `candidateError` its error for the candidate insert,
      if any. The two inserts are separate: a failing candidate insert does
      not undo the election insert. */
  function CreateElection(data: NewElection, inserted: Fetch<Option<ElectionRow>>, candidateError: Option<string>): (run: CreateRun)
    ensures run.electionInsert == ElectionInsertRow(data)
    ensures run.candidateInsert.Some? <==> inserted.Fetched? && inserted.data.Some?
    ensures run.candidateInsert.Some? ==>
              run.candidateInsert.value == CandidateInsertRows(data.candidates, inserted.data.value.id)
    ensures inserted.StoreError? ==> run.result == Failure(StoreFailure(inserted.message))
    ensures inserted == Fetched(None) ==> run.result == Failure(NoElectionReturned)
    ensures run.candidateInsert.Some? && candidateError.Some? ==>
              run.result == Failure(StoreFailure(candidateError.value))
    ensures run.result.Success? <==> run.candidateInsert.Some? && candidateError.None?
    ensures run.result.Success? ==> run.result.value == inserted.data.value
  {
    var electionInsert := ElectionInsertRow(data);
    match inserted
    case StoreError(m) => CreateRun(electionInsert, None, Failure(StoreFailure(m)))
    case Fetched(None) => CreateRun(electionInsert, None, Failure(NoElectionReturned))
    case Fetched(Some(election)) =>
      var rows := CandidateInsertRows(data.candidates, election.id);
      match candidateError
      case Some(m) => CreateRun(electionInsert, Some(rows), Failure(StoreFailure(m)))
      case None => CreateRun(electionInsert, Some(rows), Success(election))
  }

  /** A candidate row as the store keeps it after an insert: the inserted
      columns, the id the store assigned and whatever its platform column
      holds. */
  function Stored(row: CandidateInsert, id: string, platform: Option<string>): CandidateRow {
    CandidateRow(id, row.name, row.description, row.image_url, row.election_id, platform)
  }

  function StoredAll(rows: seq<CandidateInsert>, ids: seq<string>, platforms: seq<Option<string>>): (r: seq<CandidateRow>)
    requires |ids| == |rows| && |platforms| == |rows|
    ensures |r| == |rows|
    ensures forall i :: 0 <= i < |rows| ==> r[i] == Stored(rows[i], ids[i], platforms[i])
  {
    seq(|rows|, i requires 0 <= i < |rows| => Stored(rows[i], ids[i], platforms[i]))
  }

  /** Reading back the candidates inserted for a new election: names and
      descriptions survive, each points at the election, an empty URL comes
      back as null, and the platform shown is the description (a draft's own
      platform is never sent). */
  lemma CreatedCandidatesReadBack(
    drafts: seq<CandidateDraft>, electionId: string, ids: seq<string>, platforms: seq<Option<string>>)
    requires |ids| == |drafts| && |platforms| == |drafts|
    ensures var back := MapCandidates(StoredAll(CandidateInsertRows(drafts, electionId), ids, platforms));
      && |back| == |drafts|
      && forall i :: 0 <= i < |drafts| ==>
        && back[i].id == ids[i]
        && back[i].name == drafts[i].name
        && back[i].description == drafts[i].description
        && back[i].electionId == electionId
        && back[i].imageUrl == ImageUrlColumn(drafts[i].imageUrl)
        && back[i].platform == Some(drafts[i].description)
  {
  }

  // ---------------------------------------------------------------------
  // The election schedule

  /** The columns the schedule query selects. */
  datatype ScheduleRow = ScheduleRow(id: string, title: string, description: string, start_date: Instant)

  datatype ScheduleEvent = ScheduleEvent(id: string, title: string, description: string, date: Instant)

  /** `data.map(...)` of `getElectionSchedule`: one event per row, in order,
      dated by the row's start date. */
  function ScheduleOf(rows: seq<ScheduleRow>): (events: seq<ScheduleEvent>)
    ensures |events| == |rows|
    ensures forall i :: 0 <= i < |rows| ==>
      && events[i].id == rows[i].id
      && events[i].title == rows[i].title
      && events[i].description == rows[i].description
      && events[i].date == rows[i].start_date
  {
    if rows == [] then []
    else [ScheduleEvent(rows[0].id, rows[0].title, rows[0].description, rows[0].start_date)] + ScheduleOf(rows[1..])
  }

  /** `getElectionSchedule()`, given the store's answer to its query. */
  function GetElectionSchedule(reply: Fetch<seq<ScheduleRow>>): (r: Result<seq<ScheduleEvent>, ApiError>)
    ensures reply.StoreError? ==> r == Failure(StoreFailure(reply.message))
    ensures reply.Fetched? ==> r == Success(ScheduleOf(reply.data))
  {
    match reply
    case StoreError(m) => Failure(StoreFailure(m))
    case Fetched(rows) => Success(ScheduleOf(rows))
  }

  predicate RowsByStartDate(rows: seq<ScheduleRow>) {
    forall i, j :: 0 <= i < j < |rows| ==> rows[i].start_date <= rows[j].start_date
  }

  predicate EventsByDate(events: seq<ScheduleEvent>) {
    forall i, j :: 0 <= i < j < |events| ==> events[i].date <= events[j].date
  }

  /** The query orders rows by start date; the mapping keeps that order. */
  lemma ScheduleKeepsOrder(rows: seq<ScheduleRow>)
    requires RowsByStartDate(rows)
    ensures EventsByDate(ScheduleOf(rows))
  {
  }
}
