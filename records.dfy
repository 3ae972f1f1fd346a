/**
 * The stored record types: a DataPoint (one candidate's share in one poll
 * or one official result) and an Election with its one or two rounds
 * (TourData). Each has a Valid() predicate for the schema's enum and range
 * constraints, and a Create function that fills in the schema's defaults
 * and accepts or rejects a document the way the schema's validation does.
 */
module Records {
  import opened Values

  const DataPointTypes: seq<string> := ["result", "poll"]
  const ElectionTypes: seq<string> :=
    ["presidentielle", "municipale", "europeenne", "legislative", "regionale", "metropolitaine"]
  const Nuances: seq<string> :=
    ["Gauche", "Droite", "Centre", "Extreme droite", "Extreme gauche", "Autre"]
  const DataPointLevels: seq<string> := ["national", "municipal"]
  const ElectionLevels: seq<string> := ["national", "municipal", "regional", "departmental"]
  const DefaultElectionSource: string := "data.gouv.fr"

  /** Which schema rule a document broke, and on which path. */
  datatype ValidationError = Required(path: string) | NotInEnum(path: string) | OutOfRange(path: string)

  predicate Percent(x: real) { 0.0 <= x <= 100.0 }

  // ---------------------------------------------------------------- DataPoint

  /** A stored data point. Dates are day numbers; `value` is a percentage. */
  datatype DataPoint = DataPoint(
    kind: string,            // `type`
    electionId: string,
    electionType: string,
    date: int,
    candidateName: string,
    party: string,
    nuance: string,
    level: string,
    city: string,
    value: real,
    pollSource: Option<string>)
  {
    predicate Valid()
    {
      && kind in DataPointTypes
      && electionId != ""
      && electionType in ElectionTypes
      && candidateName != ""
      && party != ""
      && nuance in Nuances
      && level in DataPointLevels
      && Percent(value)
    }
  }

  /** The document handed to the model before validation: `None` is a path
      left undefined. `pollSource` may also be given as an explicit null. */
  datatype DataPointDoc = DataPointDoc(
    kind: Option<string>,
    electionId: Option<string>,
    electionType: Option<string>,
    date: Option<int>,
    candidateName: Option<string>,
    party: Option<string>,
    nuance: Option<string>,
    level: Option<string>,
    city: Option<string>,
    value: Option<real>,
    pollSource: Option<Option<string>>)

  /** Every required path present (a required String must not be empty)
      and every enum and range rule met. */
  predicate DataPointDocAcceptable(doc: DataPointDoc)
  {
    && Truthy(doc.kind) && doc.kind.value in DataPointTypes
    && Truthy(doc.electionId)
    && Truthy(doc.electionType) && doc.electionType.value in ElectionTypes
    && doc.date.Some?
    && Truthy(doc.candidateName)
    && Truthy(doc.party)
    && Truthy(doc.nuance) && doc.nuance.value in Nuances
    && Truthy(doc.level) && doc.level.value in DataPointLevels
    && doc.value.Some? && Percent(doc.value.value)
  }

  /** Validation in the schema's path order; the first broken rule is reported. */
  function CreateDataPoint(doc: DataPointDoc): (r: Result<DataPoint, ValidationError>)
    ensures r.Ok? <==> DataPointDocAcceptable(doc)
    ensures r.Ok? ==> r.value.Valid()
    ensures r.Ok? ==> r.value.city == doc.city.GetOr("") && r.value.pollSource == doc.pollSource.GetOr(None)
    ensures r.Ok? ==>
              && Some(r.value.kind) == doc.kind && Some(r.value.electionId) == doc.electionId
              && Some(r.value.electionType) == doc.electionType && Some(r.value.date) == doc.date
              && Some(r.value.candidateName) == doc.candidateName && Some(r.value.party) == doc.party
              && Some(r.value.nuance) == doc.nuance && Some(r.value.level) == doc.level
              && Some(r.value.value) == doc.value
  {
    if !Truthy(doc.kind) then Err(Required("type"))
    else if doc.kind.value !in DataPointTypes then Err(NotInEnum("type"))
    else if !Truthy(doc.electionId) then Err(Required("election_id"))
    else if !Truthy(doc.electionType) then Err(Required("election_type"))
    else if doc.electionType.value !in ElectionTypes then Err(NotInEnum("election_type"))
    else if doc.date.None? then Err(Required("date"))
    else if !Truthy(doc.candidateName) then Err(Required("candidate_name"))
    else if !Truthy(doc.party) then Err(Required("party"))
    else if !Truthy(doc.nuance) then Err(Required("nuance"))
    else if doc.nuance.value !in Nuances then Err(NotInEnum("nuance"))
    else if !Truthy(doc.level) then Err(Required("level"))
    else if doc.level.value !in DataPointLevels then Err(NotInEnum("level"))
    else if doc.value.None? then Err(Required("value"))
    else if !Percent(doc.value.value) then Err(OutOfRange("value"))
    else
      Ok(DataPoint(
        doc.kind.value, doc.electionId.value, doc.electionType.value, doc.date.value,
        doc.candidateName.value, doc.party.value, doc.nuance.value, doc.level.value,
        doc.city.GetOr(""), doc.value.value, doc.pollSource.GetOr(None)))
  }

  /** The document that stores `d` with every path written out. */
  function DataPointToDoc(d: DataPoint): DataPointDoc
  {
    DataPointDoc(Some(d.kind), Some(d.electionId), Some(d.electionType), Some(d.date),
      Some(d.candidateName), Some(d.party), Some(d.nuance), Some(d.level), Some(d.city),
      Some(d.value), Some(d.pollSource))
  }

  /** A valid data point is accepted back unchanged, and only valid ones are. */
  lemma DataPointRoundTrip(d: DataPoint)
    ensures CreateDataPoint(DataPointToDoc(d)).Ok? <==> d.Valid()
    ensures d.Valid() ==> CreateDataPoint(DataPointToDoc(d)) == Ok(d)
  {
  }

  // ---------------------------------------------------------------- Election

  /** One round of an election. Numbers are JavaScript numbers, so reals;
      the schema bounds `tour_number` to [1, 2] without requiring an integer. */
  datatype TourData = TourData(
    tourNumber: real,
    date: int,
    inscritsAmount: real,
    abstentionsAmount: real,
    abstentionsPourcentageInscrits: real,
    votantsAmount: real,
    votantsPourcentageInscrits: real,
    blancsAmount: real,
    blancsPourcentageInscrits: real,
    blancsPourcentageVotants: real,
    nulsAmount: real,
    nulsPourcentageInscrits: real,
    nulsPourcentageVotants: real,
    exprimesAmount: real,
    exprimesPourcentageInscrits: real,
    exprimesPourcentageVotants: real)
  {
    function Amounts(): seq<real>
    {
      [inscritsAmount, abstentionsAmount, votantsAmount, blancsAmount, nulsAmount, exprimesAmount]
    }

    function Percentages(): seq<real>
    {
      [abstentionsPourcentageInscrits, votantsPourcentageInscrits,
       blancsPourcentageInscrits, blancsPourcentageVotants,
       nulsPourcentageInscrits, nulsPourcentageVotants,
       exprimesPourcentageInscrits, exprimesPourcentageVotants]
    }

    predicate Valid()
    {
      && 1.0 <= tourNumber <= 2.0
      && (forall a :: a in Amounts() ==> a >= 0.0)
      && (forall p :: p in Percentages() ==> Percent(p))
    }
  }

  datatype Election = Election(
    electionId: string,
    electionType: string,
    year: real,
    level: string,
    location: string,
    tour1: TourData,
    tour2: Option<TourData>,
    source: string)
  {
    predicate Valid()
    {
      && electionId != ""
      && electionType in ElectionTypes
      && level in ElectionLevels
      && tour1.Valid()
      && (tour2.Some? ==> tour2.value.Valid())
    }
  }

  /** An election document before validation; `tour2` may be an explicit null. */
  datatype ElectionDoc = ElectionDoc(
    electionId: Option<string>,
    electionType: Option<string>,
    year: Option<real>,
    level: Option<string>,
    location: Option<string>,
    tour1: Option<TourData>,
    tour2: Option<Option<TourData>>,
    source: Option<string>)

  predicate ElectionDocAcceptable(doc: ElectionDoc)
  {
    && Truthy(doc.electionId)
    && Truthy(doc.electionType) && doc.electionType.value in ElectionTypes
    && doc.year.Some?
    && (doc.level.Some? ==> doc.level.value in ElectionLevels)
    && doc.tour1.Some? && doc.tour1.value.Valid()
    && (doc.tour2.Some? && doc.tour2.value.Some? ==> doc.tour2.value.value.Valid())
  }

  function CreateElection(doc: ElectionDoc): (r: Result<Election, ValidationError>)
    ensures r.Ok? <==> ElectionDocAcceptable(doc)
    ensures r.Ok? ==> r.value.Valid()
    ensures r.Ok? ==> && r.value.level == doc.level.GetOr("national")
                      && r.value.location == doc.location.GetOr("")
                      && r.value.tour2 == doc.tour2.GetOr(None)
                      && r.value.source == doc.source.GetOr(DefaultElectionSource)
    ensures r.Ok? ==>
              && Some(r.value.electionId) == doc.electionId && Some(r.value.electionType) == doc.electionType
              && Some(r.value.year) == doc.year && Some(r.value.tour1) == doc.tour1
    ensures doc.tour1.None? ==> r.Err?
  {
    if !Truthy(doc.electionId) then Err(Required("election_id"))
    else if !Truthy(doc.electionType) then Err(Required("election_type"))
    else if doc.electionType.value !in ElectionTypes then Err(NotInEnum("election_type"))
    else if doc.year.None? then Err(Required("year"))
    else if doc.level.Some? && doc.level.value !in ElectionLevels then Err(NotInEnum("level"))
    else if doc.tour1.None? then Err(Required("tour_1"))
    else if !doc.tour1.value.Valid() then Err(OutOfRange("tour_1"))
    else if doc.tour2.Some? && doc.tour2.value.Some? && !doc.tour2.value.value.Valid() then Err(OutOfRange("tour_2"))
    else
      Ok(Election(
        doc.electionId.value, doc.electionType.value, doc.year.value,
        doc.level.GetOr("national"), doc.location.GetOr(""),
        doc.tour1.value, doc.tour2.GetOr(None), doc.source.GetOr(DefaultElectionSource)))
  }

  function ElectionToDoc(e: Election): ElectionDoc
  {
    ElectionDoc(Some(e.electionId), Some(e.electionType), Some(e.year), Some(e.level),
      Some(e.location), Some(e.tour1), Some(e.tour2), Some(e.source))
  }

  /** A valid election is accepted back unchanged, and only valid ones are. */
  lemma ElectionRoundTrip(e: Election)
    ensures CreateElection(ElectionToDoc(e)).Ok? <==> e.Valid()
    ensures e.Valid() ==> CreateElection(ElectionToDoc(e)) == Ok(e)
  {
  }

  /** A document giving only the required paths gets the schema's defaults;
      an empty id counts as missing. */
  lemma ElectionDefaults(id: string, electionType: string, year: real, tour1: TourData)
    requires electionType in ElectionTypes && tour1.Valid()
    ensures id != "" ==>
      CreateElection(ElectionDoc(Some(id), Some(electionType), Some(year), None, None, Some(tour1), None, None))
        == Ok(Election(id, electionType, year, "national", "", tour1, None, "data.gouv.fr"))
    ensures id == "" ==>
      CreateElection(ElectionDoc(Some(id), Some(electionType), Some(year), None, None, Some(tour1), None, None))
        == Err(Required("election_id"))
  {
  }

  /** A required String path given as "" is rejected as missing. */
  lemma EmptyRequiredStringsRejected(doc: DataPointDoc)
    requires DataPointDocAcceptable(doc)
    ensures CreateDataPoint(doc.(electionId := Some(""))) == Err(Required("election_id"))
    ensures CreateDataPoint(doc.(candidateName := Some(""))) == Err(Required("candidate_name"))
    ensures CreateDataPoint(doc.(party := Some(""))) == Err(Required("party"))
  {
  }

  /** A valid round's number lies in [1, 2], but the schema does not make it whole. */
  lemma TourNumberNotNecessarilyWhole()
    ensures exists t: TourData :: t.Valid() && t.tourNumber != 1.0 && t.tourNumber != 2.0
  {
    var t := TourData(1.5, 0, 0.0, 0.0, 0.0, 0.0, 0.0, 0.0, 0.0, 0.0, 0.0, 0.0, 0.0, 0.0, 0.0, 0.0);
    assert t.Valid();
  }
}
