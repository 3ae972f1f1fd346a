/**
 * The 2022 presidential poll importer: for every poll, every round, every
 * hypothesis and every candidate entry it builds one data point, skipping
 * entries without an intention value or without a name, and it counts the
 * polls and the data points it creates. Candidate names and party labels go
 * through lookup tables with fall-backs; the nuance is looked up by the raw
 * name.
 */
module PollImport {
  import opened Values
  import Records

  // ---------------------------------------------------------------- input

  /** One entry of `candidats`: `None` is a null or undefined property. */
  datatype Candidate = Candidate(name: Option<string>, parties: seq<string>, intentions: Option<real>)

  datatype Hypothesis = Hypothesis(hypothese: Option<string>, candidates: seq<Candidate>)

  /** One round of a poll. */
  datatype Tour = Tour(tour: Option<string>, hypotheses: seq<Hypothesis>)

  /** One poll of the input file. `finEnquete` is the poll's last day. */
  datatype PollData = PollData(id: string, finEnquete: int, tours: seq<Tour>)

  // ---------------------------------------------------------------- output

  /** The document the importer builds for one candidate entry, with the
      property names it uses. */
  datatype ImportedPoint = ImportedPoint(
    kind: string,                      // `type`
    electionId: string,
    electionType: string,
    electionTour: int,
    date: int,
    candidateName: string,
    party: seq<string>,
    nuance: string,
    level: string,
    city: string,
    resultPourcentageExprime: real,
    pollSource: string,
    pollId: string,
    hypothese: Option<string>)

  // ---------------------------------------------------------------- tables

  const PartyMapping: map<string, string> := map[
    "Rassemblement national" := "RN",
    "Parti socialiste" := "PS",
    "France insoumise" := "LFI",
    "Debout la France" := "DLF",
    "EE-LV" := "EELV",
    "Parti communiste" := "PCF",
    "Reconquête" := "REC",
    "LRM" := "RENAISSANCE",
    "Les Républicains" := "LR",
    "NPA" := "NPA",
    "Lutte ouvrière" := "LO",
    "Résistons" := "RESISTONS",
    "Les Patriotes" := "LP",
    "UPR" := "UPR",
    "Génération.s" := "GS",
    "PRG" := "PRG",
    "Parti animaliste" := "PA",
    "Place publique" := "PP",
    "Nouvelle Donne" := "ND",
    "Territoires de progrès" := "TDP",
    "Agir" := "AGIR",
    "En Commun" := "EC",
    "Parti radical" := "PRV",
    "Mouvement démocrate" := "MODEM"]

  const NuanceMapping: map<string, string> := map[
    "Marine Le Pen" := "Extreme droite",
    "Anne Hidalgo" := "Gauche",
    "Jean-Luc Mélenchon" := "Gauche",
    "Nicolas Dupont-Aignan" := "Extreme droite",
    "Arnaud Montebourg" := "Gauche",
    "Yannick Jadot" := "Gauche",
    "Fabien Roussel" := "Gauche",
    "Eric Zemmour" := "Extreme droite",
    "Emmanuel Macron" := "Centre",
    "Valérie Pécresse" := "Droite",
    "Philippe Poutou" := "Extreme gauche",
    "Nathalie Arthaud" := "Extreme gauche",
    "Jean Lassalle" := "Centre",
    "Florian Philippot" := "Extreme droite",
    "François Asselineau" := "Autre",
    "Christiane Taubira" := "Gauche"]

  const NameNormalization: map<string, string> := map[
    "Marine Le Pen" := "Marine LE PEN",
    "Anne Hidalgo" := "Anne HIDALGO",
    "Jean-Luc Mélenchon" := "Jean-Luc MÉLENCHON",
    "Nicolas Dupont-Aignan" := "Nicolas DUPONT-AIGNAN",
    "Arnaud Montebourg" := "Arnaud MONTEBOURG",
    "Yannick Jadot" := "Yannick JADOT",
    "Fabien Roussel" := "Fabien ROUSSEL",
    "Eric Zemmour" := "Éric ZEMMOUR",
    "Emmanuel Macron" := "Emmanuel MACRON",
    "Valérie Pécresse" := "Valérie PÉCRESSE",
    "Philippe Poutou" := "Philippe POUTOU",
    "Nathalie Arthaud" := "Nathalie ARTHAUD",
    "Jean Lassalle" := "Jean LASSALLE",
    "Florian Philippot" := "Florian PHILIPPOT",
    "François Asselineau" := "François ASSELINEAU",
    "Christiane Taubira" := "Christiane TAUBIRA"]

  // ---------------------------------------------------------------- per-entry derivation

  /** `tour.tour === "Premier tour" ? 1 : 2`. */
  function TourNumber(tourLabel: Option<string>): (n: int)
    ensures n == 1 || n == 2
    ensures n == 1 <==> tourLabel == Some("Premier tour")
  {
    if tourLabel == Some("Premier tour") then 1 else 2
  }

  /** `CANDIDATE_NAME_NORMALIZATION[name] || name`. */
  function NormalizedName(name: string): (r: string)
    ensures name in NameNormalization ==> r == NameNormalization[name]
    ensures name !in NameNormalization ==> r == name
    ensures r == "" <==> name == ""
  {
    if name in NameNormalization && NameNormalization[name] != "" then NameNormalization[name] else name
  }

  /** Normalising a normalised name changes nothing. */
  lemma NormalizedNameIdempotent(name: string)
    ensures NormalizedName(NormalizedName(name)) == NormalizedName(name)
  {
    assert forall k :: k in NameNormalization ==> NameNormalization[k] !in NameNormalization;
  }

  /** `PARTY_MAPPING[p] || p`. */
  function PartyCode(p: string): (r: string)
    ensures p in PartyMapping ==> r == PartyMapping[p]
    ensures p !in PartyMapping ==> r == p
  {
    if p in PartyMapping && PartyMapping[p] != "" then PartyMapping[p] else p
  }

  /** Only the empty label maps to the empty label. */
  lemma PartyCodeEmpty(p: string)
    ensures PartyCode(p) == "" <==> p == ""
  {
    assert forall k :: k in PartyMapping ==> PartyMapping[k] != "";
  }

  /** `parti.map((p) => PARTY_MAPPING[p] || p).filter((p) => p !== "")`. */
  function MapParties(ps: seq<string>): (r: seq<string>)
    ensures "" !in r
    ensures |r| <= |ps|
  {
    if ps == [] then []
    else
      var c := PartyCode(ps[0]);
      (if c == "" then [] else [c]) + MapParties(ps[1..])
  }

  /** The labels of `ps` that are not empty, in order. */
  function NonEmptyLabels(ps: seq<string>): (r: seq<string>)
    ensures "" !in ps ==> r == ps
  {
    if ps == [] then []
    else (if ps[0] == "" then [] else [ps[0]]) + NonEmptyLabels(ps[1..])
  }

  /** The mapped labels are the codes of the non-empty input labels, in
      order, one for each: mapping then dropping empty codes is dropping
      empty labels then mapping. Without empty labels, the mapping is
      element-wise. */
  lemma {:induction false} MapPartiesElementwise(ps: seq<string>)
    ensures |MapParties(ps)| == |NonEmptyLabels(ps)|
    ensures forall i :: 0 <= i < |NonEmptyLabels(ps)| ==> MapParties(ps)[i] == PartyCode(NonEmptyLabels(ps)[i])
    ensures "" !in ps ==> |MapParties(ps)| == |ps|
    ensures "" !in ps ==> forall i :: 0 <= i < |ps| ==> MapParties(ps)[i] == PartyCode(ps[i])
  {
    if ps != [] {
      PartyCodeEmpty(ps[0]);
      MapPartiesElementwise(ps[1..]);
      if ps[0] == "" {
        assert NonEmptyLabels(ps) == NonEmptyLabels(ps[1..]);
        assert MapParties(ps) == MapParties(ps[1..]);
      } else {
        assert NonEmptyLabels(ps) == [ps[0]] + NonEmptyLabels(ps[1..]);
        assert MapParties(ps) == [PartyCode(ps[0])] + MapParties(ps[1..]);
      }
    }
  }

  /** A label survives exactly when it is not empty. */
  lemma {:induction false} MapPartiesMembers(ps: seq<string>)
    ensures forall x :: x in MapParties(ps) <==> exists p :: p in ps && p != "" && PartyCode(p) == x
  {
    if ps != [] {
      PartyCodeEmpty(ps[0]);
      MapPartiesMembers(ps[1..]);
      assert ps == [ps[0]] + ps[1..];
    }
  }

  /** `mappedParties.length > 0 ? mappedParties : ["AUTRE"]`. */
  function PartiesOrDefault(ps: seq<string>): (r: seq<string>)
    ensures |r| > 0 && "" !in r
    ensures MapParties(ps) != [] ==> r == MapParties(ps)
    ensures MapParties(ps) == [] ==> r == ["AUTRE"]
  {
    var mapped := MapParties(ps);
    if |mapped| > 0 then mapped else ["AUTRE"]
  }

  /** The default `["AUTRE"]` applies exactly when every label is empty. */
  lemma MapPartiesEmpty(ps: seq<string>)
    ensures MapParties(ps) == [] <==> forall p :: p in ps ==> p == ""
  {
    MapPartiesMembers(ps);
    forall p | p in ps && p != "" ensures PartyCode(p) in MapParties(ps) {
    }
    if MapParties(ps) != [] {
      assert MapParties(ps)[0] in MapParties(ps);
    }
  }

  /** `NUANCE_MAPPING[name] || "Autre"`, on the name as given. */
  function NuanceOf(name: string): (r: string)
    ensures r in Records.Nuances
    ensures name !in NuanceMapping ==> r == "Autre"
    ensures name in NuanceMapping ==> r == NuanceMapping[name]
  {
    assert forall k :: k in NuanceMapping ==> NuanceMapping[k] in Records.Nuances;
    if name in NuanceMapping && NuanceMapping[name] != "" then NuanceMapping[name] else "Autre"
  }

  /** The nuance is read from the raw name: for a name the tables rename, the
      normalised name would miss the nuance table. */
  lemma NuanceNeedsRawName()
    ensures NuanceOf("Eric Zemmour") == "Extreme droite"
    ensures NuanceOf(NormalizedName("Eric Zemmour")) == "Autre"
  {
  }

  /** The two skip rules: intentions null or undefined, or a falsy name. */
  predicate Eligible(c: Candidate)
  {
    c.intentions.Some? && c.name.Some? && c.name.value != ""
  }

  /** The document built for one entry that passed both skip rules. */
  function Derive(poll: PollData, tourNumber: int, hyp: Hypothesis, c: Candidate): ImportedPoint
    requires Eligible(c)
  {
    ImportedPoint(
      "poll", "presidentielle_2022", "presidentielle", tourNumber, poll.finEnquete,
      NormalizedName(c.name.value), PartiesOrDefault(c.parties), NuanceOf(c.name.value),
      "national", "", c.intentions.value, poll.id, poll.id, hyp.hypothese)
  }

  /** The fixed and copied fields of an imported point. */
  predicate FromPoll(p: ImportedPoint, poll: PollData)
  {
    && p.kind == "poll" && p.electionId == "presidentielle_2022" && p.electionType == "presidentielle"
    && p.level == "national" && p.city == "" && p.candidateName != ""
    && p.date == poll.finEnquete && p.pollSource == poll.id && p.pollId == poll.id
    && (p.electionTour == 1 || p.electionTour == 2)
    && p.nuance in Records.Nuances
    && |p.party| > 0 && "" !in p.party
  }

  // ---------------------------------------------------------------- the loops

  /** The points built from a list of entries, in order. */
  function CandPoints(poll: PollData, tourNumber: int, hyp: Hypothesis, cs: seq<Candidate>): seq<ImportedPoint>
  {
    if cs == [] then []
    else
      var c := cs[|cs| - 1];
      CandPoints(poll, tourNumber, hyp, cs[..|cs| - 1]) + (if Eligible(c) then [Derive(poll, tourNumber, hyp, c)] else [])
  }

  function HypPoints(poll: PollData, tourNumber: int, hs: seq<Hypothesis>): seq<ImportedPoint>
  {
    if hs == [] then []
    else HypPoints(poll, tourNumber, hs[..|hs| - 1]) + CandPoints(poll, tourNumber, hs[|hs| - 1], hs[|hs| - 1].candidates)
  }

  function TourPoints(poll: PollData, ts: seq<Tour>): seq<ImportedPoint>
  {
    if ts == [] then []
    else TourPoints(poll, ts[..|ts| - 1]) + HypPoints(poll, TourNumber(ts[|ts| - 1].tour), ts[|ts| - 1].hypotheses)
  }

  /** Every point the importer builds, in the order it builds them. */
  function AllPoints(polls: seq<PollData>): seq<ImportedPoint>
  {
    if polls == [] then []
    else AllPoints(polls[..|polls| - 1]) + TourPoints(polls[|polls| - 1], polls[|polls| - 1].tours)
  }

  /** The number of entries passing both skip rules, counted independently. */
  function CountEligible(cs: seq<Candidate>): nat
  {
    if cs == [] then 0 else (if Eligible(cs[0]) then 1 else 0) + CountEligible(cs[1..])
  }

  function EligibleInHypotheses(hs: seq<Hypothesis>): nat
  {
    if hs == [] then 0 else CountEligible(hs[0].candidates) + EligibleInHypotheses(hs[1..])
  }

  function EligibleInTours(ts: seq<Tour>): nat
  {
    if ts == [] then 0 else EligibleInHypotheses(ts[0].hypotheses) + EligibleInTours(ts[1..])
  }

  function EligibleInPolls(polls: seq<PollData>): nat
  {
    if polls == [] then 0 else EligibleInTours(polls[0].tours) + EligibleInPolls(polls[1..])
  }

  /** The innermost loop of `main`, over the entries of one hypothesis:
      each entry passing both skip rules is built and counted. */
  method ImportCandidates(pollData: PollData, tourNumber: int, hypothesis: Hypothesis,
                          points0: seq<ImportedPoint>, count0: nat)
    returns (points: seq<ImportedPoint>, datapointCount: nat)
    requires count0 == |points0|
    ensures points == points0 + CandPoints(pollData, tourNumber, hypothesis, hypothesis.candidates)
    ensures datapointCount == |points|
  {
    points, datapointCount := points0, count0;
    for c := 0 to |hypothesis.candidates|
      invariant points == points0 + CandPoints(pollData, tourNumber, hypothesis, hypothesis.candidates[..c])
      invariant datapointCount == |points|
    {
      var cand := hypothesis.candidates[c];
      assert hypothesis.candidates[..c + 1][..c] == hypothesis.candidates[..c];
      if cand.intentions.None? {
        continue;
      }
      if cand.name.None? || cand.name.value == "" {
        continue;
      }
      var normalizedName := NormalizedName(cand.name.value);
      var mappedParties := MapParties(cand.parties);
      var nuance := NuanceOf(cand.name.value);
      var dp := ImportedPoint(
        "poll", "presidentielle_2022", "presidentielle", tourNumber, pollData.finEnquete,
        normalizedName, if |mappedParties| > 0 then mappedParties else ["AUTRE"], nuance,
        "national", "", cand.intentions.value, pollData.id, pollData.id, hypothesis.hypothese);
      points := points + [dp];
      datapointCount := datapointCount + 1;
    }
    assert hypothesis.candidates[..|hypothesis.candidates|] == hypothesis.candidates;
  }

  /** The loop over the hypotheses of one round. */
  method ImportTour(pollData: PollData, tour: Tour, points0: seq<ImportedPoint>, count0: nat)
    returns (points: seq<ImportedPoint>, datapointCount: nat)
    requires count0 == |points0|
    ensures points == points0 + HypPoints(pollData, TourNumber(tour.tour), tour.hypotheses)
    ensures datapointCount == |points|
  {
    var tourNumber := TourNumber(tour.tour);
    points, datapointCount := points0, count0;
    for h := 0 to |tour.hypotheses|
      invariant points == points0 + HypPoints(pollData, tourNumber, tour.hypotheses[..h])
      invariant datapointCount == |points|
    {
      var hypothesis := tour.hypotheses[h];
      assert tour.hypotheses[..h + 1][..h] == tour.hypotheses[..h];
      points, datapointCount := ImportCandidates(pollData, tourNumber, hypothesis, points, datapointCount);
    }
    assert tour.hypotheses[..|tour.hypotheses|] == tour.hypotheses;
  }

  /** The `main` loops: one poll counted per poll, one data point built and
      counted per entry that passes both skip rules. */
  method ImportPolls(polls: seq<PollData>) returns (pollCount: nat, datapointCount: nat, points: seq<ImportedPoint>)
    ensures pollCount == |polls|
    ensures points == AllPoints(polls)
    ensures datapointCount == |points| == EligibleInPolls(polls)
  {
    pollCount, datapointCount, points := 0, 0, [];
    for i := 0 to |polls|
      invariant pollCount == i
      invariant points == AllPoints(polls[..i])
      invariant datapointCount == |points|
    {
      var pollData := polls[i];
      assert polls[..i + 1][..i] == polls[..i];
      pollCount := pollCount + 1;
      ghost var before := points;
      for t := 0 to |pollData.tours|
        invariant points == before + TourPoints(pollData, pollData.tours[..t])
        invariant datapointCount == |points|
      {
        assert pollData.tours[..t + 1][..t] == pollData.tours[..t];
        points, datapointCount := ImportTour(pollData, pollData.tours[t], points, datapointCount);
      }
      assert pollData.tours[..|pollData.tours|] == pollData.tours;
    }
    assert polls[..|polls|] == polls;
    ImportCount(polls);
  }

  // ---------------------------------------------------------------- counting

  lemma {:induction false} CandPointsCount(poll: PollData, tn: int, hyp: Hypothesis, cs: seq<Candidate>)
    ensures |CandPoints(poll, tn, hyp, cs)| == CountEligible(cs)
  {
    if cs != [] {
      CandPointsCount(poll, tn, hyp, cs[..|cs| - 1]);
      CountEligibleSnoc(cs[..|cs| - 1], cs[|cs| - 1]);
      assert cs[..|cs| - 1] + [cs[|cs| - 1]] == cs;
    }
  }

  lemma {:induction false} CountEligibleSnoc(cs: seq<Candidate>, c: Candidate)
    ensures CountEligible(cs + [c]) == CountEligible(cs) + (if Eligible(c) then 1 else 0)
  {
    if cs != [] {
      assert (cs + [c])[1..] == cs[1..] + [c];
      CountEligibleSnoc(cs[1..], c);
    }
  }

  lemma {:induction false} HypPointsCount(poll: PollData, tn: int, hs: seq<Hypothesis>)
    ensures |HypPoints(poll, tn, hs)| == EligibleInHypotheses(hs)
  {
    if hs != [] {
      var init := hs[..|hs| - 1];
      var last := hs[|hs| - 1];
      HypPointsCount(poll, tn, init);
      CandPointsCount(poll, tn, last, last.candidates);
      EligibleInHypothesesSnoc(init, last);
      assert init + [last] == hs;
    }
  }

  lemma {:induction false} EligibleInHypothesesSnoc(hs: seq<Hypothesis>, h: Hypothesis)
    ensures EligibleInHypotheses(hs + [h]) == EligibleInHypotheses(hs) + CountEligible(h.candidates)
  {
    if hs != [] {
      assert (hs + [h])[1..] == hs[1..] + [h];
      EligibleInHypothesesSnoc(hs[1..], h);
    }
  }

  lemma {:induction false} TourPointsCount(poll: PollData, ts: seq<Tour>)
    ensures |TourPoints(poll, ts)| == EligibleInTours(ts)
  {
    if ts != [] {
      var init := ts[..|ts| - 1];
      var last := ts[|ts| - 1];
      TourPointsCount(poll, init);
      HypPointsCount(poll, TourNumber(last.tour), last.hypotheses);
      EligibleInToursSnoc(init, last);
      assert init + [last] == ts;
    }
  }

  lemma {:induction false} EligibleInToursSnoc(ts: seq<Tour>, t: Tour)
    ensures EligibleInTours(ts + [t]) == EligibleInTours(ts) + EligibleInHypotheses(t.hypotheses)
  {
    if ts != [] {
      assert (ts + [t])[1..] == ts[1..] + [t];
      EligibleInToursSnoc(ts[1..], t);
    }
  }

  lemma {:induction false} EligibleInPollsSnoc(polls: seq<PollData>, p: PollData)
    ensures EligibleInPolls(polls + [p]) == EligibleInPolls(polls) + EligibleInTours(p.tours)
  {
    if polls != [] {
      assert (polls + [p])[1..] == polls[1..] + [p];
      EligibleInPollsSnoc(polls[1..], p);
    }
  }

  /** `datapointCount` is the number of entries, over all polls, rounds and
      hypotheses, that pass both skip rules. */
  lemma {:induction false} ImportCount(polls: seq<PollData>)
    ensures |AllPoints(polls)| == EligibleInPolls(polls)
  {
    if polls != [] {
      var init := polls[..|polls| - 1];
      var last := polls[|polls| - 1];
      ImportCount(init);
      TourPointsCount(last, last.tours);
      EligibleInPollsSnoc(init, last);
      assert init + [last] == polls;
    }
  }

  // ---------------------------------------------------------------- fields

  lemma {:induction false} CandPointsFields(poll: PollData, tn: int, hyp: Hypothesis, cs: seq<Candidate>)
    requires tn == 1 || tn == 2
    ensures forall p :: p in CandPoints(poll, tn, hyp, cs) ==> FromPoll(p, poll) && p.electionTour == tn && p.hypothese == hyp.hypothese
  {
    if cs != [] {
      CandPointsFields(poll, tn, hyp, cs[..|cs| - 1]);
    }
  }

  lemma {:induction false} HypPointsFields(poll: PollData, tn: int, hs: seq<Hypothesis>)
    requires tn == 1 || tn == 2
    ensures forall p :: p in HypPoints(poll, tn, hs) ==> FromPoll(p, poll) && p.electionTour == tn
  {
    if hs != [] {
      HypPointsFields(poll, tn, hs[..|hs| - 1]);
      CandPointsFields(poll, tn, hs[|hs| - 1], hs[|hs| - 1].candidates);
    }
  }

  lemma {:induction false} TourPointsFields(poll: PollData, ts: seq<Tour>)
    ensures forall p :: p in TourPoints(poll, ts) ==> FromPoll(p, poll)
  {
    if ts != [] {
      TourPointsFields(poll, ts[..|ts| - 1]);
      HypPointsFields(poll, TourNumber(ts[|ts| - 1].tour), ts[|ts| - 1].hypotheses);
    }
  }

  /** Every imported point is a poll of the 2022 presidential election at
      national level with an empty city, dated by its poll's last day,
      sourced by its poll's id, with a round of 1 or 2, a nuance among the
      six, a non-empty name and at least one non-empty party label. */
  lemma {:induction false} ImportFields(polls: seq<PollData>)
    ensures forall p :: p in AllPoints(polls) ==> exists i :: 0 <= i < |polls| && FromPoll(p, polls[i])
  {
    if polls != [] {
      var init := polls[..|polls| - 1];
      ImportFields(init);
      TourPointsFields(polls[|polls| - 1], polls[|polls| - 1].tours);
      forall p | p in AllPoints(init) ensures exists i :: 0 <= i < |polls| && FromPoll(p, polls[i]) {
        var i :| 0 <= i < |init| && FromPoll(p, init[i]);
        assert polls[i] == init[i];
      }
    }
  }

  // ---------------------------------------------------------------- storing

  /** What the data-point schema sees of an imported point: the undeclared
      properties are dropped, so `value` is absent; `party` is whatever the
      array casts to, or nothing when the cast fails. */
  function SchemaView(p: ImportedPoint, partyCast: Option<string>): Records.DataPointDoc
  {
    Records.DataPointDoc(Some(p.kind), Some(p.electionId), Some(p.electionType), Some(p.date),
      Some(p.candidateName), partyCast, Some(p.nuance), Some(p.level), Some(p.city),
      None, Some(Some(p.pollSource)))
  }

  /** As written: the schema rejects every imported point, whatever the
      party array casts to, because the percentage is not stored as `value`. */
  lemma ImportedPointRejected(p: ImportedPoint, partyCast: Option<string>)
    ensures Records.CreateDataPoint(SchemaView(p, partyCast)).Err?
  {
  }

  /** The document with the percentage stored as `value` and one party label. */
  function CorrectedDoc(p: ImportedPoint, party: string): Records.DataPointDoc
  {
    Records.DataPointDoc(Some(p.kind), Some(p.electionId), Some(p.electionType), Some(p.date),
      Some(p.candidateName), Some(party), Some(p.nuance), Some(p.level), Some(p.city),
      Some(p.resultPourcentageExprime), Some(Some(p.pollSource)))
  }

  /** Corrected: an imported point stored with one party label is accepted
      exactly when the label is not empty and its percentage lies in
      [0, 100]; with one of its own labels, only the percentage matters. It
      is then stored with its percentage and its poll id. */
  lemma CorrectedPointAccepted(polls: seq<PollData>, p: ImportedPoint, party: string)
    requires p in AllPoints(polls)
    ensures Records.CreateDataPoint(CorrectedDoc(p, party)).Ok? <==>
      party != "" && Records.Percent(p.resultPourcentageExprime)
    ensures party in p.party ==>
      (Records.CreateDataPoint(CorrectedDoc(p, party)).Ok? <==> Records.Percent(p.resultPourcentageExprime))
    ensures Records.CreateDataPoint(CorrectedDoc(p, party)).Ok? ==>
      && Records.CreateDataPoint(CorrectedDoc(p, party)).value.value == p.resultPourcentageExprime
      && Records.CreateDataPoint(CorrectedDoc(p, party)).value.pollSource == Some(p.pollSource)
  {
    ImportFields(polls);
  }

  // ---------------------------------------------------------------- when saves fail

  /** As written, every save is rejected, and the awaited rejection leaves
      all the loops for the final `catch`: the import stops at the first
      entry that passes the skip rules, before counting it. This is the
      number of polls counted by then. */
  function PollsCountedBeforeAbort(polls: seq<PollData>): (r: nat)
    ensures r <= |polls|
    ensures EligibleInPolls(polls) == 0 ==> r == |polls|
    ensures EligibleInPolls(polls) > 0 ==>
      && 0 < r
      && EligibleInTours(polls[r - 1].tours) > 0
      && EligibleInPolls(polls[..r - 1]) == 0
  {
    if polls == [] then 0
    else if EligibleInTours(polls[0].tours) > 0 then 1
    else
      var k := PollsCountedBeforeAbort(polls[1..]);
      assert k > 0 ==> polls[..k][1..] == polls[1..][..k - 1];
      1 + k
  }

  /** Whether `dp.save()` succeeds, given the value the party array casts to. */
  predicate Saves(p: ImportedPoint, cast: ImportedPoint -> Option<string>)
  {
    Records.CreateDataPoint(SchemaView(p, cast(p))).Ok?
  }

  /** `datapointCount` when the loops stop at the first save that throws:
      the points saved before it, `saves` telling which saves succeed. */
  function PointsCountedBeforeAbort(points: seq<ImportedPoint>, saves: ImportedPoint -> bool): (r: nat)
    ensures r <= |points|
    ensures forall i :: 0 <= i < r ==> saves(points[i])
    ensures r < |points| ==> !saves(points[r])
  {
    if points == [] || !saves(points[0]) then 0
    else 1 + PointsCountedBeforeAbort(points[1..], saves)
  }

  /** As written, with every `Poll` save succeeding, `datapointCount` stays 0
      whatever the file holds. */
  lemma NoDataPointCountedAsWritten(polls: seq<PollData>, cast: ImportedPoint -> Option<string>)
    ensures PointsCountedBeforeAbort(AllPoints(polls), p => Saves(p, cast)) == 0
  {
    var points := AllPoints(polls);
    if points != [] {
      ImportedPointRejected(points[0], cast(points[0]));
    }
  }

  /** As written, a file with some entry passing the skip rules outside its
      last poll ends with fewer polls counted than it has. */
  lemma AbortCountsFewerPolls(polls: seq<PollData>)
    requires |polls| > 0 && EligibleInPolls(polls[..|polls| - 1]) > 0
    ensures PollsCountedBeforeAbort(polls) < |polls|
  {
    var n := |polls|;
    var r := PollsCountedBeforeAbort(polls);
    EligibleInPollsSnoc(polls[..n - 1], polls[n - 1]);
    assert polls[..n - 1] + [polls[n - 1]] == polls;
    assert EligibleInPolls(polls[..r - 1]) == 0 < EligibleInPolls(polls[..n - 1]);
  }
}
