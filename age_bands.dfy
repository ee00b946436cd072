/**
 * The `age_group` column: `pd.cut` with bin edges 0, 18, 35, 50, 65, 100 and
 * pandas' default `right=True`, so every bin is open on the left and closed
 * on the right, and an age outside (0, 100] gets no label.
 */
module AgeBands {
  import opened Wrappers

  datatype AgeBand = Under18 | From18To35 | From36To50 | From51To65 | Over65

  /** The bin edges passed to `pd.cut`. */
  const EDGES: seq<int> := [0, 18, 35, 50, 65, 100]

  /** The labels passed to `pd.cut`, in bin order. */
  const BANDS: seq<AgeBand> := [Under18, From18To35, From36To50, From51To65, Over65]

  function Label(b: AgeBand): string
  {
    match b
    case Under18 => "<18"
    case From18To35 => "18-35"
    case From36To50 => "36-50"
    case From51To65 => "51-65"
    case Over65 => "65+"
  }

  /** Position of a band in the ordered categorical. */
  function Rank(b: AgeBand): (k: nat)
    ensures k < |BANDS| && BANDS[k] == b
  {
    match b
    case Under18 => 0
    case From18To35 => 1
    case From36To50 => 2
    case From51To65 => 3
    case Over65 => 4
  }

  /**
   * The band of one age: the i-th label exactly when EDGES[i] < age <= EDGES[i+1],
   * and no label at all outside (0, 100].
   */
  function AgeGroup(age: int): (r: Option<AgeBand>)
    ensures r.None? <==> age <= 0 || 100 < age
    ensures forall i :: 0 <= i < |BANDS| ==> (r == Some(BANDS[i]) <==> EDGES[i] < age <= EDGES[i + 1])
  {
    if age <= 0 || 100 < age then None
    else if age <= 18 then Some(Under18)
    else if age <= 35 then Some(From18To35)
    else if age <= 50 then Some(From36To50)
    else if age <= 65 then Some(From51To65)
    else Some(Over65)
  }

  /** The boundary ages fall into the lower bin, under the labels `pd.cut` is given. */
  lemma BoundaryAges()
    ensures AgeGroup(0) == None && AgeGroup(101) == None
    ensures Label(AgeGroup(1).value) == "<18" && Label(AgeGroup(18).value) == "<18"
    ensures Label(AgeGroup(19).value) == "18-35" && Label(AgeGroup(35).value) == "18-35"
    ensures Label(AgeGroup(36).value) == "36-50" && Label(AgeGroup(50).value) == "36-50"
    ensures Label(AgeGroup(51).value) == "51-65" && Label(AgeGroup(65).value) == "51-65"
    ensures Label(AgeGroup(66).value) == "65+" && Label(AgeGroup(100).value) == "65+"
  {
  }

  /** The bands are ordered like the ages they hold. */
  lemma AgeGroupMonotone(a: int, b: int)
    requires a <= b
    requires AgeGroup(a).Some? && AgeGroup(b).Some?
    ensures Rank(AgeGroup(a).value) <= Rank(AgeGroup(b).value)
  {
  }
}
