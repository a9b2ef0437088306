/** The fixed stage table and the three pure helpers over it: progress
    percentage, next stage and previous stage. */
module Constants {
  import opened Types
  import opened Seqs

  datatype StageEntry = StageEntry(id: Stage, display: string, description: string)

  /** The stage table, in the order a purchase goes through it. */
  const Stages: seq<StageEntry> := [
    StageEntry(Search, "Recherche", "Recherche et visite de biens immobiliers"),
    StageEntry(Offer, "Offre", "Soumission d'une offre d'achat"),
    StageEntry(Negotiation, "Négociation", "Négociation du prix et des conditions"),
    StageEntry(Financing, "Financement", "Recherche et obtention du financement"),
    StageEntry(Presale, "Compromis", "Signature du compromis de vente"),
    StageEntry(Notary, "Notaire", "Préparation des documents notariés"),
    StageEntry(Signing, "Signature", "Signature de l'acte définitif"),
    StageEntry(Handover, "Remise des clés", "Remise des clés et prise de possession")
  ]

  /** The position of a stage in the purchase order, by the declaration of `Stage`. */
  function Index(s: Stage): (i: nat)
    ensures i < 8
  {
    match s
    case Search => 0
    case Offer => 1
    case Negotiation => 2
    case Financing => 3
    case Presale => 4
    case Notary => 5
    case Signing => 6
    case Handover => 7
  }

  /** The table lookup `STAGES.findIndex(stage => stage.id === s)`. */
  function FindStageIndex(s: Stage): int
  {
    IndexWhere(Stages, (e: StageEntry) => e.id == s)
  }

  /** The table holds eight entries with pairwise distinct ids, and entry i is the stage of index i. */
  lemma StagesTable()
    ensures |Stages| == 8
    ensures forall i :: 0 <= i < |Stages| ==> Index(Stages[i].id) == i
    ensures forall i, j :: 0 <= i < j < |Stages| ==> Stages[i].id != Stages[j].id
    ensures forall s :: Stages[Index(s)].id == s
  {
  }

  /** The table lookup always finds every stage, at its `Index`: the "not found"
      branches of the helpers below can never be taken. */
  lemma FindStageIndexIsIndex(s: Stage)
    ensures FindStageIndex(s) == Index(s)
  {
    StagesTable();
    var r := FindStageIndex(s);
    assert Stages[Index(s)].id == s;
    assert r != -1;
    if r < Index(s) {
      assert Stages[r].id == s;
      assert Index(Stages[r].id) == r;
    }
  }

  /** `Math.round(num / den)` for a positive `den`: the nearest integer,
      halves rounded up (towards positive infinity). */
  function MathRound(num: int, den: int): (r: int)
    requires den > 0
    ensures 2 * den * r <= 2 * num + den < 2 * den * (r + 1)
  {
    (2 * num + den) / (2 * den)
  }

  /** `getStageProgress`: `Math.round((index + 1) / STAGES.length * 100)`.
      The quotient (index + 1) / 8 * 100 is exact in floating point, so the
      rational computation below is the one the program performs. The second
      ensures says r is (Index(s) + 1) * 100 / 8 rounded to nearest, halves up. */
  function StageProgress(s: Stage): (r: int)
    ensures 13 <= r <= 100
    ensures 16 * r <= 200 * (Index(s) + 1) + 8 < 16 * (r + 1)
  {
    FindStageIndexIsIndex(s);
    ProgressRounding(Index(s));
    var i := FindStageIndex(s);
    if i == -1 then 0 else MathRound(100 * (i + 1), |Stages|)
  }

  /** The rounded percentage of the stage at position `i` of eight. */
  lemma ProgressRounding(i: int)
    requires 0 <= i < 8
    ensures var r := MathRound(100 * (i + 1), 8);
      13 <= r <= 100 && 16 * r <= 200 * (i + 1) + 8 < 16 * (r + 1)
  {
  }

  lemma StageProgressEnds()
    ensures StageProgress(Search) == 13
    ensures StageProgress(Handover) == 100
  {
  }

  /** Progress strictly increases along the stage order. */
  lemma StageProgressIncreases(s: Stage, t: Stage)
    requires Index(s) < Index(t)
    ensures StageProgress(s) < StageProgress(t)
  {
  }

  /** `getNextStage`: the following stage, or none after the last one. */
  function NextStage(s: Stage): (r: Option<Stage>)
    ensures r.None? <==> s == Handover
    ensures r.Some? ==> Index(r.value) == Index(s) + 1
  {
    StagesTable();
    FindStageIndexIsIndex(s);
    var i := FindStageIndex(s);
    if i == -1 || i == |Stages| - 1 then None else Some(Stages[i + 1].id)
  }

  /** `getPreviousStage`: the preceding stage, or none before the first one. */
  function PreviousStage(s: Stage): (r: Option<Stage>)
    ensures r.None? <==> s == Search
    ensures r.Some? ==> Index(r.value) + 1 == Index(s)
  {
    StagesTable();
    FindStageIndexIsIndex(s);
    var i := FindStageIndex(s);
    if i <= 0 then None else Some(Stages[i - 1].id)
  }

  /** Stepping forward and stepping back undo each other. */
  lemma NextPreviousInverse(s: Stage, t: Stage)
    ensures NextStage(s) == Some(t) <==> PreviousStage(t) == Some(s)
  {
    StagesTable();
    if PreviousStage(t) == Some(s) {
      assert Index(NextStage(s).value) == Index(t);
      assert Stages[Index(t)].id == t;
      assert Stages[Index(NextStage(s).value)].id == NextStage(s).value;
    }
    if NextStage(s) == Some(t) {
      assert Index(PreviousStage(t).value) == Index(s);
      assert Stages[Index(PreviousStage(t).value)].id == PreviousStage(t).value;
    }
  }
}
