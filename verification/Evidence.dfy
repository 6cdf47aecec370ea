/** Evidence bundles for human gates (src/orchestrator/evidence_bundle.py). */
module Evidence {
  import opened Wrappers

  /** Generated identifiers; only their being distinct matters. */
  type Uuid = nat

  datatype GateType = Backlog | Design | Plan | Code | Validation | Release

  datatype ItemType =
    | Prd | AcceptanceCriteria
    | Architecture | DesignDoc
    | TaskBreakdown | DependencyGraph
    | Artifact | TestResult
    | IntegrationTests | SecurityScan
    | ReleaseNotes | DeploymentPlan
    | Other(text: string)

  datatype EvidenceItem = EvidenceItem(itemType: ItemType, path: string, description: string, contentHash: string)

  datatype Bundle = Bundle(
    bundleId: Uuid, taskId: string, gateType: GateType, gitSha: string, items: seq<EvidenceItem>,
    createdAt: int, summary: string)

  datatype EvidenceError = NoItems(gate: GateType) | MissingRequired(missingFor: GateType, present: set<ItemType>)

  function Required(g: GateType): seq<ItemType>
  {
    match g
    case Backlog => [Prd, AcceptanceCriteria]
    case Design => [Architecture, DesignDoc]
    case Plan => [TaskBreakdown, DependencyGraph]
    case Code => [Artifact, TestResult]
    case Validation => [IntegrationTests, SecurityScan]
    case Release => [ReleaseNotes, DeploymentPlan]
  }

  function PresentTypes(items: seq<EvidenceItem>): set<ItemType>
  {
    set i | 0 <= i < |items| :: items[i].itemType
  }

  function ValidateEvidence(b: Bundle): Result<bool, EvidenceError>
  {
    var present := PresentTypes(b.items);
    if b.items == [] then Err(NoItems(b.gateType))
    else if Required(b.gateType)[0] in present || Required(b.gateType)[1] in present then Ok(true)
    else Err(MissingRequired(b.gateType, present))
  }

  /** The bundle holds an item of a type that the gate asks for. */
  predicate Supports(b: Bundle, g: GateType)
  {
    exists i :: 0 <= i < |b.items| && b.items[i].itemType in Required(g)
  }

  /** A bundle passes exactly when it supports its own gate. */
  lemma AcceptedIffSupported(b: Bundle)
    ensures ValidateEvidence(b).Ok? <==> Supports(b, b.gateType)
  {
  }

  /** What a refusal says: whether there was no item at all, and otherwise what was there. */
  lemma RefusedExactly(b: Bundle)
    ensures ValidateEvidence(b) == Err(NoItems(b.gateType)) <==> b.items == []
    ensures b.items != [] && ValidateEvidence(b).Err? ==>
      ValidateEvidence(b) == Err(MissingRequired(b.gateType, PresentTypes(b.items)))
      && forall i :: 0 <= i < |b.items| ==> b.items[i].itemType !in Required(b.gateType)
  {
    if b.items != [] && ValidateEvidence(b).Err? {
      assert !Supports(b, b.gateType);
    }
  }

  /** The gate that an item type serves: the table read the other way. */
  function Serves(t: ItemType): Option<GateType>
  {
    match t
    case Prd => Some(Backlog)
    case AcceptanceCriteria => Some(Backlog)
    case Architecture => Some(Design)
    case DesignDoc => Some(Design)
    case TaskBreakdown => Some(Plan)
    case DependencyGraph => Some(Plan)
    case Artifact => Some(Code)
    case TestResult => Some(Code)
    case IntegrationTests => Some(Validation)
    case SecurityScan => Some(Validation)
    case ReleaseNotes => Some(Release)
    case DeploymentPlan => Some(Release)
    case Other(_) => None
  }

  /** A bundle passes exactly when one of its items serves its gate. */
  lemma AcceptedIffServed(b: Bundle)
    ensures ValidateEvidence(b).Ok? <==> exists i :: 0 <= i < |b.items| && Serves(b.items[i].itemType) == Some(b.gateType)
  {
    AcceptedIffSupported(b);
    assert forall t, g :: t in Required(g) <==> Serves(t) == Some(g);
  }

  /** Passing says something about another gate exactly when the two are the same: no
      item type serves two gates. */
  lemma AcceptanceCoversOnlyOwnGate(own: GateType, other: GateType)
    ensures (forall b: Bundle :: b.gateType == own && ValidateEvidence(b).Ok? ==> Supports(b, other))
            <==> own == other
  {
    if own == other {
      forall b: Bundle | b.gateType == own && ValidateEvidence(b).Ok? ensures Supports(b, other) {
        AcceptedIffSupported(b);
      }
    } else {
      var b := Bundle(0, "", own, "", [EvidenceItem(Required(own)[0], "", "", "")], 0, "");
      assert b.items[0].itemType in PresentTypes(b.items);
      assert ValidateEvidence(b).Ok? && !Supports(b, other);
    }
  }
}
