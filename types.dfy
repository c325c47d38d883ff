/** The records shared by the dashboard, the chat and the audit panel.
    String unions become datatypes whose `Label` is the string the
    application stores and compares; optional AI-derived fields are
    `Option`s. */
module Types {
  import opened Common

  datatype ImpactLevel = Alto | Medio | Bajo {
    function Label(): string {
      match this
      case Alto => "Alto"
      case Medio => "Medio"
      case Bajo => "Bajo"
    }
  }

  /** The string union `'Alto' | 'Medio' | 'Bajo'` as a checker. */
  function ParseImpactLevel(s: string): (r: Option<ImpactLevel>)
    ensures r.Some? <==> s == "Alto" || s == "Medio" || s == "Bajo"
  {
    if s == "Alto" then Some(Alto)
    else if s == "Medio" then Some(Medio)
    else if s == "Bajo" then Some(Bajo)
    else None
  }

  /** Every impact level is exactly one of the three labels and reads back
      as itself; a string is accepted only when it is one of them. */
  lemma ImpactLevelRoundTrip(x: ImpactLevel, s: string)
    ensures ParseImpactLevel(x.Label()) == Some(x)
    ensures ParseImpactLevel(s) == Some(x) ==> s == x.Label()
  {
  }

  datatype LawStatus = Vencido | Cumple | Pendiente | EnRevision {
    function Label(): string {
      match this
      case Vencido => "Vencido"
      case Cumple => "Cumple"
      case Pendiente => "Pendiente"
      case EnRevision => "En Revisión"
    }
  }

  /** The string union of `status` as a checker. */
  function ParseLawStatus(s: string): (r: Option<LawStatus>)
    ensures r.Some? <==> s == "Vencido" || s == "Cumple" || s == "Pendiente" || s == "En Revisión"
  {
    if s == "Vencido" then Some(Vencido)
    else if s == "Cumple" then Some(Cumple)
    else if s == "Pendiente" then Some(Pendiente)
    else if s == "En Revisión" then Some(EnRevision)
    else None
  }

  lemma LawStatusRoundTrip(x: LawStatus, s: string)
    ensures ParseLawStatus(x.Label()) == Some(x)
    ensures ParseLawStatus(s) == Some(x) ==> s == x.Label()
  {
  }

  /** A regulation record. The last five fields are filled in by the AI
      analysis and may be absent; all others are required. */
  datatype Law = Law(
    id: string,
    title: string,
    description: string,
    category: string,
    isoImpact: string,
    impactLevel: ImpactLevel,
    status: LawStatus,
    dateAdded: string,
    aiSummary: Option<string>,
    actionSteps: Option<seq<string>>,
    estimatedFine: Option<string>,
    deadline: Option<string>,
    complianceProgress: Option<int>)

  /** `complianceProgress` is documented as a percentage; nothing enforces it. */
  predicate ProgressInRange(l: Law) {
    l.complianceProgress.Some? ==> 0 <= l.complianceProgress.value <= 100
  }

  datatype Role = UserRole | AiRole {
    function Label(): string {
      match this
      case UserRole => "user"
      case AiRole => "ai"
    }
  }

  /** A chat entry; `timestamp` is milliseconds since the epoch. */
  datatype ChatMessage = ChatMessage(id: string, role: Role, text: string, timestamp: int)

  datatype IndustryType = Mineria | Transporte | Alimentos | Construccion | Quimica | Tecnologia | Fintech {
    function Label(): string {
      match this
      case Mineria => "Minería"
      case Transporte => "Transporte"
      case Alimentos => "Alimentos"
      case Construccion => "Construcción"
      case Quimica => "Química"
      case Tecnologia => "Tecnología"
      case Fintech => "Fintech"
    }
  }

  /** Verdict of the document audit; `confidence` is a 0-100 score. */
  datatype AuditResult = AuditResult(compliant: bool, verdictTitle: string, analysis: string, confidence: int)
}
