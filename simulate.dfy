/** The simulated-detection endpoint (api/laws/real-simulate.ts): a
    constant table of regulations per industry key, a POST handler that
    validates the request, picks one regulation of the requested industry
    at random, parses its fine range and labels the result by impact.
    `Math.random()` is the parameter `rnd`; the clock is `now`. */
module Simulate {
  import opened Common
  import opened Text

  /** One table entry. `realData` is true and `umasValue` is 112.50 in every
      entry, so they are not stored. */
  datatype Regulation = Regulation(
    id: string,
    title: string,
    description: string,
    category: string,
    impactLevel: string,
    estimatedFine: string,
    deadline: string,
    complianceProgress: int,
    actionSteps: seq<string>,
    aiSummary: string,
    source: string,
    riskAreas: Option<seq<string>>,
    effectiveDate: string,
    revision2025: Option<string>)

  const Mineria: seq<Regulation> := [
    Regulation("nom-023-stps-2023", "NOM-023-STPS-2023",
      "Condiciones de seguridad para trabajos en minas - Actualización 2023",
      "Seguridad", "ALTO", "1,500 - 15,000 UMAS", "Inmediato", 25,
      ["Sistema de ventilación inteligente con monitoreo continuo",
       "Drones para inspección de túneles y estructuras",
       "Dispositivos IoT para monitoreo de gases en tiempo real",
       "Capacitación VR en seguridad minera trimestral",
       "Plan de ciberseguridad para sistemas de automatización"],
      "NORMA CRÍTICA ACTUALIZADA 2023: Incluye nuevas tecnologías y requisitos de digitalización. Multas aumentaron a 1,500-15,000 UMAS.",
      "DOF - 15/03/2023",
      Some(["Ventilación digital", "Automatización", "Ciberseguridad", "Monitoreo IoT"]),
      "2024-01-01", Some("Vigente con actualizaciones tecnológicas")),
    Regulation("nom-141-semarnat-2024", "NOM-141-SEMARNAT-2024",
      "Protección ambiental en actividades mineras - Criterios ESG 2024",
      "Ambiental", "ALTO", "8,000 - 80,000 UMAS", "120 días", 15,
      ["Reporte ESG trimestral obligatorio",
       "Huella de carbono certificada",
       "Sistema de captura de carbono en operaciones",
       "Monitoreo satelital de impacto ambiental",
       "Auditoría ambiental con drones trimestral"],
      "NORMA AMBIENTAL CRÍTICA 2024: Incorpora criterios ESG y sostenibilidad. Multas incrementadas hasta 80,000 UMAS por impacto ambiental grave.",
      "DOF - 10/09/2024",
      Some(["ESG", "Huella carbono", "Captura CO2", "Monitoreo satelital"]),
      "2025-01-01", None),
    Regulation("nom-155-semarnat-2025", "NOM-155-SEMARNAT-2025",
      "Límites máximos permisibles 2025 - Economía circular en minería",
      "Ambiental", "ALTO", "5,000 - 50,000 UMAS", "180 días", 10,
      ["Implementar sistema de economía circular",
       "Reutilización del 80% de aguas procesadas",
       "Certificación de cero descargas contaminantes",
       "Tecnología de nanofiltración en tratamiento",
       "Reporte digital en plataforma SEMARNAT 2025"],
      "NUEVA NORMA 2025: Enfoque en economía circular y cero descargas. Requiere inversión en tecnología avanzada de tratamiento.",
      "PROYECTO DOF - 2025",
      Some(["Economía circular", "Cero descargas", "Nanofiltración", "Digitalización"]),
      "2025-07-01", None)
  ]

  const Construction: seq<Regulation> := [
    Regulation("nom-031-stps-2024", "NOM-031-STPS-2024",
      "Construcción 4.0 - Seguridad con tecnología digital 2024",
      "Seguridad", "ALTO", "3,000 - 30,000 UMAS", "90 días", 30,
      ["Sensores IoT en andamios y estructuras",
       "Drones para inspección diaria de seguridad",
       "Realidad aumentada para capacitación",
       "Monitoreo biometrico de trabajadores",
       "Plataforma digital de gestión de seguridad"],
      "CONSTRUCCIÓN 4.0: Digitalización completa de procesos de seguridad. Multas por falta de tecnología hasta 30,000 UMAS.",
      "DOF - 20/06/2024", None, "2024-09-01", None),
    Regulation("nom-035-stps-2025", "NOM-035-STPS-2025",
      "Factores de riesgo psicosocial - Bienestar digital 2025",
      "Laboral", "MEDIO", "500 - 10,000 UMAS", "60 días", 40,
      ["Plataforma digital para evaluación psicosocial",
       "App de bienestar laboral para empleados",
       "Monitoreo de tecnoestrés y burnout digital",
       "Política de desconexión digital documentada",
       "Certificación de ambiente laboral saludable"],
      "ACTUALIZACIÓN 2025: Enfoque en salud digital y prevención del tecnoestrés. Nuevos requisitos de bienestar digital.",
      "PROYECTO DOF - 2025", None, "2025-03-01", None)
  ]

  const Manufactura: seq<Regulation> := [
    Regulation("nom-017-stps-2024", "NOM-017-STPS-2024",
      "Equipo de protección personal 4.0 - Tecnología wearable",
      "Seguridad", "MEDIO", "1,000 - 8,000 UMAS", "120 días", 35,
      ["EPP con sensores IoT (cascos, chalecos)",
       "Monitoreo continuo de signos vitales",
       "Dispositivos de localización en tiempo real",
       "Analítica predictiva de riesgos",
       "Integración con plataforma Industry 4.0"],
      "EPP 4.0: Transformación digital del equipo de protección. Requiere inversión en tecnología wearable.",
      "DOF - 05/11/2024", None, "2025-01-15", None),
    Regulation("nom-019-stps-2025", "NOM-019-STPS-2025",
      "Comisiones de seguridad e higiene - Digitalización 2025",
      "Administrativo", "MEDIO", "800 - 6,000 UMAS", "90 días", 45,
      ["Plataforma digital para comisiones de seguridad",
       "Sesiones virtuales con actas blockchain",
       "App móvil para reporte de incidentes",
       "Dashboard en tiempo real de métricas de seguridad",
       "Certificación digital de cumplimiento"],
      "DIGITALIZACIÓN 2025: Transformación completa a procesos digitales. Elimina el papel y automatiza reportes.",
      "PROYECTO DOF - 2025", None, "2025-06-01", None)
  ]

  const Alimentos: seq<Regulation> := [
    Regulation("nom-251-ssa1-2025", "NOM-251-SSA1-2025",
      "Trazabilidad digital completa en industria alimentaria",
      "Sanidad", "ALTO", "5,000 - 40,000 UMAS", "180 días", 20,
      ["Sistema blockchain para trazabilidad",
       "IoT en cadena de frío y almacenamiento",
       "Analítica predictiva de contaminación",
       "Certificación digital de procesos",
       "Plataforma integrada con autoridades sanitarias"],
      "TRAZABILIDAD DIGITAL 2025: Requiere implementación de blockchain e IoT. Multas por falta de trazabilidad digital.",
      "PROYECTO DOF - 2025", None, "2025-09-01", None)
  ]

  const Tecnologia: seq<Regulation> := [
    Regulation("nom-001-se-2025", "NOM-001-SE-2025",
      "Ciberseguridad y protección de datos en empresas tecnológicas",
      "Digital", "ALTO", "10,000 - 100,000 UMAS", "240 días", 15,
      ["Certificación ISO 27001 obligatoria",
       "Auditoría de ciberseguridad trimestral",
       "Plan de respuesta a incidentes digitales",
       "Protección de datos personales avanzada",
       "Reporte a autoridades digitales mensual"],
      "PRIMERA NOM DIGITAL: Regulación específica para sector tecnológico. Multas más altas del sistema por violaciones de datos.",
      "PROYECTO DOF - 2025", None, "2025-12-01", None)
  ]

  /** The table's keys in declaration order (`Object.keys`). */
  const IndustryKeys: seq<string> := ["mineria", "construction", "manufactura", "alimentos", "tecnologia"]

  /** The UMA value of 2025, 112.50 pesos, in centavos. */
  const UmaCentavos: int := 11250

  /** `REAL_MEXICAN_LAWS_2025[industry]` over the table's own keys. */
  function Lookup(industry: string): (r: Option<seq<Regulation>>)
    ensures r.Some? <==> industry in IndustryKeys
    ensures r.Some? ==> |r.value| > 0
  {
    if industry == "mineria" then Some(Mineria)
    else if industry == "construction" then Some(Construction)
    else if industry == "manufactura" then Some(Manufactura)
    else if industry == "alimentos" then Some(Alimentos)
    else if industry == "tecnologia" then Some(Tecnologia)
    else None
  }

  /** The two integers read from a fine range; `None` stands for NaN. */
  datatype FineBounds = FineBounds(min: Option<int>, max: Option<int>)

  /** The fine-range parse. `None` when the text has no `-`: reading the
      missing second piece throws, which the handler answers with 500. */
  function ParseFine(fine: string): Option<FineBounds> {
    var range := Split(fine, '-');
    if |range| < 2 then None
    else Some(FineBounds(
      ParseInt(RemoveFirst(Trim(range[0]), ',')),
      ParseInt(RemoveFirst(Split(Trim(range[1]), ' ')[0], ','))))
  }

  /** A figure written with digits and thousands commas. */
  predicate IsAmount(g: string) {
    |g| > 0 && IsDigit(g[0]) && IsDigit(g[|g| - 1])
    && forall i :: 0 <= i < |g| ==> IsDigit(g[i]) || g[i] == ','
  }

  /** On the table's format `"<a> - <b> UMAS"`, the minimum is `a` and the
      maximum `b`, each parsed after dropping its first comma. */
  lemma FineTextParses(a: string, b: string)
    requires IsAmount(a) && IsAmount(b)
    ensures ParseFine(a + " - " + b + " UMAS")
      == Some(FineBounds(ParseInt(RemoveFirst(a, ',')), ParseInt(RemoveFirst(b, ','))))
  {
    FineSplit(a, b);
    TrimAmount(a);
    MaxToken(b);
  }

  lemma AmountExcludes(g: string)
    requires IsAmount(g)
    ensures '-' !in g && ' ' !in g
  {
    assert forall i :: 0 <= i < |g| ==> g[i] != '-' && g[i] != ' ';
  }

  lemma FineSplit(a: string, b: string)
    requires IsAmount(a) && IsAmount(b)
    ensures Split(a + " - " + b + " UMAS", '-') == [a + " ", " " + b + " UMAS"]
  {
    var s := a + " - " + b + " UMAS";
    var left, right := a + " ", " " + b + " UMAS";
    AmountExcludes(a);
    AmountExcludes(b);
    assert '-' !in left;
    assert '-' !in right;
    assert s == left + ['-'] + right;
    SplitTwo(left, '-', right);
  }

  lemma TrimAmount(a: string)
    requires IsAmount(a)
    ensures Trim(a + " ") == a
  {
    TrimPadded("", a, " ");
    assert a + " " == "" + a + " ";
  }

  lemma MaxToken(b: string)
    requires IsAmount(b)
    ensures Split(Trim(" " + b + " UMAS"), ' ')[0] == b
  {
    var tail := b + " UMAS";
    TrimPadded(" ", tail, "");
    assert " " + b + " UMAS" == " " + tail + "";
    AmountExcludes(b);
    SplitTwo(b, ' ', "UMAS");
    assert tail == b + [' '] + "UMAS";
  }

  /** The fine-range parse on a range whose two figures are known. */
  lemma FineLiteral(a: string, b: string, va: int, vb: int)
    requires IsAmount(a) && IsAmount(b)
    requires ParseInt(RemoveFirst(a, ',')) == Some(va) && ParseInt(RemoveFirst(b, ',')) == Some(vb)
    ensures ParseFine(a + " - " + b + " UMAS") == Some(FineBounds(Some(va), Some(vb)))
  {
    FineTextParses(a, b);
  }

  lemma Amount1500()
    ensures IsAmount("1,500") && ParseInt(RemoveFirst("1,500", ',')) == Some(1500)
  {
    assert IndexFrom("1,500", ',', 0) == 1;
  }

  lemma Amount15000()
    ensures IsAmount("15,000") && ParseInt(RemoveFirst("15,000", ',')) == Some(15000)
  {
    assert IndexFrom("15,000", ',', 0) == 2;
  }

  lemma Amount8000()
    ensures IsAmount("8,000") && ParseInt(RemoveFirst("8,000", ',')) == Some(8000)
  {
    assert IndexFrom("8,000", ',', 0) == 1;
  }

  lemma Amount80000()
    ensures IsAmount("80,000") && ParseInt(RemoveFirst("80,000", ',')) == Some(80000)
  {
    assert IndexFrom("80,000", ',', 0) == 2;
  }

  lemma Amount5000()
    ensures IsAmount("5,000") && ParseInt(RemoveFirst("5,000", ',')) == Some(5000)
  {
    assert IndexFrom("5,000", ',', 0) == 1;
  }

  lemma Amount50000()
    ensures IsAmount("50,000") && ParseInt(RemoveFirst("50,000", ',')) == Some(50000)
  {
    assert IndexFrom("50,000", ',', 0) == 2;
  }

  lemma Amount3000()
    ensures IsAmount("3,000") && ParseInt(RemoveFirst("3,000", ',')) == Some(3000)
  {
    assert IndexFrom("3,000", ',', 0) == 1;
  }

  lemma Amount30000()
    ensures IsAmount("30,000") && ParseInt(RemoveFirst("30,000", ',')) == Some(30000)
  {
    assert IndexFrom("30,000", ',', 0) == 2;
  }

  lemma Amount500()
    ensures IsAmount("500") && ParseInt(RemoveFirst("500", ',')) == Some(500)
  {
    assert IndexFrom("500", ',', 0) == -1;
  }

  lemma Amount10000()
    ensures IsAmount("10,000") && ParseInt(RemoveFirst("10,000", ',')) == Some(10000)
  {
    assert IndexFrom("10,000", ',', 0) == 2;
  }

  lemma Amount1000()
    ensures IsAmount("1,000") && ParseInt(RemoveFirst("1,000", ',')) == Some(1000)
  {
    assert IndexFrom("1,000", ',', 0) == 1;
  }

  lemma Amount800()
    ensures IsAmount("800") && ParseInt(RemoveFirst("800", ',')) == Some(800)
  {
    assert IndexFrom("800", ',', 0) == -1;
  }

  lemma Amount6000()
    ensures IsAmount("6,000") && ParseInt(RemoveFirst("6,000", ',')) == Some(6000)
  {
    assert IndexFrom("6,000", ',', 0) == 1;
  }

  lemma Amount40000()
    ensures IsAmount("40,000") && ParseInt(RemoveFirst("40,000", ',')) == Some(40000)
  {
    assert IndexFrom("40,000", ',', 0) == 2;
  }

  lemma Amount100000()
    ensures IsAmount("100,000") && ParseInt(RemoveFirst("100,000", ',')) == Some(100000)
  {
    assert IndexFrom("100,000", ',', 0) == 3;
  }

  lemma MineriaFine0()
    ensures ParseFine(Mineria[0].estimatedFine) == Some(FineBounds(Some(1500), Some(15000)))
  {
    assert Mineria[0].estimatedFine == "1,500" + " - " + "15,000" + " UMAS";
    Amount1500();
    Amount15000();
    FineLiteral("1,500", "15,000", 1500, 15000);
  }

  lemma MineriaFine1()
    ensures ParseFine(Mineria[1].estimatedFine) == Some(FineBounds(Some(8000), Some(80000)))
  {
    assert Mineria[1].estimatedFine == "8,000" + " - " + "80,000" + " UMAS";
    Amount8000();
    Amount80000();
    FineLiteral("8,000", "80,000", 8000, 80000);
  }

  lemma MineriaFine2()
    ensures ParseFine(Mineria[2].estimatedFine) == Some(FineBounds(Some(5000), Some(50000)))
  {
    assert Mineria[2].estimatedFine == "5,000" + " - " + "50,000" + " UMAS";
    Amount5000();
    Amount50000();
    FineLiteral("5,000", "50,000", 5000, 50000);
  }

  lemma ConstructionFine0()
    ensures ParseFine(Construction[0].estimatedFine) == Some(FineBounds(Some(3000), Some(30000)))
  {
    assert Construction[0].estimatedFine == "3,000" + " - " + "30,000" + " UMAS";
    Amount3000();
    Amount30000();
    FineLiteral("3,000", "30,000", 3000, 30000);
  }

  lemma ConstructionFine1()
    ensures ParseFine(Construction[1].estimatedFine) == Some(FineBounds(Some(500), Some(10000)))
  {
    assert Construction[1].estimatedFine == "500" + " - " + "10,000" + " UMAS";
    Amount500();
    Amount10000();
    FineLiteral("500", "10,000", 500, 10000);
  }

  lemma ManufacturaFine0()
    ensures ParseFine(Manufactura[0].estimatedFine) == Some(FineBounds(Some(1000), Some(8000)))
  {
    assert Manufactura[0].estimatedFine == "1,000" + " - " + "8,000" + " UMAS";
    Amount1000();
    Amount8000();
    FineLiteral("1,000", "8,000", 1000, 8000);
  }

  lemma ManufacturaFine1()
    ensures ParseFine(Manufactura[1].estimatedFine) == Some(FineBounds(Some(800), Some(6000)))
  {
    assert Manufactura[1].estimatedFine == "800" + " - " + "6,000" + " UMAS";
    Amount800();
    Amount6000();
    FineLiteral("800", "6,000", 800, 6000);
  }

  lemma AlimentosFine0()
    ensures ParseFine(Alimentos[0].estimatedFine) == Some(FineBounds(Some(5000), Some(40000)))
  {
    assert Alimentos[0].estimatedFine == "5,000" + " - " + "40,000" + " UMAS";
    Amount5000();
    Amount40000();
    FineLiteral("5,000", "40,000", 5000, 40000);
  }

  lemma TecnologiaFine0()
    ensures ParseFine(Tecnologia[0].estimatedFine) == Some(FineBounds(Some(10000), Some(100000)))
  {
    assert Tecnologia[0].estimatedFine == "10,000" + " - " + "100,000" + " UMAS";
    Amount10000();
    Amount100000();
    FineLiteral("10,000", "100,000", 10000, 100000);
  }

  /** Every regulation of every industry has a parseable fine range whose
      minimum does not exceed its maximum. */
  lemma TableFinesOrdered(industry: string, i: int)
    requires Lookup(industry).Some? && 0 <= i < |Lookup(industry).value|
    ensures var f := ParseFine(Lookup(industry).value[i].estimatedFine);
      f.Some? && f.value.min.Some? && f.value.max.Some? && f.value.min.value <= f.value.max.value
  {
    if industry == "mineria" {
      if i == 0 { MineriaFine0(); } else if i == 1 { MineriaFine1(); } else { MineriaFine2(); }
    } else if industry == "construction" {
      if i == 0 { ConstructionFine0(); } else { ConstructionFine1(); }
    } else if industry == "manufactura" {
      if i == 0 { ManufacturaFine0(); } else { ManufacturaFine1(); }
    } else if industry == "alimentos" {
      AlimentosFine0();
    } else {
      TecnologiaFine0();
    }
  }

  /** `impactLevel === "ALTO" ? "CRÍTICO" : "MODERADO"` */
  function RiskLabel(impact: string): string {
    if impact == "ALTO" then "CRÍTICO" else "MODERADO"
  }

  function InvestmentLabel(impact: string): string {
    if impact == "ALTO" then "ALTA" else "MEDIA"
  }

  function PriorityLabel(impact: string): string {
    if impact == "ALTO" then "URGENTE" else "MEDIA"
  }

  /** The detection payload; `estimatedMXN`'s number formatting is not
      modelled, its two amounts are kept in centavos (`None` for NaN). */
  datatype Detection = Detection(
    industry: string,
    riskLevel: string,
    timestamp: string,
    regulation: Regulation,
    estimatedFine: string,
    minFineCentavos: Option<int>,
    maxFineCentavos: Option<int>,
    risk: string,
    investmentRequired: string,
    transformationDeadline: string,
    transformationPriority: string,
    priority: string,
    timeline: string,
    actions: seq<string>)

  /** The request body: absent, or present with or without `industry`. */
  datatype Body = NoBody | Body(industry: Option<string>)

  datatype SimReply =
    | Preflight
    | MethodNotAllowed
    | MissingIndustry(availableIndustries: seq<string>)
    | NoRegulations(industry: string, availableIndustries: seq<string>)
    | Detected(detection: Detection)
    | InternalError
  {
    function Status(): int {
      match this
      case Preflight => 200
      case MethodNotAllowed => 405
      case MissingIndustry(_) => 400
      case NoRegulations(_, _) => 404
      case Detected(_) => 200
      case InternalError => 500
    }
  }

  function ToCentavos(v: Option<int>): Option<int> {
    if v.Some? then Some(v.value * UmaCentavos) else None
  }

  /** `Math.floor(Math.random() * n)` for `0 <= rnd < 1`. */
  function RandomIndex(rnd: real, n: nat): (i: int)
    requires 0.0 <= rnd < 1.0 && n > 0
    ensures 0 <= i < n
  {
    var x := rnd * n as real;
    assert 0.0 <= x < n as real;
    x.Floor
  }

  function BuildDetection(industry: string, reg: Regulation, bounds: FineBounds, now: string): Detection {
    Detection(industry, reg.impactLevel, now, reg, reg.estimatedFine,
      ToCentavos(bounds.min), ToCentavos(bounds.max),
      RiskLabel(reg.impactLevel), InvestmentLabel(reg.impactLevel),
      reg.deadline, PriorityLabel(reg.impactLevel),
      PriorityLabel(reg.impactLevel), reg.deadline, reg.actionSteps)
  }

  /** The request handler. */
  function Handle(verb: string, body: Body, rnd: real, now: string): SimReply
    requires 0.0 <= rnd < 1.0
  {
    if verb == "OPTIONS" then Preflight
    else if verb != "POST" then MethodNotAllowed
    else if body.NoBody? then InternalError
    else if body.industry.None? || body.industry.value == "" then MissingIndustry(IndustryKeys)
    else
      var industry := body.industry.value;
      var found := Lookup(industry);
      if found.None? || |found.value| == 0 then NoRegulations(industry, IndustryKeys)
      else
        var reg := found.value[RandomIndex(rnd, |found.value|)];
        var bounds := ParseFine(reg.estimatedFine);
        if bounds.None? then InternalError
        else Detected(BuildDetection(industry, reg, bounds.value, now))
  }

  /** A pre-flight is answered 200 with no body, and any other method but
      POST is refused with 405. */
  lemma HandleMethodGuards(verb: string, body: Body, rnd: real, now: string)
    requires 0.0 <= rnd < 1.0
    ensures verb == "OPTIONS" ==> Handle(verb, body, rnd, now) == Preflight
    ensures verb != "OPTIONS" && verb != "POST" ==> Handle(verb, body, rnd, now) == MethodNotAllowed
    ensures Handle(verb, body, rnd, now).Status() == 405 <==> verb != "OPTIONS" && verb != "POST"
  {
  }

  /** A POST without an industry (absent or empty) is answered 400 with the
      five industry keys. */
  lemma HandleMissingIndustry(industry: Option<string>, rnd: real, now: string)
    requires 0.0 <= rnd < 1.0
    ensures Handle("POST", Body(industry), rnd, now).Status() == 400
      <==> industry.None? || industry.value == ""
    ensures (industry.None? || industry.value == "") ==>
      Handle("POST", Body(industry), rnd, now) == MissingIndustry(["mineria", "construction", "manufactura", "alimentos", "tecnologia"])
  {
  }

  /** A named industry is answered 404 exactly when it is not a key of the
      table; a key of the table is always answered 200 with one of that
      industry's regulations (never 500), labelled by its impact. */
  lemma HandleLookup(industry: string, rnd: real, now: string)
    requires 0.0 <= rnd < 1.0 && industry != ""
    ensures Handle("POST", Body(Some(industry)), rnd, now).Status() == 404 <==> industry !in IndustryKeys
    ensures industry in IndustryKeys ==>
      var r := Handle("POST", Body(Some(industry)), rnd, now);
      && r.Detected?
      && r.detection.regulation in Lookup(industry).value
      && r.detection.regulation == Lookup(industry).value[RandomIndex(rnd, |Lookup(industry).value|)]
      && r.detection.industry == industry
      && r.detection.minFineCentavos.Some? && r.detection.maxFineCentavos.Some?
      && r.detection.minFineCentavos.value <= r.detection.maxFineCentavos.value
  {
    var found := Lookup(industry);
    if found.Some? {
      var list := found.value;
      var i := RandomIndex(rnd, |list|);
      TableFinesOrdered(industry, i);
      var reg := list[i];
      var bounds := ParseFine(reg.estimatedFine);
      assert Handle("POST", Body(Some(industry)), rnd, now) == Detected(BuildDetection(industry, reg, bounds.value, now));
    }
  }

  /** The labels follow the impact level: critical risk, high investment and
      urgent priority exactly for "ALTO"; the recommendations carry the
      regulation's own deadline and action steps. */
  lemma DetectionLabels(industry: string, reg: Regulation, bounds: FineBounds, now: string)
    ensures var d := BuildDetection(industry, reg, bounds, now);
      && (d.risk == "CRÍTICO" <==> reg.impactLevel == "ALTO")
      && (d.risk != "CRÍTICO" ==> d.risk == "MODERADO")
      && (d.investmentRequired == "ALTA" <==> reg.impactLevel == "ALTO")
      && (d.priority == "URGENTE" <==> reg.impactLevel == "ALTO")
      && (d.priority != "URGENTE" ==> d.priority == "MEDIA")
      && d.transformationPriority == d.priority
      && d.riskLevel == reg.impactLevel
      && d.actions == reg.actionSteps
      && d.timeline == reg.deadline && d.transformationDeadline == reg.deadline
  {
  }
}
