/** The dashboard's regulation store (App.tsx): the in-memory `laws`
    sequence, the view derived from the active tab and the search box, the
    compliance aggregate over that view, prepend-on-discovery and the
    merge-patch enrichment of one record. The AI calls are oracles: their
    answers are the arguments of the continuation methods. */
module Records {
  import opened Common
  import opened Text
  import opened Types

  const Iso14001Tab: string := "Matriz ISO 14001"
  const Iso45001Tab: string := "Matriz ISO 45001"
  const DefaultTab: string := "Auditoría Viva"

  predicate InIso14001Matrix(l: Law) {
    Includes(l.isoImpact, "14001") || l.category == "Ambiental"
  }

  predicate InIso45001Matrix(l: Law) {
    Includes(l.isoImpact, "45001") || l.category == "Seguridad"
  }

  /** The context filter: only the two ISO matrix tabs narrow the list. */
  function TabView(laws: seq<Law>, tab: string): seq<Law> {
    if tab == Iso14001Tab then Filter(laws, InIso14001Matrix)
    else if tab == Iso45001Tab then Filter(laws, InIso45001Matrix)
    else laws
  }

  /** Case-insensitive search over title and description. */
  predicate MatchesSearch(query: string, l: Law) {
    Includes(ToLower(l.title), ToLower(query)) || Includes(ToLower(l.description), ToLower(query))
  }

  /** `displayLaws` */
  function DisplayLaws(laws: seq<Law>, tab: string, query: string): seq<Law> {
    Filter(TabView(laws, tab), l => MatchesSearch(query, l))
  }

  /** On the ISO 14001 tab a record survives the context filter iff its
      standard reference mentions 14001 or it is environmental. */
  lemma {:induction false} Iso14001TabSelects(laws: seq<Law>, l: Law)
    ensures l in TabView(laws, Iso14001Tab) <==> l in laws && InIso14001Matrix(l)
    ensures IsSubsequence(TabView(laws, Iso14001Tab), laws)
  {
    FilterMembership(laws, InIso14001Matrix, l);
    FilterSpec(laws, InIso14001Matrix);
  }

  /** On the ISO 45001 tab a record survives iff its standard reference
      mentions 45001 or it is a safety record. */
  lemma {:induction false} Iso45001TabSelects(laws: seq<Law>, l: Law)
    ensures l in TabView(laws, Iso45001Tab) <==> l in laws && InIso45001Matrix(l)
    ensures IsSubsequence(TabView(laws, Iso45001Tab), laws)
  {
    FilterMembership(laws, InIso45001Matrix, l);
    FilterSpec(laws, InIso45001Matrix);
  }

  /** Any other tab applies no context filter, and with an empty search the
      view is the whole store in its order. */
  lemma {:induction false} OtherTabEmptySearchShowsAll(laws: seq<Law>, tab: string)
    requires tab != Iso14001Tab && tab != Iso45001Tab
    ensures TabView(laws, tab) == laws
    ensures DisplayLaws(laws, tab, "") == laws
  {
    forall i | 0 <= i < |laws| ensures MatchesSearch("", laws[i]) {
      IncludesEmpty(ToLower(laws[i].title));
    }
    FilterAll(laws, l => MatchesSearch("", l));
  }

  /** The search keeps a record iff the lower-cased query occurs in the
      lower-cased title or description. */
  lemma {:induction false} SearchSelects(laws: seq<Law>, tab: string, query: string, l: Law)
    ensures l in DisplayLaws(laws, tab, query) <==>
      l in TabView(laws, tab)
      && ((exists k :: OccursAt(ToLower(l.title), ToLower(query), k))
          || (exists k :: OccursAt(ToLower(l.description), ToLower(query), k)))
  {
    FilterMembership(TabView(laws, tab), l => MatchesSearch(query, l), l);
    IncludesSpec(ToLower(l.title), ToLower(query));
    IncludesSpec(ToLower(l.description), ToLower(query));
  }

  /** The view is an order-preserving subsequence of the store, and every
      record in it matches the search. */
  lemma {:induction false} DisplayLawsIsSubsequence(laws: seq<Law>, tab: string, query: string)
    ensures IsSubsequence(DisplayLaws(laws, tab, query), laws)
    ensures forall i :: 0 <= i < |DisplayLaws(laws, tab, query)| ==> MatchesSearch(query, DisplayLaws(laws, tab, query)[i])
  {
    var tv := TabView(laws, tab);
    FilterSpec(tv, l => MatchesSearch(query, l));
    if tab == Iso14001Tab {
      FilterSpec(laws, InIso14001Matrix);
      SubsequenceTrans(DisplayLaws(laws, tab, query), tv, laws);
    } else if tab == Iso45001Tab {
      FilterSpec(laws, InIso45001Matrix);
      SubsequenceTrans(DisplayLaws(laws, tab, query), tv, laws);
    }
  }

  /** A record with category "Ambiental" but no standard reference is on the
      ISO 14001 matrix; a safety record without a 14001 reference is not. */
  lemma Iso14001Examples(a: Law, b: Law)
    requires a.category == "Ambiental" && a.isoImpact == ""
    requires b.category == "Seguridad" && !Includes(b.isoImpact, "14001")
    ensures a in TabView([a, b], Iso14001Tab) && b !in TabView([a, b], Iso14001Tab)
  {
    Iso14001TabSelects([a, b], a);
    Iso14001TabSelects([a, b], b);
  }

  function Progress(l: Law): int {
    l.complianceProgress.GetOr(0)
  }

  function SumProgress(view: seq<Law>): int {
    if |view| == 0 then 0 else Progress(view[0]) + SumProgress(view[1..])
  }

  /** `Math.round(sum / n)` for n > 0: JavaScript rounds halves up, i.e.
      floor(sum / n + 1/2), which is (2 sum + n) div 2n. */
  function RoundedMean(sum: int, n: int): (r: int)
    requires n > 0
    ensures n * (2 * r - 1) <= 2 * sum < n * (2 * r + 1)
  {
    var q := (2 * sum + n) / (2 * n);
    assert 2 * sum + n == 2 * n * q + (2 * sum + n) % (2 * n);
    q
  }

  /** `complianceStats` */
  function ComplianceStats(view: seq<Law>): int {
    if |view| == 0 then 0 else RoundedMean(SumProgress(view), |view|)
  }

  lemma {:induction false} SumProgressBounds(view: seq<Law>)
    requires forall i :: 0 <= i < |view| ==> ProgressInRange(view[i])
    ensures 0 <= SumProgress(view) <= 100 * |view|
  {
    if |view| > 0 {
      assert ProgressInRange(view[0]);
      SumProgressBounds(view[1..]);
    }
  }

  /** The aggregate is 0 on an empty view, and stays a percentage when every
      record's progress is one. */
  lemma {:induction false} ComplianceStatsInRange(view: seq<Law>)
    requires forall i :: 0 <= i < |view| ==> ProgressInRange(view[i])
    ensures |view| == 0 ==> ComplianceStats(view) == 0
    ensures 0 <= ComplianceStats(view) <= 100
  {
    SumProgressBounds(view);
    if |view| > 0 {
      var n, s, r := |view|, SumProgress(view), ComplianceStats(view);
      assert n * (2 * r - 1) <= 2 * s < n * (2 * r + 1);
      assert 0 < n * (2 * r + 1);
      assert n * (2 * r - 1) < n * 201;
    }
  }

  /** The AI fields returned by the deep analysis; absent ones are not sent. */
  datatype Patch = Patch(
    aiSummary: Option<string>,
    actionSteps: Option<seq<string>>,
    estimatedFine: Option<string>,
    deadline: Option<string>,
    complianceProgress: Option<int>)

  /** What the analysis returns when the model call fails. */
  const FallbackAnalysis: Patch :=
    Patch(Some("Análisis no disponible en este momento."), None, None, None, None)

  function Override<T>(old_: Option<T>, new_: Option<T>): Option<T> {
    if new_.Some? then new_ else old_
  }

  /** `{ ...l, ...analysis }` */
  function MergePatch(l: Law, p: Patch): Law {
    l.(aiSummary := Override(l.aiSummary, p.aiSummary),
       actionSteps := Override(l.actionSteps, p.actionSteps),
       estimatedFine := Override(l.estimatedFine, p.estimatedFine),
       deadline := Override(l.deadline, p.deadline),
       complianceProgress := Override(l.complianceProgress, p.complianceProgress))
  }

  /** Merge-patch keeps every required field, takes each field the patch
      carries, keeps each field it does not, and applying it twice is the
      same as once. */
  lemma MergePatchSpec(l: Law, p: Patch)
    ensures var m := MergePatch(l, p);
      && m.id == l.id && m.title == l.title && m.description == l.description
      && m.category == l.category && m.isoImpact == l.isoImpact
      && m.impactLevel == l.impactLevel && m.status == l.status && m.dateAdded == l.dateAdded
      && (p.aiSummary.Some? ==> m.aiSummary == p.aiSummary)
      && (p.aiSummary.None? ==> m.aiSummary == l.aiSummary)
      && (p.actionSteps.Some? ==> m.actionSteps == p.actionSteps)
      && (p.actionSteps.None? ==> m.actionSteps == l.actionSteps)
      && (p.estimatedFine.Some? ==> m.estimatedFine == p.estimatedFine)
      && (p.estimatedFine.None? ==> m.estimatedFine == l.estimatedFine)
      && (p.deadline.Some? ==> m.deadline == p.deadline)
      && (p.deadline.None? ==> m.deadline == l.deadline)
      && (p.complianceProgress.Some? ==> m.complianceProgress == p.complianceProgress)
      && (p.complianceProgress.None? ==> m.complianceProgress == l.complianceProgress)
      && MergePatch(m, p) == m
  {
  }

  /** `!law.aiSummary`: absent or empty. */
  predicate NeedsAnalysis(l: Law) {
    l.aiSummary.None? || l.aiSummary.value == ""
  }

  /** After the fallback (or any analysis carrying a non-empty summary) is
      merged in, the record is not analysed again. */
  lemma AnalysisSettles(l: Law, p: Patch)
    requires p.aiSummary.Some? && p.aiSummary.value != ""
    ensures !NeedsAnalysis(MergePatch(l, p))
    ensures !NeedsAnalysis(MergePatch(l, FallbackAnalysis))
  {
  }

  /** `laws.map(l => l.id === id ? { ...l, ...analysis } : l)` */
  function EnrichById(laws: seq<Law>, id: string, p: Patch): (r: seq<Law>)
    ensures |r| == |laws|
    ensures forall i :: 0 <= i < |laws| ==> r[i] == if laws[i].id == id then MergePatch(laws[i], p) else laws[i]
  {
    seq(|laws|, i requires 0 <= i < |laws| => if laws[i].id == id then MergePatch(laws[i], p) else laws[i])
  }

  /** Enrichment keeps the length, the order of ids and every record with
      another id, and is idempotent. */
  lemma EnrichByIdSpec(laws: seq<Law>, id: string, p: Patch)
    ensures forall i :: 0 <= i < |laws| ==> EnrichById(laws, id, p)[i].id == laws[i].id
    ensures forall i :: 0 <= i < |laws| && laws[i].id != id ==> EnrichById(laws, id, p)[i] == laws[i]
    ensures EnrichById(EnrichById(laws, id, p), id, p) == EnrichById(laws, id, p)
  {
    forall i | 0 <= i < |laws| {
      MergePatchSpec(laws[i], p);
    }
  }

  /** `[newLaw, ...prev]` when the discovery returned a record. */
  function Prepend(laws: seq<Law>, discovered: Option<Law>): seq<Law> {
    if discovered.Some? then [discovered.value] + laws else laws
  }

  /** A discovered record becomes the first one and the rest are untouched;
      no result leaves the store as it was. */
  lemma PrependSpec(laws: seq<Law>, discovered: Option<Law>)
    ensures discovered.None? ==> Prepend(laws, discovered) == laws
    ensures discovered.Some? ==>
      |Prepend(laws, discovered)| == |laws| + 1
      && Prepend(laws, discovered)[0] == discovered.value
      && Prepend(laws, discovered)[1..] == laws
  {
  }

  /** The two records the dashboard starts with; `now` is their `dateAdded`. */
  function SeedLaws(now: string): seq<Law> {
    [ Law("init-1", "Reforma NOM-141-SEMARNAT: Presas de Jales",
          "Nuevos criterios de caracterización de jales mineros y especificaciones para la preparación del sitio, proyecto, construcción y cierre.",
          "Ambiental", "ISO 14001", Alto, Vencido, now, None,
          Some(["Auditoría de estabilidad física de presas - Superintendente de Planta",
                "Actualizar análisis de lixiviados (CRIT) - Laboratorio Externo",
                "Revisión de fianza ambiental - Jurídico"]),
          Some("$2.5M - $8M MXN"), Some("45 días (Crítico)"), Some(25)),
      Law("init-2", "NOM-023-STPS-2012: Ventilación en Minas Subterráneas",
          "Actualización de protocolos de monitoreo de gases y tiempos de reentrada post-voladura.",
          "Seguridad", "ISO 45001", Alto, EnRevision, now, None,
          Some(["Calibración de detectores multigás - Mantenimiento",
                "Capacitación a brigadas de rescate - Seguridad e Higiene"]),
          Some("5,000 UMAS"), Some("15 de Diciembre, 2024"), Some(60)) ]
  }

  /** With the seed records (progress 25 and 60) the aggregate is 43, the
      round of 42.5. */
  lemma SeedStats(now: string)
    ensures ComplianceStats(SeedLaws(now)) == 43
  {
    var s := SeedLaws(now);
    assert SumProgress(s) == 85 by {
      assert SumProgress(s[1..]) == 60;
    }
  }

  /** The dashboard's state cells. */
  class Dashboard {
    var laws: seq<Law>
    var selectedLaw: Option<Law>
    var fetching: bool
    var searchQuery: string
    var activeTab: string
    /** The industry the AI calls are made for. */
    var industry: IndustryType

    constructor(now: string)
      ensures laws == SeedLaws(now) && selectedLaw == None && !fetching
      ensures searchQuery == "" && activeTab == DefaultTab && industry == Mineria
    {
      laws := SeedLaws(now);
      selectedLaw := None;
      fetching := false;
      searchQuery := "";
      activeTab := DefaultTab;
      industry := Mineria;
    }

    function View(): seq<Law>
      reads this
    {
      DisplayLaws(laws, activeTab, searchQuery)
    }

    function Stats(): int
      reads this
    {
      ComplianceStats(View())
    }

    method SetSearchQuery(q: string)
      modifies this
      ensures searchQuery == q
      ensures laws == old(laws) && selectedLaw == old(selectedLaw) && fetching == old(fetching)
      ensures activeTab == old(activeTab) && industry == old(industry)
    {
      searchQuery := q;
    }

    method SetActiveTab(tab: string)
      modifies this
      ensures activeTab == tab
      ensures laws == old(laws) && selectedLaw == old(selectedLaw) && fetching == old(fetching)
      ensures searchQuery == old(searchQuery) && industry == old(industry)
    {
      activeTab := tab;
    }

    /** The industry selector. */
    method SetIndustry(choice: IndustryType)
      modifies this
      ensures industry == choice
      ensures laws == old(laws) && selectedLaw == old(selectedLaw) && fetching == old(fetching)
      ensures searchQuery == old(searchQuery) && activeTab == old(activeTab)
    {
      industry := choice;
    }

    /** `handleFetchRealUpdates` up to the awaited discovery, which is
        asked for the current industry. */
    method BeginFetch() returns (discoverFor: IndustryType)
      modifies this
      ensures fetching && discoverFor == industry
      ensures laws == old(laws) && selectedLaw == old(selectedLaw)
      ensures searchQuery == old(searchQuery) && activeTab == old(activeTab) && industry == old(industry)
    {
      fetching := true;
      discoverFor := industry;
    }

    /** `handleFetchRealUpdates` after the discovery answered `discovered`
        (`None` for the model's null). */
    method FinishFetch(discovered: Option<Law>)
      modifies this
      ensures laws == Prepend(old(laws), discovered)
      ensures !fetching
      ensures selectedLaw == old(selectedLaw)
      ensures searchQuery == old(searchQuery) && activeTab == old(activeTab) && industry == old(industry)
    {
      if discovered.Some? {
        laws := [discovered.value] + laws;
      }
      fetching := false;
    }

    /** `handleLawClick` up to the awaited analysis: selects the record and
        says whether an analysis is requested, and for which industry. */
    method SelectLaw(law: Law) returns (requestAnalysis: bool, analyseFor: IndustryType)
      modifies this
      ensures selectedLaw == Some(law)
      ensures requestAnalysis == NeedsAnalysis(law) && analyseFor == industry
      ensures laws == old(laws) && fetching == old(fetching)
      ensures searchQuery == old(searchQuery) && activeTab == old(activeTab) && industry == old(industry)
    {
      selectedLaw := Some(law);
      requestAnalysis := law.aiSummary.None? || law.aiSummary.value == "";
      analyseFor := industry;
    }

    /** `handleLawClick` after the analysis of `law` answered `analysis`:
        every record with its id is patched, and the selection only if it
        still shows that id. */
    method ApplyAnalysis(law: Law, analysis: Patch)
      modifies this
      ensures laws == EnrichById(old(laws), law.id, analysis)
      ensures old(selectedLaw).Some? && old(selectedLaw).value.id == law.id ==>
        selectedLaw == Some(MergePatch(old(selectedLaw).value, analysis))
      ensures !(old(selectedLaw).Some? && old(selectedLaw).value.id == law.id) ==>
        selectedLaw == old(selectedLaw)
      ensures fetching == old(fetching)
      ensures searchQuery == old(searchQuery) && activeTab == old(activeTab) && industry == old(industry)
    {
      var i := 0;
      var patched: seq<Law> := [];
      while i < |laws|
        invariant 0 <= i <= |laws|
        invariant |patched| == i
        invariant forall k :: 0 <= k < i ==> patched[k] == if laws[k].id == law.id then MergePatch(laws[k], analysis) else laws[k]
      {
        patched := patched + [if laws[i].id == law.id then MergePatch(laws[i], analysis) else laws[i]];
        i := i + 1;
      }
      laws := patched;
      if selectedLaw.Some? && selectedLaw.value.id == law.id {
        selectedLaw := Some(MergePatch(selectedLaw.value, analysis));
      }
    }
  }
}
