/** The public statistics strip: label flattening, label projection and the loading state. */
module StatsSection {
  import opened Wrappers
  import Locale

  /** A statistic as the page passes it: `{id, value, label: {en, ru, uz}}`. */
  datatype StatData = StatData(id: string, value: string, labels: Locale.Localized<string>)

  /**
   * A statistic as the component stores it: `{id, value, label, labelRu, labelUz}`
   * (`label` is a Dafny keyword, so the default column is called `labelEn` here).
   */
  datatype Stat = Stat(id: string, value: string, labelEn: string, labelRu: string, labelUz: string)

  /** One rendered entry: the value verbatim and the projected label. */
  datatype Entry = Entry(value: string, caption: string)

  /** The effect's `data.map(...)` flattening of one statistic. */
  function Flatten(d: StatData): Stat {
    Stat(d.id, d.value, d.labels.en, d.labels.ru, d.labels.uz)
  }

  /** Flattening the whole list keeps its length and order. */
  function FlattenAll(data: seq<StatData>): (stats: seq<Stat>)
    ensures |stats| == |data|
    ensures forall i :: 0 <= i < |data| ==> stats[i] == Flatten(data[i])
  {
    if data == [] then [] else [Flatten(data[0])] + FlattenAll(data[1..])
  }

  /** `lang === 'ru' ? stat.labelRu : lang === 'uz' ? stat.labelUz : stat.label` */
  function Label(lang: string, s: Stat): (r: string)
    ensures Locale.Parse(lang) == Some(Locale.Ru) ==> r == s.labelRu
    ensures Locale.Parse(lang) == Some(Locale.Uz) ==> r == s.labelUz
    ensures Locale.Parse(lang) != Some(Locale.Ru) && Locale.Parse(lang) != Some(Locale.Uz) ==> r == s.labelEn
  {
    if lang == "ru" then s.labelRu else if lang == "uz" then s.labelUz else s.labelEn
  }

  /** Flattening then projecting is the route-language switch over the nested labels. */
  lemma FlattenThenLabel(lang: string, d: StatData)
    ensures Label(lang, Flatten(d)) == Locale.Pick(Some(lang), d.labels)
  {
  }

  /** `params?.lang as string || 'en'` */
  function Lang(param: Option<string>): string {
    Locale.RouteLang(param, "en")
  }

  /** The component's state: `stats`, `loading`, and whether a fetch of `/api/stats` was started. */
  class StatsState {
    var stats: seq<Stat>
    var loading: bool
    var fetchStarted: bool

    /** `useState(!data)`: loading starts false exactly when data is supplied. */
    constructor (data: Option<seq<StatData>>)
      ensures stats == [] && loading == data.None? && !fetchStarted
    {
      stats := [];
      loading := data.None?;
      fetchStarted := false;
    }

    /** The effect: supplied data is flattened and no fetch happens; otherwise a fetch starts. */
    method RunEffect(data: Option<seq<StatData>>)
      modifies this
      ensures data.Some? ==> stats == FlattenAll(data.value) && !loading && fetchStarted == old(fetchStarted)
      ensures data.None? ==> stats == old(stats) && loading == old(loading) && fetchStarted
    {
      if data.Some? {
        stats := FlattenAll(data.value);
        loading := false;
      } else {
        fetchStarted := true;
      }
    }

    /** `fetchStats`: a successful fetch stores the rows; `loading` is cleared either way. */
    method OnFetched(result: Option<seq<Stat>>)
      modifies this
      ensures stats == if result.Some? then result.value else old(stats)
      ensures !loading && fetchStarted == old(fetchStarted)
    {
      if result.Some? {
        stats := result.value;
      }
      loading := false;
    }

    /** Nothing while loading; otherwise one entry per statistic, value verbatim, label projected. */
    function View(langParam: Option<string>): (v: Option<seq<Entry>>)
      reads this
      ensures v.None? <==> loading
      ensures v.Some? ==> |v.value| == |stats|
      ensures v.Some? ==> forall i :: 0 <= i < |stats| ==>
        v.value[i] == Entry(stats[i].value, Label(Lang(langParam), stats[i]))
    {
      if loading then None else Some(Entries(Lang(langParam), stats))
    }
  }

  function Entries(lang: string, stats: seq<Stat>): (es: seq<Entry>)
    ensures |es| == |stats|
    ensures forall i :: 0 <= i < |stats| ==> es[i] == Entry(stats[i].value, Label(lang, stats[i]))
  {
    if stats == [] then [] else [Entry(stats[0].value, Label(lang, stats[0]))] + Entries(lang, stats[1..])
  }

  /** With data supplied, the rendered labels are the nested labels in the route language, in order. */
  lemma SuppliedDataRendering(lang: string, data: seq<StatData>, i: nat)
    requires i < |data|
    ensures Entries(lang, FlattenAll(data))[i] == Entry(data[i].value, Locale.Pick(Some(lang), data[i].labels))
  {
    FlattenThenLabel(lang, data[i]);
  }
}
