/**
 * The experiment generator: the stored row of one experiment (its name, the `paramMH`
 * descriptor, the binarization and the initial state), the per-problem extra parameters, the
 * BEN dimension lookup, the instance-file path and its dimension cache, and the nested insert
 * loop that counts what it inserts.
 */
module PoblarDB {
  import opened Wrappers
  import opened Strings

  /** The problem families the generator knows ('BEN', 'SCP', 'USCP', 'KP'), and any other name. */
  datatype Problem = BEN | SCP | USCP | KP | Unknown(name: string)

  // ---------------------------------------------------------------------------
  // crear_data_experimento
  // ---------------------------------------------------------------------------

  /** One row of the experiments table, as the generator fills it. */
  datatype Experiment = Experiment(
    experimento: string,
    mh: string,
    binarizacion: string,
    paramMH: string,
    ml: string,
    paramML: string,
    mlFs: string,
    paramMLFs: string,
    estado: string)

  /** The experiment name: "<name> <dim>" for BEN, the bare instance name otherwise. */
  function ExperimentName(name: string, dim: int, problema: Problem): (n: string)
    ensures problema != BEN ==> n == name
    ensures problema == BEN && name != [] && NoSpace(name) ==> SplitWs(n) == [name, IntToString(dim)]
  {
    var n := if problema == BEN then name + " " + IntToString(dim) else name;
    assert problema == BEN && name != [] && NoSpace(name) ==> SplitWs(n) == [name, IntToString(dim)] by {
      if problema == BEN && name != [] && NoSpace(name) {
        IntToStringNoSpace(dim);
        SplitWsPair(name, IntToString(dim));
      }
    }
    n
  }

  /** The paramMH descriptor "iter:<iteraciones>,pop:<poblacion><extra>". */
  function ParamMH(iteraciones: int, poblacion: int, extraParams: string): (s: string)
    ensures StartsWith(s, "iter:") && EndsWith(s, extraParams)
  {
    "iter:" + IntToString(iteraciones) + ",pop:" + IntToString(poblacion) + extraParams
  }

  /** A missing or empty binarization is stored as 'N/A'. */
  function BinarizationLabel(binarizacion: Option<string>): (s: string)
    ensures s != ""
    ensures binarizacion.Some? && binarizacion.value != "" ==> s == binarizacion.value
  {
    if binarizacion.None? || binarizacion.value == "" then "N/A" else binarizacion.value
  }

  /** crear_data_experimento for the instance named `name`; every new row is 'pendiente'. */
  function CrearDataExperimento(name: string, dim: int, mh: string, binarizacion: Option<string>,
                                iteraciones: int, poblacion: int, extraParams: string, problema: Problem): (e: Experiment)
    ensures e.estado == "pendiente" && e.mh == mh
    ensures e.ml == "" && e.paramML == "" && e.mlFs == "" && e.paramMLFs == ""
  {
    Experiment(ExperimentName(name, dim, problema), mh, BinarizationLabel(binarizacion),
               ParamMH(iteraciones, poblacion, extraParams), "", "", "", "", "pendiente")
  }

  /** The paramMH of a generated row starts with the two counters, in the generator's format. */
  lemma ParamMHPrefix(iteraciones: int, poblacion: int, extraParams: string)
    ensures StartsWith(ParamMH(iteraciones, poblacion, extraParams), "iter:")
    ensures ParamMH(iteraciones, poblacion, extraParams)[|ParamMH(iteraciones, poblacion, "")|..] == extraParams
  {
    var head := "iter:" + IntToString(iteraciones) + ",pop:" + IntToString(poblacion);
    assert ParamMH(iteraciones, poblacion, extraParams) == head + extraParams;
    assert ParamMH(iteraciones, poblacion, "") == head;
  }

  // ---------------------------------------------------------------------------
  // extra parameters per problem
  // ---------------------------------------------------------------------------

  const ScpExtraParams: string := ",repair:complex,cros:0.4;mut:0.50"
  const KpDefaultExtraParams: string := ",cross:0.8;muta:0.1"

  /** "".join(f',{k}:{v}' for k, v in items) */
  function JoinPairs(items: seq<(string, string)>): (s: string)
    ensures items == [] <==> s == ""
    ensures s != "" ==> s[0] == ','
    decreases |items|
  {
    if items == [] then "" else "," + items[0].0 + ":" + items[0].1 + JoinPairs(items[1..])
  }

  /**
   * The extra parameters appended to paramMH: a fixed string for SCP and USCP; for KP the
   * configured pairs when the configuration has them, else the GA default; nothing otherwise.
   */
  function ExtraParams(problema: Problem, kpConfig: Option<seq<(string, string)>>): (s: string)
    ensures s == "" || s[0] == ','
    ensures problema != SCP && problema != USCP && problema != KP ==> s == ""
    ensures problema == KP && kpConfig.None? ==> s == KpDefaultExtraParams
  {
    if problema == SCP || problema == USCP then ScpExtraParams
    else if problema == KP then
      if kpConfig.Some? then JoinPairs(kpConfig.value) else KpDefaultExtraParams
    else ""
  }

  /** Every configured pair contributes one ",k:v" piece, in order. */
  lemma {:induction false} JoinPairsAppend(a: seq<(string, string)>, b: seq<(string, string)>)
    ensures JoinPairs(a + b) == JoinPairs(a) + JoinPairs(b)
    decreases |a|
  {
    if a != [] {
      assert (a + b)[1..] == a[1..] + b;
      JoinPairsAppend(a[1..], b);
    } else {
      assert a + b == b;
    }
  }

  // ---------------------------------------------------------------------------
  // obtener_dimensiones_ben
  // ---------------------------------------------------------------------------

  /** The first configuration key whose '-'-separated parts include the function name exactly. */
  function FirstKeyWith(config: seq<(string, seq<int>)>, funcion: string): (r: Option<nat>)
    ensures r.Some? ==> r.value < |config| && funcion in Split(config[r.value].0, '-')
    ensures r.Some? ==> forall k :: 0 <= k < r.value ==> funcion !in Split(config[k].0, '-')
    ensures r.None? ==> forall k :: 0 <= k < |config| ==> funcion !in Split(config[k].0, '-')
    decreases |config|
  {
    if config == [] then None
    else if funcion in Split(config[0].0, '-') then Some(0)
    else
      match FirstKeyWith(config[1..], funcion)
      case None => None
      case Some(k) => Some(k + 1)
  }

  /**
   * obtener_dimensiones_ben: the dimensions of the first matching configuration key, else the
   * single default dimension opfunu gives the function, else ValueError.
   */
  function ObtenerDimensionesBen(funcion: string, config: seq<(string, seq<int>)>, opfunuDefaults: map<string, int>): (r: Result<seq<int>>)
    ensures r.Err? <==> FirstKeyWith(config, funcion).None? && funcion !in opfunuDefaults
    ensures r.Err? ==> r.error == ValueError
    ensures FirstKeyWith(config, funcion).Some? ==> r == Ok(config[FirstKeyWith(config, funcion).value].1)
    ensures FirstKeyWith(config, funcion).None? && funcion in opfunuDefaults ==> r == Ok([opfunuDefaults[funcion]])
  {
    match FirstKeyWith(config, funcion)
    case Some(k) => Ok(config[k].1)
    case None =>
      if funcion in opfunuDefaults then Ok([opfunuDefaults[funcion]]) else Err(ValueError)
  }

  /** A key made of two dash-free names splits into exactly those two names. */
  lemma SplitKey(a: string, b: string)
    requires '-' !in a && '-' !in b
    ensures Split(a + "-" + b, '-') == [a, b]
  {
    assert a + "-" + b == a + ['-'] + b;
    SplitConcat(a, '-', b);
    SplitNoSep(a, '-');
    SplitNoSep(b, '-');
  }

  /**
   * Matching is by whole '-'-separated component: a key whose components both differ from the
   * function name is skipped even when one of them extends the name, and the next key that
   * lists the name supplies the dimensions.
   */
  lemma WholeComponentMatch(f: string, g: string, h: string, k: string, d1: seq<int>, d2: seq<int>,
                            opfunuDefaults: map<string, int>)
    requires '-' !in f && '-' !in g && '-' !in h && '-' !in k
    requires f != g && f != h
    ensures ObtenerDimensionesBen(f, [(g + "-" + h, d1), (f + "-" + k, d2)], opfunuDefaults) == Ok(d2)
  {
    var config := [(g + "-" + h, d1), (f + "-" + k, d2)];
    SplitKey(g, h);
    SplitKey(f, k);
    assert f !in Split(config[0].0, '-');
    assert f in Split(config[1].0, '-');
    assert FirstKeyWith(config[1..], f) == Some(0);
  }

  /** "F1" does not match the key "F10-F11" but matches "F1-F2". */
  lemma PrefixIsNotAMatch()
    ensures ObtenerDimensionesBen("F1", [("F10" + "-" + "F11", [10]), ("F1" + "-" + "F2", [30, 50])], map[]) == Ok([30, 50])
  {
    assert |"F1"| != |"F10"| && |"F1"| != |"F11"|;
    WholeComponentMatch("F1", "F10", "F11", "F2", [10], [30, 50], map[]);
  }

  // ---------------------------------------------------------------------------
  // obtener_dimensiones: instance paths and the dimension cache
  // ---------------------------------------------------------------------------

  /** The instance directory of each problem that has instance files. */
  function Directory(problema: Problem): Option<string> {
    match problema
    case SCP => Some("./Problem/SCP/Instances/")
    case USCP => Some("./Problem/USCP/Instances/")
    case KP => Some("./Problem/KP/Instances/")
    case _ => None
  }

  /** The USCP file stem: one leading 'u' is dropped when present. */
  function UscpStem(instance: string): (stem: string)
    ensures StartsWith(instance, "u") ==> "u" + stem == instance
    ensures !StartsWith(instance, "u") ==> stem == instance
  {
    if StartsWith(instance, "u") then instance[1..] else instance
  }

  /** The first path tried for an instance of a problem with an instance directory. */
  function InstancePath(instance: string, problema: Problem): (p: string)
    requires Directory(problema).Some?
    ensures problema == SCP ==> p == "./Problem/SCP/Instances/scp" + instance + ".txt"
    ensures problema == USCP ==> p == "./Problem/USCP/Instances/uscp" + UscpStem(instance) + ".txt"
    ensures problema == KP && !StartsWith(instance, "/") ==> p == "./Problem/KP/Instances/" + instance
    ensures problema == KP && StartsWith(instance, "/") ==> p == instance
  {
    var dir := Directory(problema).value;
    if problema == SCP then
      var name := "scp" + instance + ".txt";
      assert name[..1] == "s" && dir[|dir| - 1] == '/';
      PathJoin(dir, name)
    else if problema == USCP then
      var name := "uscp" + UscpStem(instance) + ".txt";
      assert name[..1] == "u" && dir[|dir| - 1] == '/';
      PathJoin(dir, name)
    else PathJoin(dir, instance)
  }

  /** The file that is opened: the first path, or for KP that path plus ".txt"; FileNotFoundError otherwise. */
  function ResolvePath(instance: string, problema: Problem, existing: set<string>): (r: Result<string>)
    requires Directory(problema).Some?
    ensures r.Ok? ==> r.value in existing
    ensures r.Err? ==> r.error == FileNotFoundError
    ensures var p := InstancePath(instance, problema);
            r.Err? <==> p !in existing && (problema != KP || EndsWith(p, ".txt") || p + ".txt" !in existing)
    ensures var p := InstancePath(instance, problema);
            r.Ok? ==> r.value == p || (problema == KP && !EndsWith(p, ".txt") && r.value == p + ".txt")
    ensures InstancePath(instance, problema) in existing ==> r == Ok(InstancePath(instance, problema))
  {
    var p := InstancePath(instance, problema);
    if p in existing then Ok(p)
    else if problema == KP && !EndsWith(p, ".txt") then
      if p + ".txt" in existing then Ok(p + ".txt") else Err(FileNotFoundError)
    else Err(FileNotFoundError)
  }

  /**
   * A cache lookup followed, on a miss, by the file read: "-" for a problem without an
   * instance directory (not cached), otherwise the text `read` produces for the resolved file
   * (cached when it succeeds). `existing` is the set of files on disk.
   */
  function CachedDimensions(cache: map<(string, Problem), string>, instance: string, problema: Problem,
                            existing: set<string>, read: string -> Result<string>)
    : (r: (Result<string>, map<(string, Problem), string>))
    ensures (instance, problema) in cache ==> r == (Ok(cache[(instance, problema)]), cache)
    ensures Directory(problema).Some? && r.0.Ok? ==> (instance, problema) in r.1 && r.1[(instance, problema)] == r.0.value
    ensures forall key :: key in cache ==> key in r.1 && r.1[key] == cache[key]
    ensures (instance, problema) !in cache && Directory(problema).None? ==> r == (Ok("-"), cache)
    ensures (instance, problema) !in cache && Directory(problema).Some? ==>
              r.0 == match ResolvePath(instance, problema, existing)
                     case Err(e) => Err(e)
                     case Ok(p) => read(p)
    ensures r.0.Err? ==> r.1 == cache
    ensures r.1 == cache || (r.0.Ok? && r.1 == cache[(instance, problema) := r.0.value])
  {
    if (instance, problema) in cache then (Ok(cache[(instance, problema)]), cache)
    else if Directory(problema).None? then (Ok("-"), cache)
    else
      match ResolvePath(instance, problema, existing)
      case Err(e) => (Err(e), cache)
      case Ok(p) =>
        match read(p)
        case Err(e) => (Err(e), cache)
        case Ok(d) => (Ok(d), cache[(instance, problema) := d])
  }

  /** A repeated (instance, problem) pair returns the first answer without looking at any file again. */
  lemma RepeatedLookupUsesCache(cache: map<(string, Problem), string>, instance: string, problema: Problem,
                                existing: set<string>, read: string -> Result<string>,
                                existing': set<string>, read': string -> Result<string>)
    requires CachedDimensions(cache, instance, problema, existing, read).0.Ok?
    ensures var first := CachedDimensions(cache, instance, problema, existing, read);
            CachedDimensions(first.1, instance, problema, existing', read') == first
  {
  }

  // ---------------------------------------------------------------------------
  // insertar_experimentos
  // ---------------------------------------------------------------------------

  /** What the database insert receives as the instance: its id, or for BEN the whole (id, name) row. */
  datatype InstanceRef = InstanceId(id: int) | InstanceRow(rowId: int, rowName: string)

  datatype Insertion = Insertion(data: Experiment, numExperimentos: int, instance: InstanceRef)

  /** The 'Dimensión' of a summary: the dimension text of the instance, or the BEN dimension. */
  datatype Dimension = DimText(text: string) | DimSize(size: int)

  /** One entry of log_resumen (crear_resumen_log). */
  datatype Summary = Summary(
    problema: Problem,
    instancia: string,
    dimension: Dimension,
    mh: string,
    iteraciones: int,
    poblacion: int,
    binarizacion: string,
    extraParams: string,
    totalExperimentos: int)

  /** The loop coordinates of one insert: dimension, metaheuristic, and binarization (None for BEN). */
  datatype Row = Row(dim: int, mh: string, ds: Option<string>)

  /** The arguments of insertar_experimentos that stay fixed during the call. */
  datatype Settings = Settings(
    numExperimentos: int,
    iteraciones: int,
    poblacion: int,
    problema: Problem,
    extraParams: string)

  /** The problems whose experiments iterate over the binarization actions. */
  predicate Discrete(problema: Problem) {
    problema == SCP || problema == USCP || problema == KP
  }

  /** The insert of one row for the instance (id, name). */
  function InsertionOf(inst: (int, string), s: Settings, row: Row): Insertion {
    var data := CrearDataExperimento(inst.1, row.dim, row.mh, row.ds, s.iteraciones, s.poblacion,
                                     s.extraParams, s.problema);
    Insertion(data, s.numExperimentos,
              if Discrete(s.problema) then InstanceId(inst.0) else InstanceRow(inst.0, inst.1))
  }

  /** The summary of one insert; `dims` is what obtener_dimensiones returned for the instance. */
  function SummaryOf(inst: (int, string), s: Settings, row: Row, dims: string): Summary {
    Summary(s.problema, inst.1, if s.problema != BEN then DimText(dims) else DimSize(row.dim),
            row.mh, s.iteraciones, s.poblacion, BinarizationLabel(row.ds), s.extraParams, s.numExperimentos)
  }

  /**
   * The binarization labels one metaheuristic is inserted with: every action for a discrete
   * problem, a single missing one otherwise.
   */
  function Labels(discrete: bool, ds: seq<string>): (labels: seq<Option<string>>)
    ensures discrete ==> |labels| == |ds| && forall k :: 0 <= k < |ds| ==> labels[k] == Some(ds[k])
    ensures !discrete ==> labels == [None]
  {
    if discrete then seq(|ds|, k requires 0 <= k < |ds| => Some(ds[k])) else [None]
  }

  /** The rows of the innermost loop: one per label. */
  function PlanLabels(dim: int, mh: string, labels: seq<Option<string>>): (rows: seq<Row>)
    ensures |rows| == |labels|
    decreases |labels|
  {
    if labels == [] then [] else PlanLabels(dim, mh, labels[..|labels| - 1]) + [Row(dim, mh, labels[|labels| - 1])]
  }

  /** The rows for one dimension: per metaheuristic, one per label. */
  function PlanMhs(dim: int, mhs: seq<string>, labels: seq<Option<string>>): (rows: seq<Row>)
    decreases |mhs|
  {
    if mhs == [] then [] else PlanMhs(dim, mhs[..|mhs| - 1], labels) + PlanLabels(dim, mhs[|mhs| - 1], labels)
  }

  /** All rows, in the loops' nesting order: dimension, then metaheuristic, then label. */
  function Plan(dims: seq<int>, mhs: seq<string>, labels: seq<Option<string>>): (rows: seq<Row>)
    ensures |rows| == |dims| * (|mhs| * |labels|)
    decreases |dims|
  {
    if dims == [] then []
    else
      PlanMhsSize(dims[|dims| - 1], mhs, labels);
      MulSucc(|dims| - 1, |mhs| * |labels|);
      Plan(dims[..|dims| - 1], mhs, labels) + PlanMhs(dims[|dims| - 1], mhs, labels)
  }

  /** The inserts of the rows, in order. */
  function Insertions(inst: (int, string), s: Settings, rows: seq<Row>): (r: seq<Insertion>)
    ensures |r| == |rows|
  {
    seq(|rows|, k requires 0 <= k < |rows| => InsertionOf(inst, s, rows[k]))
  }

  /** The summaries of the rows, in order, all with the same dimension text. */
  function Summaries(inst: (int, string), s: Settings, rows: seq<Row>, dims: string): (r: seq<Summary>)
    ensures |r| == |rows|
  {
    seq(|rows|, k requires 0 <= k < |rows| => SummaryOf(inst, s, rows[k], dims))
  }

  /** (a + 1) * w == a * w + w, the step every count below takes. */
  lemma MulSucc(a: int, w: int)
    ensures (a + 1) * w == a * w + w
  {
  }

  /** The number of inserts: dimensions x metaheuristics x labels. */
  lemma {:induction false} PlanMhsSize(dim: int, mhs: seq<string>, labels: seq<Option<string>>)
    ensures |PlanMhs(dim, mhs, labels)| == |mhs| * |labels|
    decreases |mhs|
  {
    if mhs != [] {
      PlanMhsSize(dim, mhs[..|mhs| - 1], labels);
      MulSucc(|mhs| - 1, |labels|);
    }
  }

  /** Every inserted row takes its dimension, metaheuristic and label from the loops' lists. */
  lemma {:induction false} PlanRows(dims: seq<int>, mhs: seq<string>, labels: seq<Option<string>>, k: nat)
    requires k < |Plan(dims, mhs, labels)|
    ensures Plan(dims, mhs, labels)[k].dim in dims
    ensures Plan(dims, mhs, labels)[k].mh in mhs
    ensures Plan(dims, mhs, labels)[k].ds in labels
    decreases |dims|
  {
    var front := Plan(dims[..|dims| - 1], mhs, labels);
    if k < |front| {
      PlanRows(dims[..|dims| - 1], mhs, labels, k);
      assert dims[..|dims| - 1] <= dims;
    } else {
      PlanMhsRows(dims[|dims| - 1], mhs, labels, k - |front|);
    }
  }

  lemma {:induction false} PlanMhsRows(dim: int, mhs: seq<string>, labels: seq<Option<string>>, k: nat)
    requires k < |PlanMhs(dim, mhs, labels)|
    ensures PlanMhs(dim, mhs, labels)[k].dim == dim
    ensures PlanMhs(dim, mhs, labels)[k].mh in mhs
    ensures PlanMhs(dim, mhs, labels)[k].ds in labels
    decreases |mhs|
  {
    var front := PlanMhs(dim, mhs[..|mhs| - 1], labels);
    if k < |front| {
      PlanMhsRows(dim, mhs[..|mhs| - 1], labels, k);
      assert mhs[..|mhs| - 1] <= mhs;
    } else {
      PlanLabelsRow(dim, mhs[|mhs| - 1], labels, k - |front|);
    }
  }

  /** The k-th row of the innermost loop carries the k-th label. */
  lemma {:induction false} PlanLabelsRow(dim: int, mh: string, labels: seq<Option<string>>, k: nat)
    requires k < |labels|
    ensures PlanLabels(dim, mh, labels)[k] == Row(dim, mh, labels[k])
    decreases |labels|
  {
    if k < |labels| - 1 {
      PlanLabelsRow(dim, mh, labels[..|labels| - 1], k);
    }
  }

  /** Inserting one more row appends its insert and its summary. */
  lemma RowsSnoc(inst: (int, string), s: Settings, done: seq<Row>, row: Row, dims: string)
    ensures Insertions(inst, s, done + [row]) == Insertions(inst, s, done) + [InsertionOf(inst, s, row)]
    ensures Summaries(inst, s, done + [row], dims) == Summaries(inst, s, done, dims) + [SummaryOf(inst, s, row, dims)]
  {
    assert Insertions(inst, s, done + [row]) == Insertions(inst, s, done) + [InsertionOf(inst, s, row)];
    assert Summaries(inst, s, done + [row], dims) == Summaries(inst, s, done, dims) + [SummaryOf(inst, s, row, dims)];
  }

  lemma AppendAssoc<T>(a: seq<T>, b: seq<T>, c: seq<T>)
    ensures (a + b) + c == a + (b + c)
  {
  }

  /** The instance insertar_experimentos reads (instancias[0]); a placeholder when the list is empty. */
  function FirstInstance(instancias: seq<(int, string)>): (int, string) {
    if |instancias| > 0 then instancias[0] else (0, "")
  }

  /**
   * The generator's state when insertar_experimentos starts (cache, inserts, log, counter),
   * with the answer of its first dimension lookup and the cache after it.
   */
  datatype Start = Start(
    first: (Result<string>, map<(string, Problem), string>),
    cache: map<(string, Problem), string>,
    inserted: seq<Insertion>,
    log: seq<Summary>,
    cantidad: int)

  /**
   * The generator state after the rows `done`: each inserted and counted, and each summarised
   * with the first lookup's dimension text, which has then been cached (when the lookup caches).
   */
  ghost predicate ProgressOf(inserted: seq<Insertion>, cantidad: int, log: seq<Summary>,
                             cache: map<(string, Problem), string>, inst: (int, string), s: Settings, st: Start,
                             done: seq<Row>)
  {
    inserted == st.inserted + Insertions(inst, s, done) && cantidad == st.cantidad + |done| * s.numExperimentos
    && (done == [] ==> log == st.log && cache == st.cache)
    && (done != [] ==> st.first.0.Ok? && log == st.log + Summaries(inst, s, done, st.first.0.value)
                       && cache == st.first.1)
  }

  /** One more row, inserted, counted and summarised with the first lookup's answer, keeps the progress. */
  lemma ProgressSnoc(inserted: seq<Insertion>, cantidad: int, log: seq<Summary>,
                     cache: map<(string, Problem), string>, inst: (int, string), s: Settings, st: Start,
                     done: seq<Row>, row: Row, dims: string)
    requires ProgressOf(inserted, cantidad, log, cache, inst, s, st, done)
    requires st.first.0 == Ok(dims)
    ensures ProgressOf(inserted + [InsertionOf(inst, s, row)], cantidad + s.numExperimentos,
                       log + [SummaryOf(inst, s, row, dims)], st.first.1, inst, s, st, done + [row])
  {
    MulSucc(|done|, s.numExperimentos);
    RowsSnoc(inst, s, done, row, dims);
  }

  /**
   * The generator's module state: the dimension cache, the global counter and summary log,
   * and the rows it has inserted into the experiments table.
   */
  class Generator {
    var dimensionesCache: map<(string, Problem), string>
    var cantidad: int
    var logResumen: seq<Summary>
    var inserted: seq<Insertion>

    constructor()
      ensures dimensionesCache == map[] && cantidad == 0 && logResumen == [] && inserted == []
    {
      dimensionesCache := map[];
      cantidad := 0;
      logResumen := [];
      inserted := [];
    }

    /** obtener_dimensiones */
    method ObtenerDimensiones(instance: string, problema: Problem, existing: set<string>, read: string -> Result<string>)
      returns (r: Result<string>)
      modifies this
      ensures (r, dimensionesCache) == CachedDimensions(old(dimensionesCache), instance, problema, existing, read)
      ensures cantidad == old(cantidad) && logResumen == old(logResumen) && inserted == old(inserted)
    {
      if (instance, problema) in dimensionesCache {
        return Ok(dimensionesCache[(instance, problema)]);
      }
      if Directory(problema).None? {
        return Ok("-");
      }
      var path := ResolvePath(instance, problema, existing);
      if path.Err? {
        return Err(path.error);
      }
      var dims := read(path.value);
      if dims.Err? {
        return dims;
      }
      dimensionesCache := dimensionesCache[(instance, problema) := dims.value];
      r := dims;
    }

    /**
     * The state after the rows `done`: each inserted and counted, and each summarised with the
     * first lookup's dimension text, which has then been cached (when the lookup caches).
     */
    ghost predicate Progress(inst: (int, string), s: Settings, st: Start, done: seq<Row>)
      reads this
    {
      ProgressOf(inserted, cantidad, logResumen, dimensionesCache, inst, s, st, done)
    }

    /**
     * The state after the first row failed: with no instance nothing changed (IndexError);
     * otherwise the row was inserted and counted but not logged, and the lookup's error is raised.
     */
    ghost predicate FailedAt(instancias: seq<(int, string)>, s: Settings, st: Start, row: Row, r: Result<()>)
      reads this
    {
      r.Err? && logResumen == st.log && dimensionesCache == st.cache
      && (instancias == [] ==> r.error == IndexError && inserted == st.inserted && cantidad == st.cantidad)
      && (instancias != [] ==>
            st.first.0.Err? && r.error == st.first.0.error && inserted == st.inserted + [InsertionOf(instancias[0], s, row)]
            && cantidad == st.cantidad + s.numExperimentos)
    }

    /** The start state and first lookup of a call on `instancias` with these settings. */
    ghost predicate Started(instancias: seq<(int, string)>, s: Settings, st: Start, existing: set<string>,
                            read: string -> Result<string>)
    {
      st.first == CachedDimensions(st.cache, FirstInstance(instancias).1, s.problema, existing, read)
    }

    /** One insert: the experiment row, its count, then the summary and its dimension lookup. */
    method InsertRow(instancias: seq<(int, string)>, s: Settings, row: Row, existing: set<string>,
                     read: string -> Result<string>, ghost st: Start, ghost done: seq<Row>)
      returns (r: Result<()>)
      requires Started(instancias, s, st, existing, read)
      requires Progress(FirstInstance(instancias), s, st, done)
      requires instancias == [] ==> done == []
      modifies this
      ensures r.Ok? ==> instancias != [] && Progress(FirstInstance(instancias), s, st, done + [row])
      ensures r.Err? ==> done == [] && FailedAt(instancias, s, st, row, r)
    {
      if |instancias| == 0 {
        return Err(IndexError);
      }
      var inst := instancias[0];
      if done != [] {
        RepeatedLookupUsesCache(st.cache, inst.1, s.problema, existing, read, existing, read);
      }
      ghost var (i1, n1, l1) := (inserted, cantidad, logResumen);
      inserted := inserted + [InsertionOf(inst, s, row)];
      cantidad := cantidad + s.numExperimentos;
      var dims := ObtenerDimensiones(inst.1, s.problema, existing, read);
      assert (dims, dimensionesCache) == st.first;
      if dims.Err? {
        return Err(dims.error);
      }
      logResumen := logResumen + [SummaryOf(inst, s, row, dims.value)];
      ProgressSnoc(i1, n1, l1, old(dimensionesCache), inst, s, st, done, row, dims.value);
      r := Ok(());
    }

    /**
     * The innermost loop: for a discrete problem one insert per binarization action, for any
     * other problem the single insert without one.
     */
    method InsertLabels(instancias: seq<(int, string)>, s: Settings, dim: int, mh: string, labels: seq<Option<string>>,
                        existing: set<string>, read: string -> Result<string>, ghost st: Start, ghost done: seq<Row>)
      returns (r: Result<()>, ghost done': seq<Row>)
      requires Started(instancias, s, st, existing, read)
      requires Progress(FirstInstance(instancias), s, st, done)
      requires instancias == [] ==> done == []
      modifies this
      ensures r.Ok? ==> done' == done + PlanLabels(dim, mh, labels)
      ensures r.Ok? ==> Progress(FirstInstance(instancias), s, st, done')
      ensures r.Ok? ==> (instancias == [] ==> done' == [])
      ensures r.Err? ==> done == [] && |labels| > 0 && FailedAt(instancias, s, st, Row(dim, mh, labels[0]), r)
    {
      done' := done;
      var k := 0;
      while k < |labels|
        invariant 0 <= k <= |labels|
        invariant done' == done + PlanLabels(dim, mh, labels[..k])
        invariant Progress(FirstInstance(instancias), s, st, done')
        invariant instancias == [] ==> done' == []
        invariant done' == [] ==> k == 0
      {
        assert labels[..k + 1][..k] == labels[..k];
        var row := Row(dim, mh, labels[k]);
        r := InsertRow(instancias, s, row, existing, read, st, done');
        if r.Err? {
          return;
        }
        done' := done' + [row];
        k := k + 1;
      }
      assert labels[..k] == labels;
      r := Ok(());
    }

    /** The loop over the metaheuristics for one dimension. */
    method InsertMhs(instancias: seq<(int, string)>, s: Settings, dim: int, mhs: seq<string>, labels: seq<Option<string>>,
                     existing: set<string>, read: string -> Result<string>, ghost st: Start, ghost done: seq<Row>)
      returns (r: Result<()>, ghost done': seq<Row>)
      requires Started(instancias, s, st, existing, read)
      requires Progress(FirstInstance(instancias), s, st, done)
      requires instancias == [] ==> done == []
      modifies this
      ensures r.Ok? ==> done' == done + PlanMhs(dim, mhs, labels)
      ensures r.Ok? ==> Progress(FirstInstance(instancias), s, st, done')
      ensures r.Ok? ==> (instancias == [] ==> done' == [])
      ensures r.Ok? && done' == done ==> |mhs| == 0 || |labels| == 0
      ensures r.Err? ==> done == [] && |mhs| > 0 && |labels| > 0
      ensures r.Err? ==> FailedAt(instancias, s, st, Row(dim, mhs[0], labels[0]), r)
    {
      done' := done;
      var j := 0;
      while j < |mhs|
        invariant 0 <= j <= |mhs|
        invariant done' == done + PlanMhs(dim, mhs[..j], labels)
        invariant Progress(FirstInstance(instancias), s, st, done')
        invariant instancias == [] ==> done' == []
        invariant done' == done ==> j == 0 || |labels| == 0
      {
        assert mhs[..j + 1][..j] == mhs[..j];
        ghost var before := done';
        r, done' := InsertLabels(instancias, s, dim, mhs[j], labels, existing, read, st, done');
        if r.Err? {
          return;
        }
        AppendAssoc(done, PlanMhs(dim, mhs[..j], labels), PlanLabels(dim, mhs[j], labels));
        j := j + 1;
      }
      assert mhs[..j] == mhs;
      r := Ok(());
    }

    /**
     * insertar_experimentos: for every dimension and metaheuristic, and for a discrete problem
     * every binarization action, insert the experiment, count it, and log its summary. The
     * first row fails with IndexError when there is no instance, or with the error of the
     * dimension lookup, after that row was inserted and counted but before it was logged.
     */
    method InsertarExperimentos(instancias: seq<(int, string)>, dims: seq<int>, mhs: seq<string>, s: Settings,
                                dsActions: seq<string>, existing: set<string>, read: string -> Result<string>)
      returns (r: Result<()>)
      modifies this
      ensures var rows := Plan(dims, mhs, Labels(Discrete(s.problema), dsActions));
        var first := CachedDimensions(old(dimensionesCache), FirstInstance(instancias).1, s.problema, existing, read);
        && (r.Ok? ==> inserted == old(inserted) + Insertions(FirstInstance(instancias), s, rows)
                      && cantidad == old(cantidad) + |rows| * s.numExperimentos)
        && (r.Ok? && rows == [] ==> logResumen == old(logResumen) && dimensionesCache == old(dimensionesCache))
        && (r.Ok? && rows != [] ==>
              instancias != [] && first.0.Ok? && dimensionesCache == first.1
              && logResumen == old(logResumen) + Summaries(instancias[0], s, rows, first.0.value))
      ensures r.Err? ==> |dims| > 0 && |mhs| > 0 && (Discrete(s.problema) ==> |dsActions| > 0)
      ensures r.Err? && instancias == [] ==>
        r.error == IndexError && inserted == old(inserted) && cantidad == old(cantidad)
        && logResumen == old(logResumen) && dimensionesCache == old(dimensionesCache)
      ensures r.Err? && instancias != [] ==>
        var first := CachedDimensions(old(dimensionesCache), instancias[0].1, s.problema, existing, read);
        var firstLabel := if Discrete(s.problema) then Some(dsActions[0]) else None;
        && first.0.Err? && r.error == first.0.error
        && inserted == old(inserted) + [InsertionOf(instancias[0], s, Row(dims[0], mhs[0], firstLabel))]
        && cantidad == old(cantidad) + s.numExperimentos
        && logResumen == old(logResumen) && dimensionesCache == old(dimensionesCache)
    {
      var labels := Labels(Discrete(s.problema), dsActions);
      ghost var st := Start(CachedDimensions(dimensionesCache, FirstInstance(instancias).1, s.problema, existing, read),
                            dimensionesCache, inserted, logResumen, cantidad);
      ghost var done: seq<Row> := [];
      var i := 0;
      while i < |dims|
        invariant 0 <= i <= |dims|
        invariant done == Plan(dims[..i], mhs, labels)
        invariant Progress(FirstInstance(instancias), s, st, done)
        invariant instancias == [] ==> done == []
        invariant done == [] ==> i == 0 || |mhs| == 0 || |labels| == 0
      {
        assert dims[..i + 1][..i] == dims[..i];
        r, done := InsertMhs(instancias, s, dims[i], mhs, labels, existing, read, st, done);
        if r.Err? {
          return;
        }
        i := i + 1;
      }
      assert dims[..i] == dims;
      r := Ok(());
    }
  }
}
