/**
 * The experiment runner: it takes the pending experiments one after another, rejects those with
 * fewer than four iterations, marks the others as running and hands them to the solver of their
 * problem type with the instance name and parameters that solver expects.
 *
 * The experiment store is a class whose status table the runner updates in place; the solver
 * calls are recorded as launches, in order.
 */
module MainRunner {
  import opened Wrappers
  import opened Strings
  import PoblarDB

  /** One pending experiment row: its id, name, metaheuristic, binarization, paramMH and instance id. */
  datatype ExperimentRow = ExperimentRow(
    id: int, experimento: string, mh: string, binarizacion: string, paramMH: string, idInstancia: int)

  /**
   * One instance row: its problem type ('BEN', 'SCP', 'USCP', 'KP', or any other text, kept in
   * Unknown), its name and its parameter text (the BEN bounds).
   */
  datatype InstanceData = InstanceData(tipo: PoblarDB.Problem, nombre: string, parametros: string)

  /** A solver call, with the arguments it receives. */
  datatype Launch =
    | BenRun(id: int, mh: string, iteraciones: int, poblacion: int, funcion: string, lb: real, ub: real, dim: int)
    | ScpRun(id: int, mh: string, iteraciones: int, poblacion: int, instancia: string, ds: string,
             repair: string, parMH: string, unicost: bool)
    | KpRun(id: int, mh: string, iteraciones: int, poblacion: int, instancia: string, ds: string, parMHKp: Option<string>)

  // ---------------------------------------------------------------------------
  // parameters
  // ---------------------------------------------------------------------------

  /** int(parametros[key]): KeyError when absent, ValueError when not an integer. */
  function IntParam(parametros: map<string, string>, key: string): (r: Result<int>)
    ensures r.Err? ==> (r.error == KeyError <==> key !in parametros)
    ensures r.Err? ==> r.error == KeyError || r.error == ValueError
    ensures key in parametros && ParseInt(parametros[key]).Some? ==> r == Ok(ParseInt(parametros[key]).value)
  {
    if key !in parametros then Err(KeyError)
    else
      match ParseInt(parametros[key])
      case None => Err(ValueError)
      case Some(v) => Ok(v)
  }

  /** parametros[key]: KeyError when absent. */
  function Param(parametros: map<string, string>, key: string): (r: Result<string>)
    ensures r.Ok? <==> key in parametros
    ensures r.Ok? ==> r.value == parametros[key]
    ensures r.Err? ==> r.error == KeyError
  {
    if key in parametros then Ok(parametros[key]) else Err(KeyError)
  }

  /**
   * The parameters of one run: the parsed paramMH, plus the metaheuristic and the instance name.
   * The paramMH parser is not part of this model and is passed in.
   */
  function Parametros(e: ExperimentRow, inst: InstanceData, parse: string -> map<string, string>): (p: map<string, string>)
    ensures "mh" in p && p["mh"] == e.mh
    ensures "instancia" in p && p["instancia"] == inst.nombre
    ensures forall k :: k in p && k != "mh" && k != "instancia" ==> k in parse(e.paramMH) && p[k] == parse(e.paramMH)[k]
  {
    parse(e.paramMH)["mh" := e.mh]["instancia" := inst.nombre]
  }

  // ---------------------------------------------------------------------------
  // ejecutar_ben
  // ---------------------------------------------------------------------------

  /** int(experimento.split(" ")[1]): the dimension of a BEN experiment name. */
  function BenDim(experimento: string): (r: Result<int>)
    ensures r.Err? ==> (r.error == IndexError <==> |Split(experimento, ' ')| < 2)
    ensures r.Err? ==> r.error == IndexError || r.error == ValueError
  {
    var partes := Split(experimento, ' ');
    if |partes| < 2 then Err(IndexError)
    else
      match ParseInt(partes[1])
      case None => Err(ValueError)
      case Some(d) => Ok(d)
  }

  /** float(part.split(":")[1]): IndexError without a ':', ValueError when not a number. */
  function BoundOf(part: string): (r: Result<real>)
    ensures r.Err? ==> (r.error == IndexError <==> ':' !in part)
    ensures r.Err? ==> r.error == IndexError || r.error == ValueError
  {
    var kv := Split(part, ':');
    SplitHasSepWhenSeveral(part, ':');
    if |kv| < 2 then Err(IndexError)
    else
      match ParseDecimal(kv[1])
      case None => Err(ValueError)
      case Some(x) => Ok(x)
  }

  /** A string with the separator splits into at least two parts, and one without it into one. */
  lemma SplitHasSepWhenSeveral(s: string, sep: char)
    ensures |Split(s, sep)| >= 2 <==> sep in s
  {
    if sep in s {
      var kv := SplitOnce(s, sep);
      SplitConcat(kv.0, sep, kv.1);
      SplitNoSep(kv.0, sep);
    } else {
      SplitNoSep(s, sep);
    }
  }

  /** lb and ub: the numbers after ':' in the first and in the second ','-part of the instance parameters. */
  function BenBounds(parametrosInstancia: string): (r: Result<(real, real)>)
    ensures r.Ok? ==> |Split(parametrosInstancia, ',')| >= 2
    ensures r.Ok? ==> BoundOf(Split(parametrosInstancia, ',')[0]) == Ok(r.value.0)
    ensures r.Ok? ==> BoundOf(Split(parametrosInstancia, ',')[1]) == Ok(r.value.1)
  {
    var partes := Split(parametrosInstancia, ',');
    var lb :- BoundOf(partes[0]);
    if |partes| < 2 then Err(IndexError)
    else
      var ub :- BoundOf(partes[1]);
      Ok((lb, ub))
  }

  /** ejecutar_ben: the dimension, the bounds, then the counters, in the order the call evaluates them. */
  function EjecutarBen(e: ExperimentRow, inst: InstanceData, parametros: map<string, string>): (r: Result<Launch>)
    requires "mh" in parametros && "instancia" in parametros
    ensures r.Ok? ==> r.value.BenRun? && r.value.id == e.id && r.value.mh == parametros["mh"]
    ensures r.Ok? ==> Ok(r.value.dim) == BenDim(e.experimento) && Ok((r.value.lb, r.value.ub)) == BenBounds(inst.parametros)
    ensures r.Ok? ==> Ok(r.value.iteraciones) == IntParam(parametros, "iter") && Ok(r.value.poblacion) == IntParam(parametros, "pop")
    ensures r.Ok? ==> r.value.funcion == parametros["instancia"]
    ensures r.Ok? <==> BenDim(e.experimento).Ok? && BenBounds(inst.parametros).Ok?
                       && IntParam(parametros, "iter").Ok? && IntParam(parametros, "pop").Ok?
    ensures BenDim(e.experimento).Err? ==> r == Err(BenDim(e.experimento).error)
  {
    var dim :- BenDim(e.experimento);
    var bounds :- BenBounds(inst.parametros);
    var it :- IntParam(parametros, "iter");
    var pop :- IntParam(parametros, "pop");
    Ok(BenRun(e.id, parametros["mh"], it, pop, parametros["instancia"], bounds.0, bounds.1, dim))
  }

  /** The BEN name the generator writes, "<function> <dim>", gives that dimension back. */
  lemma BenDimRoundTrip(funcion: string, dim: int)
    requires NoSpace(funcion)
    ensures BenDim(PoblarDB.ExperimentName(funcion, dim, PoblarDB.BEN)) == Ok(dim)
  {
    var d := IntToString(dim);
    IntToStringNoChar(dim, ' ');
    assert ' ' !in funcion;
    assert PoblarDB.ExperimentName(funcion, dim, PoblarDB.BEN) == funcion + [' '] + d;
    SplitConcat(funcion, ' ', d);
    SplitNoSep(funcion, ' ');
    SplitNoSep(d, ' ');
    ParseIntToString(dim);
  }

  // ---------------------------------------------------------------------------
  // SCP, USCP and KP
  // ---------------------------------------------------------------------------

  /** name[1:]: everything after the first character; empty for an empty name. */
  function Tail(s: string): (t: string)
    ensures s == [] ==> t == []
    ensures s != [] ==> s == [s[0]] + t
  {
    if s == [] then [] else s[1..]
  }

  /** The solver's instance name for SCP and USCP: "scp"+name, or "uscp"+name[1:]. */
  function SetCoverInstance(nombre: string, unicost: bool): (s: string)
    ensures !unicost ==> s == "scp" + nombre
    ensures unicost && StartsWith(nombre, "u") ==> s == "uscp" + PoblarDB.UscpStem(nombre)
    ensures unicost && nombre != [] ==> |s| == |nombre| + 3
  {
    if unicost then "uscp" + Tail(nombre) else "scp" + nombre
  }

  /** ejecutar_problema_scp_uscp: repair and cros are required, then the counters. */
  function EjecutarScp(e: ExperimentRow, instancia: string, parametros: map<string, string>, unicost: bool): (r: Result<Launch>)
    requires "mh" in parametros
    ensures r.Ok? ==> r.value.ScpRun? && r.value.id == e.id && r.value.instancia == instancia && r.value.unicost == unicost
    ensures r.Ok? ==> r.value.ds == e.binarizacion && r.value.mh == parametros["mh"]
    ensures r.Ok? ==> Param(parametros, "repair") == Ok(r.value.repair) && Param(parametros, "cros") == Ok(r.value.parMH)
    ensures r.Ok? ==> Ok(r.value.iteraciones) == IntParam(parametros, "iter") && Ok(r.value.poblacion) == IntParam(parametros, "pop")
    ensures r.Err? && "repair" !in parametros ==> r.error == KeyError
    ensures r.Ok? <==> "repair" in parametros && "cros" in parametros
                       && IntParam(parametros, "iter").Ok? && IntParam(parametros, "pop").Ok?
  {
    var repair :- Param(parametros, "repair");
    var parMH :- Param(parametros, "cros");
    var it :- IntParam(parametros, "iter");
    var pop :- IntParam(parametros, "pop");
    Ok(ScpRun(e.id, parametros["mh"], it, pop, instancia, e.binarizacion, repair, parMH, unicost))
  }

  /** ejecutar_kp: parMH is optional (dict.get), then the counters. */
  function EjecutarKp(e: ExperimentRow, instancia: string, parametros: map<string, string>): (r: Result<Launch>)
    requires "mh" in parametros
    ensures r.Ok? ==> r.value.KpRun? && r.value.id == e.id && r.value.instancia == instancia && r.value.ds == e.binarizacion
    ensures r.Ok? ==> (r.value.parMHKp.Some? <==> "parMH" in parametros)
    ensures r.Ok? && "parMH" in parametros ==> r.value.parMHKp.value == parametros["parMH"]
    ensures r.Ok? ==> Ok(r.value.iteraciones) == IntParam(parametros, "iter") && Ok(r.value.poblacion) == IntParam(parametros, "pop")
    ensures r.Ok? <==> IntParam(parametros, "iter").Ok? && IntParam(parametros, "pop").Ok?
    ensures IntParam(parametros, "iter").Err? ==> r == Err(IntParam(parametros, "iter").error)
  {
    var parMH := if "parMH" in parametros then Some(parametros["parMH"]) else None;
    var it :- IntParam(parametros, "iter");
    var pop :- IntParam(parametros, "pop");
    Ok(KpRun(e.id, parametros["mh"], it, pop, instancia, e.binarizacion, parMH))
  }

  /** The dispatch on the problem type: one solver call, or none for an unknown type. */
  function Dispatch(e: ExperimentRow, inst: InstanceData, parametros: map<string, string>): (r: Result<Option<Launch>>)
    requires "mh" in parametros && "instancia" in parametros
    ensures r.Ok? && r.value.Some? ==> Ok(r.value.value.iteraciones) == IntParam(parametros, "iter")
    ensures r.Ok? && r.value.Some? ==> r.value.value.id == e.id
    ensures inst.tipo.Unknown? ==> r == Ok(None)
  {
    match inst.tipo
    case BEN =>
      var l :- EjecutarBen(e, inst, parametros);
      Ok(Some(l))
    case SCP =>
      var l :- EjecutarScp(e, SetCoverInstance(inst.nombre, false), parametros, false);
      Ok(Some(l))
    case USCP =>
      var l :- EjecutarScp(e, SetCoverInstance(inst.nombre, true), parametros, true);
      Ok(Some(l))
    case KP =>
      var l :- EjecutarKp(e, inst.nombre, parametros);
      Ok(Some(l))
    case Unknown(_) => Ok(None)
  }

  /**
   * USCP: the runner always drops the first character of the name, while the generator drops
   * only a leading 'u'; the two agree exactly for names that are empty or start with 'u'.
   */
  lemma UscpNamesAgreeIff(nombre: string)
    ensures SetCoverInstance(nombre, true) == "uscp" + PoblarDB.UscpStem(nombre) <==> (nombre == [] || nombre[0] == 'u')
  {
    if nombre != [] && nombre[0] != 'u' {
      assert |SetCoverInstance(nombre, true)| < |"uscp" + PoblarDB.UscpStem(nombre)|;
    } else if nombre != [] {
      assert nombre[..1] == "u";
    }
  }

  // ---------------------------------------------------------------------------
  // procesar_experimento
  // ---------------------------------------------------------------------------

  /**
   * What processing one experiment does: the status it writes (if any), the solver call it
   * makes (if any), and whether it ends normally or raises.
   */
  datatype Effect = Effect(estado: Option<string>, launch: Option<Launch>, result: Result<()>)

  const EstadoError: string := "error"
  const EstadoEjecutando: string := "ejecutando"

  /** The reference definition of procesar_experimento. */
  function Procesar(e: ExperimentRow, instances: map<int, InstanceData>, parse: string -> map<string, string>): (eff: Effect)
    // no launch without the "ejecutando" mark and at least four iterations
    ensures eff.launch.Some? ==> eff.estado == Some(EstadoEjecutando) && eff.result.Ok?
    ensures eff.launch.Some? ==> eff.launch.value.id == e.id && eff.launch.value.iteraciones >= 4
    // fewer than four iterations: marked "error", nothing launched, no exception
    ensures eff.estado == Some(EstadoError) ==> eff.launch.None? && eff.result.Ok?
    // a missing instance or an unreadable iteration count raises before any status is written
    ensures e.idInstancia !in instances ==> eff == Effect(None, None, Err(IndexError))
    ensures eff.estado.None? ==> eff.result.Err? && eff.launch.None?
  {
    if e.idInstancia !in instances then Effect(None, None, Err(IndexError))
    else
      var inst := instances[e.idInstancia];
      var parametros := Parametros(e, inst, parse);
      match IntParam(parametros, "iter")
      case Err(err) => Effect(None, None, Err(err))
      case Ok(it) =>
        if it < 4 then Effect(Some(EstadoError), None, Ok(()))
        else
          match Dispatch(e, inst, parametros)
          case Err(err) => Effect(Some(EstadoEjecutando), None, Err(err))
          case Ok(l) => Effect(Some(EstadoEjecutando), l, Ok(()))
  }

  /** The iteration guard both ways: "error" exactly when the count reads and is below four. */
  lemma IterationGuard(e: ExperimentRow, instances: map<int, InstanceData>, parse: string -> map<string, string>)
    requires e.idInstancia in instances
    ensures var it := IntParam(Parametros(e, instances[e.idInstancia], parse), "iter");
            (Procesar(e, instances, parse).estado == Some(EstadoError) <==> it.Ok? && it.value < 4)
            && (Procesar(e, instances, parse).estado == Some(EstadoEjecutando) <==> it.Ok? && it.value >= 4)
  {
  }

  /** With at least four iterations, each known problem type launches its solver unless a parameter is bad. */
  lemma DispatchByType(e: ExperimentRow, instances: map<int, InstanceData>, parse: string -> map<string, string>)
    requires e.idInstancia in instances
    requires var it := IntParam(Parametros(e, instances[e.idInstancia], parse), "iter"); it.Ok? && it.value >= 4
    ensures var inst := instances[e.idInstancia];
            var eff := Procesar(e, instances, parse);
            var parametros := Parametros(e, inst, parse);
            (inst.tipo == PoblarDB.BEN ==> eff.launch.Some? == EjecutarBen(e, inst, parametros).Ok?)
            && (inst.tipo == PoblarDB.SCP ==> eff.launch.Some? == EjecutarScp(e, "scp" + inst.nombre, parametros, false).Ok?)
            && (inst.tipo == PoblarDB.USCP ==> eff.launch.Some? == EjecutarScp(e, "uscp" + Tail(inst.nombre), parametros, true).Ok?)
            && (inst.tipo == PoblarDB.KP ==> eff.launch.Some? == EjecutarKp(e, inst.nombre, parametros).Ok?)
            && (inst.tipo.Unknown? ==> eff == Effect(Some(EstadoEjecutando), None, Ok(())))
  {
  }

  // ---------------------------------------------------------------------------
  // the main loop
  // ---------------------------------------------------------------------------

  /** The store after one effect: the status written, the launch appended. */
  function Apply(estados: map<int, string>, launched: seq<Launch>, id: int, eff: Effect): (map<int, string>, seq<Launch>) {
    (if eff.estado.Some? then estados[id := eff.estado.value] else estados,
     if eff.launch.Some? then launched + [eff.launch.value] else launched)
  }

  /** The experiments processed in turn; the first exception ends the run. */
  function Run(estados: map<int, string>, launched: seq<Launch>, queue: seq<ExperimentRow>,
               instances: map<int, InstanceData>, parse: string -> map<string, string>)
    : (r: (map<int, string>, seq<Launch>, Result<()>))
    ensures |launched| <= |r.1| <= |launched| + |queue| && r.1[..|launched|] == launched
    decreases |queue|
  {
    if queue == [] then (estados, launched, Ok(()))
    else
      var (est, lau, res) := Run(estados, launched, queue[..|queue| - 1], instances, parse);
      if res.Err? then (est, lau, res)
      else
        var e := queue[|queue| - 1];
        var eff := Procesar(e, instances, parse);
        var (est', lau') := Apply(est, lau, e.id, eff);
        assert lau'[..|launched|] == lau[..|launched|];
        (est', lau', eff.result)
  }

  /**
   * A run only appends launches, at most one per experiment, each for an experiment of the
   * queue with at least four iterations.
   */
  lemma {:induction false} RunLaunches(estados: map<int, string>, launched: seq<Launch>, queue: seq<ExperimentRow>,
                                       instances: map<int, InstanceData>, parse: string -> map<string, string>)
    ensures var lau := Run(estados, launched, queue, instances, parse).1;
            |launched| <= |lau| <= |launched| + |queue| && lau[..|launched|] == launched
            && forall k :: |launched| <= k < |lau| ==> lau[k].iteraciones >= 4 && exists q :: 0 <= q < |queue| && queue[q].id == lau[k].id
    decreases |queue|
  {
    if queue != [] {
      var prefix := queue[..|queue| - 1];
      RunLaunches(estados, launched, prefix, instances, parse);
      var (est, lau, res) := Run(estados, launched, prefix, instances, parse);
      forall k | |launched| <= k < |lau|
        ensures exists q :: 0 <= q < |queue| && queue[q].id == lau[k].id
      {
        var q :| 0 <= q < |prefix| && prefix[q].id == lau[k].id;
        assert queue[q] == prefix[q];
      }
      if res.Ok? {
        var e := queue[|queue| - 1];
        var eff := Procesar(e, instances, parse);
        if eff.launch.Some? {
          var lau' := lau + [eff.launch.value];
          assert lau'[..|launched|] == lau[..|launched|];
          assert forall k :: |launched| <= k < |lau| ==> lau'[k] == lau[k];
          assert lau'[|lau|].id == queue[|queue| - 1].id;
        }
      }
    }
  }

  /** A run touches the status of queued experiments only. */
  lemma {:induction false} RunStatuses(estados: map<int, string>, launched: seq<Launch>, queue: seq<ExperimentRow>,
                                       instances: map<int, InstanceData>, parse: string -> map<string, string>)
    ensures var est := Run(estados, launched, queue, instances, parse).0;
            est.Keys >= estados.Keys
            && forall id :: id in estados && (forall q :: 0 <= q < |queue| ==> queue[q].id != id) ==> est[id] == estados[id]
    decreases |queue|
  {
    if queue != [] {
      var prefix := queue[..|queue| - 1];
      RunStatuses(estados, launched, prefix, instances, parse);
      assert forall q :: 0 <= q < |prefix| ==> prefix[q] == queue[q];
    }
  }

  /** The experiment store: the status of every experiment and the solver calls made so far. */
  class ExperimentStore {
    var estados: map<int, string>
    var launched: seq<Launch>

    constructor(estados0: map<int, string>)
      ensures estados == estados0 && launched == []
    {
      estados := estados0;
      launched := [];
    }

    /** actualizarExperimento(id, estado) */
    method ActualizarExperimento(id: int, estado: string)
      modifies this
      ensures estados == old(estados)[id := estado] && launched == old(launched)
    {
      estados := estados[id := estado];
    }

    /** procesar_experimento: the guard, the status update, then the dispatch. */
    method ProcesarExperimento(e: ExperimentRow, instances: map<int, InstanceData>, parse: string -> map<string, string>)
      returns (r: Result<()>)
      modifies this
      ensures (estados, launched) == Apply(old(estados), old(launched), e.id, Procesar(e, instances, parse))
      ensures r == Procesar(e, instances, parse).result
    {
      if e.idInstancia !in instances {
        return Err(IndexError);
      }
      var inst := instances[e.idInstancia];
      var parametros := Parametros(e, inst, parse);
      var it := IntParam(parametros, "iter");
      if it.Err? {
        return Err(it.error);
      }
      if it.value < 4 {
        ActualizarExperimento(e.id, EstadoError);
        return Ok(());
      }
      ActualizarExperimento(e.id, EstadoEjecutando);
      var launch := Dispatch(e, inst, parametros);
      if launch.Err? {
        return Err(launch.error);
      }
      if launch.value.Some? {
        launched := launched + [launch.value.value];
      }
      r := Ok(());
    }

    /** One turn of the main loop: the next experiment processed after a run that has not raised. */
    method ProcesarSiguiente(ghost estados0: map<int, string>, ghost launched0: seq<Launch>, queue: seq<ExperimentRow>, i: nat,
                             instances: map<int, InstanceData>, parse: string -> map<string, string>)
      returns (r: Result<()>)
      requires i < |queue| && (estados, launched, Ok(())) == Run(estados0, launched0, queue[..i], instances, parse)
      modifies this
      ensures (estados, launched, r) == Run(estados0, launched0, queue[..i + 1], instances, parse)
    {
      RunSnoc(estados0, launched0, queue, i, instances, parse);
      r := ProcesarExperimento(queue[i], instances, parse);
    }

    /** main: process the experiments the store hands out, in order, until none is left or one raises. */
    method ProcesarPendientes(queue: seq<ExperimentRow>, instances: map<int, InstanceData>, parse: string -> map<string, string>)
      returns (r: Result<()>)
      modifies this
      ensures (estados, launched, r) == Run(old(estados), old(launched), queue, instances, parse)
    {
      var i := 0;
      while i < |queue|
        invariant 0 <= i <= |queue|
        invariant (estados, launched, Ok(())) == Run(old(estados), old(launched), queue[..i], instances, parse)
      {
        r := ProcesarSiguiente(old(estados), old(launched), queue, i, instances, parse);
        if r.Err? {
          RunStopsAtError(old(estados), old(launched), queue, i + 1, instances, parse);
          return;
        }
        i := i + 1;
      }
      assert queue[..i] == queue;
      r := Ok(());
    }
  }

  /** One more experiment after a run that has not raised: its effect applied to the store. */
  lemma RunSnoc(estados: map<int, string>, launched: seq<Launch>, queue: seq<ExperimentRow>, i: nat,
                instances: map<int, InstanceData>, parse: string -> map<string, string>)
    requires i < |queue| && Run(estados, launched, queue[..i], instances, parse).2.Ok?
    ensures var before := Run(estados, launched, queue[..i], instances, parse);
            var eff := Procesar(queue[i], instances, parse);
            var after := Apply(before.0, before.1, queue[i].id, eff);
            Run(estados, launched, queue[..i + 1], instances, parse) == (after.0, after.1, eff.result)
  {
    assert queue[..i + 1][..i] == queue[..i];
  }

  /** Once the run has raised, the later experiments are never processed. */
  lemma {:induction false} RunStopsAtError(estados: map<int, string>, launched: seq<Launch>, queue: seq<ExperimentRow>, k: nat,
                                           instances: map<int, InstanceData>, parse: string -> map<string, string>)
    requires k <= |queue| && Run(estados, launched, queue[..k], instances, parse).2.Err?
    ensures Run(estados, launched, queue, instances, parse) == Run(estados, launched, queue[..k], instances, parse)
    decreases |queue| - k
  {
    if k < |queue| {
      assert queue[..k + 1][..k] == queue[..k];
      RunStopsAtError(estados, launched, queue, k + 1, instances, parse);
    } else {
      assert queue[..k] == queue;
    }
  }
}
