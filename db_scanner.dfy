/**
 * The configuration scanner: it reads the experiments table back into a configuration. Its
 * logic on the query results is modelled here: flattening one-column rows, recovering the
 * iteration and population counts from a paramMH descriptor, extracting the BEN functions and
 * their dimensions from the experiment names, and the derived defaults and flags.
 */
module DbScanner {
  import opened Wrappers
  import opened Strings
  import PoblarDB

  // ---------------------------------------------------------------------------
  // aplanar_lista
  // ---------------------------------------------------------------------------

  /** [item[0] for item in rows]: IndexError at the first empty row. */
  function AplanarLista<T>(rows: seq<seq<T>>): (r: Result<seq<T>>)
    ensures r.Ok? <==> forall i :: 0 <= i < |rows| ==> |rows[i]| > 0
    ensures r.Ok? ==> |r.value| == |rows| && forall i :: 0 <= i < |rows| ==> r.value[i] == rows[i][0]
    ensures r.Err? ==> r.error == IndexError
    decreases |rows|
  {
    if rows == [] then Ok([])
    else if |rows[0]| == 0 then Err(IndexError)
    else
      match AplanarLista(rows[1..])
      case Err(e) => Err(e)
      case Ok(rest) => Ok([rows[0][0]] + rest)
  }

  /** One-column rows flatten back to the column: the inverse of wrapping each value in a row. */
  lemma AplanarListaOfColumn<T>(xs: seq<T>)
    ensures AplanarLista(seq(|xs|, i requires 0 <= i < |xs| => [xs[i]])) == Ok(xs)
  {
    var rows := seq(|xs|, i requires 0 <= i < |xs| => [xs[i]]);
    var r := AplanarLista(rows);
    assert forall i :: 0 <= i < |rows| ==> |rows[i]| > 0;
    assert r.value == xs;
  }

  // ---------------------------------------------------------------------------
  // paramMH parsing
  // ---------------------------------------------------------------------------

  /** The 'iteraciones' and 'poblacion' entries of a problem's reconstructed parameters. */
  datatype Params = Params(iteraciones: Option<int>, poblacion: Option<int>)

  /** One ','-part: with a ':', the stripped key 'iter' or 'pop' sets its int; anything else is skipped. */
  function ApplyPart(p: Params, parte: string): (r: Result<Params>)
    ensures ':' !in parte ==> r == Ok(p)
    ensures r.Err? ==> r.error == ValueError
  {
    if ':' in parte then
      var (key, val) := SplitOnce(parte, ':');
      if Strip(key) == "iter" then
        match ParseInt(val)
        case None => Err(ValueError)
        case Some(v) => Ok(p.(iteraciones := Some(v)))
      else if Strip(key) == "pop" then
        match ParseInt(val)
        case None => Err(ValueError)
        case Some(v) => Ok(p.(poblacion := Some(v)))
      else Ok(p)
    else Ok(p)
  }

  /**
   * A part "<key>:<val>" (the key without ':'): for the key 'iter' or 'pop', once stripped, the
   * part fails exactly when int(val) does and otherwise sets that counter to int(val); any
   * other key leaves the parameters as they were.
   */
  lemma ApplyPartOfKeyValue(p: Params, key: string, val: string)
    requires ':' !in key
    ensures var r := ApplyPart(p, key + ":" + val);
            && (Strip(key) == "iter" || Strip(key) == "pop" ==> (r.Err? <==> ParseInt(val).None?))
            && (Strip(key) == "iter" && ParseInt(val).Some? ==> r == Ok(p.(iteraciones := ParseInt(val))))
            && (Strip(key) == "pop" && ParseInt(val).Some? ==> r == Ok(p.(poblacion := ParseInt(val))))
            && (Strip(key) != "iter" && Strip(key) != "pop" ==> r == Ok(p))
  {
    assert key + ":" + val == key + [':'] + val;
    SplitOnceConcat(key, ':', val);
  }

  /** The parts applied in order, from an empty dictionary; the first failing int() stops it. */
  function ParseParts(parts: seq<string>): (r: Result<Params>)
    ensures r.Err? ==> r.error == ValueError
    ensures (forall k :: 0 <= k < |parts| ==> ':' !in parts[k]) ==> r == Ok(Params(None, None))
    decreases |parts|
  {
    if parts == [] then Ok(Params(None, None))
    else
      match ParseParts(parts[..|parts| - 1])
      case Err(e) => Err(e)
      case Ok(p) => ApplyPart(p, parts[|parts| - 1])
  }

  /** A failure in a prefix of the parts is the failure of the whole parse. */
  lemma {:induction false} ParsePartsErrSticks(parts: seq<string>, k: nat)
    requires k <= |parts| && ParseParts(parts[..k]).Err?
    ensures ParseParts(parts) == ParseParts(parts[..k])
    decreases |parts| - k
  {
    if k < |parts| {
      assert parts[..k + 1][..k] == parts[..k];
      ParsePartsErrSticks(parts, k + 1);
    } else {
      assert parts[..k] == parts;
    }
  }

  /** One more part of a parse that has succeeded so far is one more ApplyPart. */
  lemma ParsePartsStep(parts: seq<string>, i: nat, p: Params)
    requires i < |parts| && ParseParts(parts[..i]) == Ok(p)
    ensures ParseParts(parts[..i + 1]) == ApplyPart(p, parts[i])
  {
    assert parts[..i + 1][..i] == parts[..i];
  }

  /** The loop body of the scanner's paramMH parse on one part: it matches ApplyPart. */
  method ParsePart(p: Params, parte: string) returns (r: Result<Params>)
    ensures r == ApplyPart(p, parte)
  {
    r := Ok(p);
    if ':' in parte {
      var (key, val) := SplitOnce(parte, ':');
      if Strip(key) == "iter" {
        var v := ParseInt(val);
        if v.None? {
          return Err(ValueError);
        }
        r := Ok(p.(iteraciones := Some(v.value)));
      } else if Strip(key) == "pop" {
        var v := ParseInt(val);
        if v.None? {
          return Err(ValueError);
        }
        r := Ok(p.(poblacion := Some(v.value)));
      }
    }
  }

  /** The paramMH parse of the scanner: split on ',', then each part in order. */
  method ParseParamMH(paramMH: string) returns (r: Result<Params>)
    ensures r == ParseParts(Split(paramMH, ','))
  {
    var partes := Split(paramMH, ',');
    var p := Params(None, None);
    var i := 0;
    while i < |partes|
      invariant 0 <= i <= |partes|
      invariant ParseParts(partes[..i]) == Ok(p)
    {
      ParsePartsStep(partes, i, p);
      var step := ParsePart(p, partes[i]);
      if step.Err? {
        ParsePartsErrSticks(partes, i + 1);
        return step;
      }
      p := step.value;
      i := i + 1;
    }
    assert partes[..i] == partes;
    r := Ok(p);
  }

  /** A later counter part overrides whatever an earlier part set. */
  lemma LaterCounterOverrides(parts: seq<string>, iteraciones: int, poblacion: int)
    requires ParseParts(parts).Ok?
    ensures ParseParts(parts + ["iter:" + IntToString(iteraciones)]) ==
            Ok(ParseParts(parts).value.(iteraciones := Some(iteraciones)))
    ensures ParseParts(parts + ["pop:" + IntToString(poblacion)]) ==
            Ok(ParseParts(parts).value.(poblacion := Some(poblacion)))
  {
    ParsePartsSnoc(parts, "iter:" + IntToString(iteraciones));
    ParsePartsSnoc(parts, "pop:" + IntToString(poblacion));
    IterPart(ParseParts(parts).value, iteraciones);
    PopPart(ParseParts(parts).value, poblacion);
  }

  /** A part the scanner skips: no ':' at all, or a key other than 'iter' and 'pop'. */
  predicate Neutral(parte: string) {
    ':' !in parte || (Strip(SplitOnce(parte, ':').0) != "iter" && Strip(SplitOnce(parte, ':').0) != "pop")
  }

  /** Skipped parts leave the parse where it was. */
  lemma {:induction false} NeutralPartsKeep(a: seq<string>, b: seq<string>)
    requires forall k :: 0 <= k < |b| ==> Neutral(b[k])
    ensures ParseParts(a + b) == ParseParts(a)
    decreases |b|
  {
    if b != [] {
      var ab := a + b;
      assert ab[..|ab| - 1] == a + b[..|b| - 1];
      NeutralPartsKeep(a, b[..|b| - 1]);
      assert ab[|ab| - 1] == b[|b| - 1];
    } else {
      assert a + b == a;
    }
  }

  /** "iter:<str(n)>" sets the iteration count to n. */
  lemma IterPart(p: Params, n: int)
    ensures ApplyPart(p, "iter:" + IntToString(n)) == Ok(p.(iteraciones := Some(n)))
  {
    assert "iter:" + IntToString(n) == "iter" + [':'] + IntToString(n);
    SplitOnceConcat("iter", ':', IntToString(n));
    ParseIntToString(n);
  }

  /** "pop:<str(n)>" sets the population size to n. */
  lemma PopPart(p: Params, n: int)
    ensures ApplyPart(p, "pop:" + IntToString(n)) == Ok(p.(poblacion := Some(n)))
  {
    assert "pop:" + IntToString(n) == "pop" + [':'] + IntToString(n);
    SplitOnceConcat("pop", ':', IntToString(n));
    ParseIntToString(n);
  }

  /** Parsing one more part applies it to the parse so far. */
  lemma ParsePartsSnoc(parts: seq<string>, parte: string)
    ensures ParseParts(parts + [parte]) ==
            match ParseParts(parts)
            case Err(e) => Err(e)
            case Ok(p) => ApplyPart(p, parte)
  {
    assert (parts + [parte])[..|parts|] == parts;
  }

  /** The extra parameters after the two counters: empty, or ','-led parts the scanner skips. */
  predicate NeutralExtra(extra: string) {
    extra == "" || (extra[0] == ',' && forall k :: 0 <= k < |Split(extra[1..], ',')| ==> Neutral(Split(extra[1..], ',')[k]))
  }

  /** Two ','-free parts, a ',' between them, then ','-led extras: the split lists the parts first. */
  lemma {:induction false} SplitTwoThen(a: string, b: string, extra: string)
    requires ',' !in a && ',' !in b && (extra == "" || extra[0] == ',')
    ensures Split(a + [','] + b + extra, ',') == if extra == "" then [a, b] else [a, b] + Split(extra[1..], ',')
  {
    SplitNoSep(a, ',');
    SplitNoSep(b, ',');
    if extra == "" {
      assert a + [','] + b + extra == a + [','] + b;
      SplitConcat(a, ',', b);
    } else {
      var rest := extra[1..];
      assert a + [','] + b + extra == a + [','] + (b + [','] + rest);
      SplitConcat(a, ',', b + [','] + rest);
      SplitConcat(b, ',', rest);
    }
  }

  /** The descriptor splits into its two counters followed by the parts of the extras. */
  lemma ParamMHParts(iteraciones: int, poblacion: int, extra: string)
    requires extra == "" || extra[0] == ','
    ensures var counters := ["iter:" + IntToString(iteraciones), "pop:" + IntToString(poblacion)];
            Split(PoblarDB.ParamMH(iteraciones, poblacion, extra), ',') ==
            if extra == "" then counters else counters + Split(extra[1..], ',')
  {
    var it, pop := IntToString(iteraciones), IntToString(poblacion);
    IntToStringNoChar(iteraciones, ',');
    IntToStringNoChar(poblacion, ',');
    assert ",pop:" == [','] + "pop:";
    assert PoblarDB.ParamMH(iteraciones, poblacion, extra) == ("iter:" + it) + [','] + ("pop:" + pop) + extra;
    SplitTwoThen("iter:" + it, "pop:" + pop, extra);
  }

  /** The two counters parse to the iteration and population counts. */
  lemma CountersParse(iteraciones: int, poblacion: int)
    ensures ParseParts(["iter:" + IntToString(iteraciones), "pop:" + IntToString(poblacion)]) ==
            Ok(Params(Some(iteraciones), Some(poblacion)))
  {
    var first, second := "iter:" + IntToString(iteraciones), "pop:" + IntToString(poblacion);
    var p1 := Params(Some(iteraciones), None);
    IterPart(Params(None, None), iteraciones);
    PopPart(p1, poblacion);
    ParsePartsSnoc([], first);
    assert [] + [first] == [first];
    ParsePartsSnoc([first], second);
    assert [first] + [second] == [first, second];
  }

  /**
   * The descriptor round trip: the scanner recovers the iteration and population counts
   * from every paramMH the generator writes, whatever extra parameters follow them, as long
   * as those hold no 'iter' or 'pop' key of their own.
   */
  lemma ParamMHRoundTrip(iteraciones: int, poblacion: int, extra: string)
    requires NeutralExtra(extra)
    ensures ParseParts(Split(PoblarDB.ParamMH(iteraciones, poblacion, extra), ',')) ==
            Ok(Params(Some(iteraciones), Some(poblacion)))
  {
    var counters := ["iter:" + IntToString(iteraciones), "pop:" + IntToString(poblacion)];
    ParamMHParts(iteraciones, poblacion, extra);
    CountersParse(iteraciones, poblacion);
    if extra != "" {
      NeutralPartsKeep(counters, Split(extra[1..], ','));
    }
  }

  /** "key:val" is skipped when the stripped key is neither 'iter' nor 'pop'. */
  lemma KeyedNeutral(key: string, val: string)
    requires ':' !in key && Strip(key) != "iter" && Strip(key) != "pop"
    ensures Neutral(key + ":" + val)
  {
    assert key + ":" + val == key + [':'] + val;
    SplitOnceConcat(key, ':', val);
  }

  /** A configured pair the scanner will skip: no ',' anywhere, no ':' in the key, not a counter key. */
  predicate NeutralPair(kv: (string, string)) {
    ',' !in kv.0 && ':' !in kv.0 && ',' !in kv.1 && Strip(kv.0) != "iter" && Strip(kv.0) != "pop"
  }

  /** The "k:v" part each configured pair contributes. */
  function Pieces(items: seq<(string, string)>): (r: seq<string>)
    ensures |r| == |items|
  {
    seq(|items|, i requires 0 <= i < |items| => items[i].0 + ":" + items[i].1)
  }

  lemma PiecesCons(items: seq<(string, string)>)
    requires items != []
    ensures Pieces(items) == [items[0].0 + ":" + items[0].1] + Pieces(items[1..])
  {
  }

  lemma JoinPairsCons(items: seq<(string, string)>)
    requires items != []
    ensures PoblarDB.JoinPairs(items) == [','] + ((items[0].0 + ":" + items[0].1) + PoblarDB.JoinPairs(items[1..]))
  {
  }

  /** The ",k:v" pieces of the extras split back into their "k:v" parts. */
  lemma {:induction false} JoinPairsParts(items: seq<(string, string)>)
    requires items != [] && forall i :: 0 <= i < |items| ==> NeutralPair(items[i])
    ensures PoblarDB.JoinPairs(items)[0] == ','
    ensures Split(PoblarDB.JoinPairs(items)[1..], ',') == Pieces(items)
    decreases |items|
  {
    var head := items[0].0 + ":" + items[0].1;
    var rest := PoblarDB.JoinPairs(items[1..]);
    JoinPairsCons(items);
    PiecesCons(items);
    assert PoblarDB.JoinPairs(items)[1..] == head + rest;
    assert ',' !in head;
    SplitNoSep(head, ',');
    if |items| == 1 {
      assert head + rest == head;
    } else {
      JoinPairsParts(items[1..]);
      assert head + rest == head + [','] + rest[1..];
      SplitConcat(head, ',', rest[1..]);
    }
  }

  /** Extras built from neutral configured pairs are skipped by the scanner. */
  lemma JoinPairsNeutral(items: seq<(string, string)>)
    requires forall i :: 0 <= i < |items| ==> NeutralPair(items[i])
    ensures NeutralExtra(PoblarDB.JoinPairs(items))
  {
    if items != [] {
      JoinPairsParts(items);
      forall i | 0 <= i < |items|
        ensures Neutral(Pieces(items)[i])
      {
        KeyedNeutral(items[i].0, items[i].1);
      }
    }
  }

  /** The SCP/USCP extras and the KP default, as the pairs they are made of. */
  const ScpExtraPairs: seq<(string, string)> := [("repair", "complex"), ("cros", "0.4;mut:0.50")]
  const KpDefaultPairs: seq<(string, string)> := [("cross", "0.8;muta:0.1")]

  lemma ScpExtraShape()
    ensures PoblarDB.ScpExtraParams == PoblarDB.JoinPairs(ScpExtraPairs)
  {
    ScpExtraHalves();
    ScpExtraFirstPair();
    ScpExtraSecondPair();
  }

  lemma ScpExtraHalves()
    ensures PoblarDB.ScpExtraParams == ",repair:complex" + ",cros:0.4;mut:0.50"
  {
  }

  lemma ScpExtraFirstPair()
    ensures PoblarDB.JoinPairs(ScpExtraPairs) == ",repair:complex" + PoblarDB.JoinPairs(ScpExtraPairs[1..])
  {
  }

  lemma ScpExtraSecondPair()
    ensures PoblarDB.JoinPairs(ScpExtraPairs[1..]) == ",cros:0.4;mut:0.50"
  {
    assert ScpExtraPairs[1..] == [("cros", "0.4;mut:0.50")];
  }

  lemma KpDefaultShape()
    ensures PoblarDB.KpDefaultExtraParams == PoblarDB.JoinPairs(KpDefaultPairs)
  {
  }

  /**
   * Every extra the generator appends is skipped by the scanner: the SCP/USCP string, the KP
   * default, and KP pairs from the configuration as long as they are neutral.
   */
  lemma GeneratedExtrasAreNeutral(problema: PoblarDB.Problem, kpConfig: Option<seq<(string, string)>>)
    requires kpConfig.Some? ==> forall i :: 0 <= i < |kpConfig.value| ==> NeutralPair(kpConfig.value[i])
    ensures NeutralExtra(PoblarDB.ExtraParams(problema, kpConfig))
  {
    if problema == PoblarDB.SCP || problema == PoblarDB.USCP {
      ScpExtraNeutral();
    } else if problema == PoblarDB.KP {
      if kpConfig.Some? {
        JoinPairsNeutral(kpConfig.value);
      } else {
        KpDefaultNeutral();
      }
    }
  }

  lemma ScpExtraNeutral()
    ensures NeutralExtra(PoblarDB.ScpExtraParams)
  {
    ScpExtraShape();
    NoSpaceStrip("repair");
    NoSpaceStrip("cros");
    JoinPairsNeutral(ScpExtraPairs);
  }

  lemma KpDefaultNeutral()
    ensures NeutralExtra(PoblarDB.KpDefaultExtraParams)
  {
    KpDefaultShape();
    NoSpaceStrip("cross");
    JoinPairsNeutral(KpDefaultPairs);
  }

  /** The generator's descriptor for any problem round-trips through the scanner. */
  lemma GeneratedParamMHRoundTrip(iteraciones: int, poblacion: int, problema: PoblarDB.Problem,
                                  kpConfig: Option<seq<(string, string)>>)
    requires kpConfig.Some? ==> forall i :: 0 <= i < |kpConfig.value| ==> NeutralPair(kpConfig.value[i])
    ensures ParseParts(Split(PoblarDB.ParamMH(iteraciones, poblacion, PoblarDB.ExtraParams(problema, kpConfig)), ',')) ==
            Ok(Params(Some(iteraciones), Some(poblacion)))
  {
    GeneratedExtrasAreNeutral(problema, kpConfig);
    ParamMHRoundTrip(iteraciones, poblacion, PoblarDB.ExtraParams(problema, kpConfig));
  }

  /**
   * The parameters of one problem: the counters of the first paramMH found (none when no
   * experiment matched), and num_experimentos, the largest group count, defaulting to 1.
   */
  datatype ProblemParams = ProblemParams(counters: Params, numExperimentos: int)

  method ReconstruirParametros(paramMHRows: seq<string>, groupCounts: seq<int>) returns (r: Result<ProblemParams>)
    ensures |paramMHRows| == 0 ==> r.Ok? && r.value.counters == Params(None, None)
    ensures |paramMHRows| > 0 ==>
      (r.Ok? <==> ParseParts(Split(paramMHRows[0], ',')).Ok?)
      && (r.Ok? ==> r.value.counters == ParseParts(Split(paramMHRows[0], ',')).value)
      && (r.Err? ==> r.error == ValueError)
    ensures r.Ok? ==> r.value.numExperimentos == (if |groupCounts| > 0 then groupCounts[0] else 1)
  {
    var counters := Params(None, None);
    if |paramMHRows| > 0 {
      var parsed := ParseParamMH(paramMHRows[0]);
      if parsed.Err? {
        return Err(parsed.error);
      }
      counters := parsed.value;
    }
    var num := if |groupCounts| > 0 then groupCounts[0] else 1;
    r := Ok(ProblemParams(counters, num));
  }

  // ---------------------------------------------------------------------------
  // BEN functions and dimensions from experiment names
  // ---------------------------------------------------------------------------

  /** The BEN scan state: the functions seen (in first-seen order) and each one's dimensions. */
  datatype BenScan = BenScan(functions: seq<string>, dims: map<string, seq<int>>)

  /** `l` with `x` appended unless already present: set.add, and the "not in, append" of the dimension lists. */
  function Added<T(==, !new)>(l: seq<T>, x: T): (r: seq<T>)
    ensures forall y :: y in r <==> y == x || y in l
  {
    if x in l then l else l + [x]
  }

  predicate Distinct<T(==)>(l: seq<T>) {
    forall i, j :: 0 <= i < j < |l| ==> l[i] != l[j]
  }

  lemma AddedDistinct<T(!new)>(l: seq<T>, x: T)
    requires Distinct(l)
    ensures Distinct(Added(l, x))
  {
    if x !in l {
      var r := l + [x];
      forall i, j | 0 <= i < j < |r|
        ensures r[i] != r[j]
      {
        if j == |l| {
          assert r[i] == l[i];
        }
      }
    }
  }

  /** One experiment name: exactly two whitespace tokens "<function> <dim>" count; int(dim) may fail. */
  function ScanName(st: BenScan, name: string): Result<BenScan> {
    var partes := SplitWs(name);
    if |partes| != 2 then Ok(st)
    else
      var (funcion, dim) := (partes[0], partes[1]);
      match ParseInt(dim)
      case None => Err(ValueError)
      case Some(d) =>
        var known := if funcion in st.dims then st.dims[funcion] else [];
        Ok(BenScan(Added(st.functions, funcion), st.dims[funcion := Added(known, d)]))
  }

  /** The names scanned in order from nothing seen. */
  function ScanNames(names: seq<string>): (r: Result<BenScan>)
    ensures r.Ok? ==> WellFormed(r.value)
    ensures r.Err? ==> r.error == ValueError
    decreases |names|
  {
    if names == [] then Ok(BenScan([], map[]))
    else
      match ScanNames(names[..|names| - 1])
      case Err(e) => Err(e)
      case Ok(st) =>
        ScanNameWellFormed(st, names[|names| - 1]);
        ScanName(st, names[|names| - 1])
  }

  /** The scan's invariant: functions are distinct, and each has a duplicate-free dimension list. */
  predicate WellFormed(st: BenScan) {
    Distinct(st.functions)
    && st.dims.Keys == set f | f in st.functions
    && (forall f :: f in st.dims ==> Distinct(st.dims[f]))
  }

  lemma ScanNameWellFormed(st: BenScan, name: string)
    requires WellFormed(st)
    ensures ScanName(st, name).Ok? ==> WellFormed(ScanName(st, name).value)
  {
    var partes := SplitWs(name);
    if |partes| == 2 && ParseInt(partes[1]).Some? {
      var funcion := partes[0];
      var known := if funcion in st.dims then st.dims[funcion] else [];
      AddedDistinct(st.functions, funcion);
      AddedDistinct(known, ParseInt(partes[1]).value);
    }
  }

  /** A name that counts: exactly two whitespace tokens, the first being `f`. */
  predicate NamesFunction(name: string, f: string) {
    var t := SplitWs(name);
    |t| == 2 && t[0] == f
  }

  /** A name that contributes the function `f` with dimension `d`. */
  predicate Contributes(name: string, f: string, d: int) {
    var t := SplitWs(name);
    |t| == 2 && t[0] == f && ParseInt(t[1]) == Some(d)
  }

  /** A name whose int(dim) raises: two tokens, the second not an integer. */
  predicate BadDimension(name: string) {
    var t := SplitWs(name);
    |t| == 2 && ParseInt(t[1]).None?
  }

  /** One name only ever adds: what was seen stays, and the new entries are the name's own. */
  lemma ScanNameGrows(st: BenScan, name: string)
    requires ScanName(st, name).Ok?
    ensures var st' := ScanName(st, name).value;
            && (forall f :: f in st.functions ==> f in st'.functions)
            && (forall f, d :: f in st.dims && d in st.dims[f] ==> f in st'.dims && d in st'.dims[f])
            && (forall f, d :: Contributes(name, f, d) ==> f in st'.functions && f in st'.dims && d in st'.dims[f])
            && (forall f :: f in st'.functions ==> f in st.functions || NamesFunction(name, f))
            && (forall f, d :: f in st'.dims && d in st'.dims[f] ==> (f in st.dims && d in st.dims[f]) || Contributes(name, f, d))
  {
  }

  /** A counted name has a well-formed dimension exactly when the scan does not raise on it. */
  lemma ScanNameErr(st: BenScan, name: string)
    ensures ScanName(st, name).Err? <==> BadDimension(name)
  {
  }

  /** The whole scan raises exactly when some counted name's dimension is not an integer. */
  lemma {:induction false} ScanNamesErrIff(names: seq<string>)
    ensures ScanNames(names).Err? <==> exists k :: 0 <= k < |names| && BadDimension(names[k])
    decreases |names|
  {
    if names != [] {
      var pre, last := names[..|names| - 1], names[|names| - 1];
      ScanNamesErrIff(pre);
      assert forall k :: 0 <= k < |pre| ==> names[k] == pre[k];
      if ScanNames(pre).Ok? {
        ScanNameErr(ScanNames(pre).value, last);
      }
    }
  }

  /** Every name with two tokens contributes its function and its int(dim) to a completed scan. */
  lemma {:induction false} ScanNamesCovers(names: seq<string>)
    requires ScanNames(names).Ok?
    ensures var st := ScanNames(names).value;
            forall k, f, d {:trigger Contributes(names[k], f, d)} :: 0 <= k < |names| && Contributes(names[k], f, d) ==>
              f in st.functions && f in st.dims && d in st.dims[f]
    decreases |names|
  {
    if names != [] {
      var pre, last := names[..|names| - 1], names[|names| - 1];
      ScanNamesCovers(pre);
      var st0 := ScanNames(pre).value;
      ScanNameGrows(st0, last);
      var st := ScanNames(names).value;
      assert st == ScanName(st0, last).value;
      forall k, f, d | 0 <= k < |names| && Contributes(names[k], f, d)
        ensures f in st.functions && f in st.dims && d in st.dims[f]
      {
        if k < |pre| {
          assert names[k] == pre[k];
        }
      }
    }
  }

  /** Every function and dimension of a completed scan comes from a name with two tokens. */
  lemma {:induction false} ScanNamesFrom(names: seq<string>)
    requires ScanNames(names).Ok?
    ensures var st := ScanNames(names).value;
            && (forall f :: f in st.functions ==> exists k :: 0 <= k < |names| && NamesFunction(names[k], f))
            && (forall f, d :: f in st.dims && d in st.dims[f] ==>
                  exists k :: 0 <= k < |names| && Contributes(names[k], f, d))
    decreases |names|
  {
    if names != [] {
      var pre, last := names[..|names| - 1], names[|names| - 1];
      ScanNamesFrom(pre);
      var st0 := ScanNames(pre).value;
      ScanNameGrows(st0, last);
      var st := ScanNames(names).value;
      assert st == ScanName(st0, last).value;
      forall f | f in st.functions
        ensures exists k :: 0 <= k < |names| && NamesFunction(names[k], f)
      {
        if NamesFunction(last, f) {
          assert names[|names| - 1] == last;
        } else {
          var k :| 0 <= k < |pre| && NamesFunction(pre[k], f);
          assert names[k] == pre[k];
        }
      }
      forall f, d | f in st.dims && d in st.dims[f]
        ensures exists k :: 0 <= k < |names| && Contributes(names[k], f, d)
      {
        if Contributes(last, f, d) {
          assert names[|names| - 1] == last;
        } else {
          var k :| 0 <= k < |pre| && Contributes(pre[k], f, d);
          assert names[k] == pre[k];
        }
      }
    }
  }

  /**
   * The generator's BEN name "<function> <dim>" scans to that function and dimension: the
   * function is then listed and the dimension is among its dimensions.
   */
  lemma BenNameRoundTrip(st: BenScan, funcion: string, dim: int)
    requires funcion != [] && NoSpace(funcion)
    ensures ScanName(st, PoblarDB.ExperimentName(funcion, dim, PoblarDB.BEN)).Ok?
    ensures var st' := ScanName(st, PoblarDB.ExperimentName(funcion, dim, PoblarDB.BEN)).value;
            funcion in st'.functions && funcion in st'.dims && dim in st'.dims[funcion]
  {
    IntToStringNoSpace(dim);
    SplitWsPair(funcion, IntToString(dim));
    ParseIntToString(dim);
  }

  /** The scan over the query's names, as the scanner's loop does it. */
  method ScanBen(names: seq<string>) returns (r: Result<BenScan>)
    ensures r == ScanNames(names)
    ensures r.Ok? ==> WellFormed(r.value)
  {
    var functions: seq<string> := [];
    var dims: map<string, seq<int>> := map[];
    var i := 0;
    while i < |names|
      invariant 0 <= i <= |names|
      invariant ScanNames(names[..i]) == Ok(BenScan(functions, dims))
    {
      assert names[..i + 1][..i] == names[..i];
      var partes := SplitWs(names[i]);
      if |partes| == 2 {
        var funcion, dim := partes[0], partes[1];
        if funcion !in functions {
          functions := functions + [funcion];
        }
        var d := ParseInt(dim);
        if d.None? {
          ScanNamesErrSticks(names, i + 1);
          return Err(ValueError);
        }
        var known := if funcion in dims then dims[funcion] else [];
        if d.value !in known {
          known := known + [d.value];
        }
        dims := dims[funcion := known];
      }
      i := i + 1;
    }
    assert names[..i] == names;
    r := Ok(BenScan(functions, dims));
  }

  lemma {:induction false} ScanNamesErrSticks(names: seq<string>, k: nat)
    requires k <= |names| && ScanNames(names[..k]).Err?
    ensures ScanNames(names) == ScanNames(names[..k])
    decreases |names| - k
  {
    if k < |names| {
      assert names[..k + 1][..k] == names[..k];
      ScanNamesErrSticks(names, k + 1);
    } else {
      assert names[..k] == names;
    }
  }

  // ---------------------------------------------------------------------------
  // sorted(list(set)): the BEN function list
  // ---------------------------------------------------------------------------

  /** Python's string order: code point by code point, a proper prefix first. */
  predicate StrLess(a: string, b: string)
    decreases |a|
  {
    if a == [] then b != []
    else if b == [] then false
    else if a[0] != b[0] then a[0] < b[0]
    else StrLess(a[1..], b[1..])
  }

  lemma {:induction false} StrLessIrreflexive(a: string)
    ensures !StrLess(a, a)
    decreases |a|
  {
    if a != [] {
      StrLessIrreflexive(a[1..]);
    }
  }

  lemma {:induction false} StrLessTotal(a: string, b: string)
    requires a != b
    ensures StrLess(a, b) || StrLess(b, a)
    decreases |a|
  {
    if a != [] && b != [] && a[0] == b[0] {
      assert a == [a[0]] + a[1..] && b == [b[0]] + b[1..];
      StrLessTotal(a[1..], b[1..]);
    }
  }

  lemma {:induction false} StrLessTransitive(a: string, b: string, c: string)
    requires StrLess(a, b) && StrLess(b, c)
    ensures StrLess(a, c)
    decreases |a|
  {
    if a != [] && b != [] && c != [] && a[0] == b[0] && b[0] == c[0] {
      StrLessTransitive(a[1..], b[1..], c[1..]);
    }
  }

  predicate Ascending(l: seq<string>) {
    forall i, j :: 0 <= i < j < |l| ==> StrLess(l[i], l[j])
  }

  /** Insert one string into an ascending list, keeping it ascending and without duplicates. */
  function InsertSorted(x: string, l: seq<string>): (r: seq<string>)
    requires Ascending(l)
    ensures Ascending(r)
    ensures forall y :: y in r <==> y == x || y in l
    decreases |l|
  {
    if l == [] then [x]
    else if x == l[0] then l
    else if StrLess(x, l[0]) then
      assert forall j :: 0 <= j < |l| ==> StrLess(x, l[j]) by {
        forall j | 0 <= j < |l|
          ensures StrLess(x, l[j])
        {
          if j > 0 {
            StrLessTransitive(x, l[0], l[j]);
          }
        }
      }
      [x] + l
    else
      StrLessTotal(x, l[0]);
      var rest := InsertSorted(x, l[1..]);
      assert forall j :: 0 <= j < |rest| ==> StrLess(l[0], rest[j]) by {
        forall j | 0 <= j < |rest|
          ensures StrLess(l[0], rest[j])
        {
          assert rest[j] in rest;
        }
      }
      [l[0]] + rest
  }

  /** sorted(list(s)) for the strings of `l`, duplicates dropped. */
  function Sorted(l: seq<string>): (r: seq<string>)
    ensures Ascending(r)
    ensures forall y :: y in r <==> y in l
    decreases |l|
  {
    if l == [] then [] else InsertSorted(l[|l| - 1], Sorted(l[..|l| - 1]))
  }

  /** An ascending list holds no string twice. */
  lemma AscendingDistinct(l: seq<string>)
    requires Ascending(l)
    ensures forall i, j :: 0 <= i < j < |l| ==> l[i] != l[j]
  {
    forall i, j | 0 <= i < j < |l|
      ensures l[i] != l[j]
    {
      StrLessIrreflexive(l[i]);
    }
  }

  /** The 'instancias'['BEN'] entry: the functions found, sorted. */
  function BenInstances(scan: BenScan): (r: seq<string>)
    ensures Ascending(r)
    ensures forall f :: f in r <==> f in scan.functions
  {
    Sorted(scan.functions)
  }

  // ---------------------------------------------------------------------------
  // derived flags
  // ---------------------------------------------------------------------------

  datatype Flags = Flags(ben: bool, scp: bool, uscp: bool, kp: bool)

  /** The 'ben'/'scp'/'uscp'/'kp' flags: whether that problem type occurs among the experiments. */
  function FlagsOf(tipos: seq<string>): (f: Flags)
    ensures f.ben || f.scp || f.uscp || f.kp <==>
              exists i :: 0 <= i < |tipos| && tipos[i] in {"BEN", "SCP", "USCP", "KP"}
    ensures tipos == [] ==> f == Flags(false, false, false, false)
  {
    Flags("BEN" in tipos, "SCP" in tipos, "USCP" in tipos, "KP" in tipos)
  }
}
