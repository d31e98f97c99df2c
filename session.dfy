/** The line-driven session of main in Prediction/main.c: read the name of
    the independent variable, collect its values, read the name of the
    dependent variable, collect its values, check that the counts agree, then
    answer one prediction per probe line until a line starting with '!'.
    The input is a sequence of lines (what fgets would return, one per call),
    and atof is the uninterpreted function parse. Run is the specification
    of a whole run; RunSession is main step by step, proved equal to it. */
module Session {
  import opened LinearAlgebra
  import opened Regression

  /** The capacity of the C arrays xArr and yArr (BUFSIZ in glibc). */
  const BUFSIZ: nat := 8192

  datatype Option<T> = None | Some(value: T)

  /** How a run ends: main returns code after printing the predictions, or
      the input runs out first (where the C program dereferences the null
      pointer fgets returns), after the predictions printed so far. */
  datatype Outcome =
    | Exit(code: int, predictions: seq<real>)
    | EndOfInput(predictions: seq<real>)

  /** main tests only the first character of a line against a sentinel. */
  predicate StartsWith(line: string, c: char) {
    |line| > 0 && line[0] == c
  }

  /** The index of the first line at or after from whose first character is
      c, if there is one. */
  function FirstStarting(lines: seq<string>, from: nat, c: char): (r: Option<nat>)
    decreases |lines| - from
    ensures r.Some? ==> from <= r.value < |lines| && StartsWith(lines[r.value], c)
    ensures forall i :: from <= i < |lines| && (r.None? || i < r.value) ==> !StartsWith(lines[i], c)
  {
    if from >= |lines| then None
    else if StartsWith(lines[from], c) then Some(from)
    else FirstStarting(lines, from + 1, c)
  }

  /** The values atof gives the lines, in order. */
  function Values(ls: seq<string>, parse: string -> real): (r: seq<real>)
    ensures |r| == |ls|
    ensures forall i :: 0 <= i < |ls| ==> r[i] == parse(ls[i])
  {
    if ls == [] then [] else Values(ls[..|ls| - 1], parse) + [parse(ls[|ls| - 1])]
  }

  /** How many data lines a collection loop starting at from reads: those
      before the first line starting with '.', or all that remain. */
  function RunLength(lines: seq<string>, from: nat): nat {
    match FirstStarting(lines, from, '.')
    case Some(e) => e - from
    case None => if from <= |lines| then |lines| - from else 0
  }

  /** How every stop before the prediction loop looks: nothing has been
      predicted, and when main returns, it returns 0. */
  predicate StopsBeforeLoop(o: Outcome) {
    o.predictions == [] && (o.Exit? ==> o.code == 0)
  }

  /** What a phase leaves: the run is over, or it goes on at line at. */
  datatype Stage = Stop(outcome: Outcome) | Continue(at: nat)

  /** Reading the independent variable's name: a line starting with '!'
      ends the run with 0; one starting with '?' makes main print the
      directions and read the name once more, where '!' again ends the run.
      Otherwise the x values start on the next line. */
  function IndependentName(lines: seq<string>): (r: Stage)
    ensures r.Stop? ==> StopsBeforeLoop(r.outcome)
    ensures r.Continue? ==> 1 <= r.at <= |lines| && (r.at == 2 <==> StartsWith(lines[0], '?'))
  {
    if |lines| == 0 then Stop(EndOfInput([]))
    else if StartsWith(lines[0], '!') then Stop(Exit(0, []))
    else if !StartsWith(lines[0], '?') then Continue(1)
    else if |lines| == 1 then Stop(EndOfInput([]))
    else if StartsWith(lines[1], '!') then Stop(Exit(0, []))
    else Continue(2)
  }

  /** The state after data collection: the run is over, or the x and y
      values are known and the prediction loop starts at line probes. */
  datatype Collection =
    | Stopped(outcome: Outcome)
    | Collected(xs: seq<real>, ys: seq<real>, probes: nat)

  /** Everything main does before its prediction loop: the independent
      name, then the rest of the collection. */
  function Collect(lines: seq<string>, parse: string -> real): (r: Collection)
    ensures r.Stopped? ==> StopsBeforeLoop(r.outcome)
    ensures r.Collected? ==> |r.xs| == |r.ys| && r.probes <= |lines|
  {
    match IndependentName(lines)
    case Stop(o) => Stopped(o)
    case Continue(xFrom) => IndependentSeries(lines, parse, xFrom)
  }

  /** The x values, from line xFrom up to a line starting with '.'. */
  function IndependentSeries(lines: seq<string>, parse: string -> real, xFrom: nat): (r: Collection)
    ensures r.Stopped? ==> StopsBeforeLoop(r.outcome)
    ensures r.Collected? ==> |r.xs| == |r.ys| && xFrom < r.probes <= |lines|
  {
    match FirstStarting(lines, xFrom, '.')
    case None => Stopped(EndOfInput([]))
    case Some(xEnd) => DependentName(lines, parse, Values(lines[xFrom..xEnd], parse), xEnd + 1)
  }

  /** The dependent variable's name on line at: '!' ends the run with 0
      ('?' has no meaning here). */
  function DependentName(lines: seq<string>, parse: string -> real, xs: seq<real>, at: nat): (r: Collection)
    ensures r.Stopped? ==> StopsBeforeLoop(r.outcome)
    ensures r.Collected? ==> r.xs == xs && |r.ys| == |xs| && at < r.probes <= |lines|
  {
    if at >= |lines| then Stopped(EndOfInput([]))
    else if StartsWith(lines[at], '!') then Stopped(Exit(0, []))
    else DependentSeries(lines, parse, xs, at + 1)
  }

  /** The y values, from line yFrom up to a line starting with '.', then the
      count check: a mismatch ends the run with 0. */
  function DependentSeries(lines: seq<string>, parse: string -> real, xs: seq<real>, yFrom: nat): (r: Collection)
    ensures r.Stopped? ==> StopsBeforeLoop(r.outcome)
    ensures r.Collected? ==> r.xs == xs && |r.ys| == |xs| && yFrom < r.probes <= |lines|
  {
    match FirstStarting(lines, yFrom, '.')
    case None => Stopped(EndOfInput([]))
    case Some(yEnd) =>
      var ys := Values(lines[yFrom..yEnd], parse);
      if |xs| != |ys| then Stopped(Exit(0, [])) else Collected(xs, ys, yEnd + 1)
  }

  /** Line at holds a probe: it exists and does not start with '!'. */
  predicate Probes(lines: seq<string>, at: nat) {
    at < |lines| && !StartsWith(lines[at], '!')
  }

  /** The C code divides by the determinant unchecked: whenever a probe
      reaches the solver, the x values must not make XᵀX singular. */
  predicate Solvable(lines: seq<string>, parse: string -> real) {
    var c := Collect(lines, parse);
    c.Collected? && Probes(lines, c.probes) ==> Det(Xtx(c.xs)) != 0.0
  }

  /** Neither collection loop stores more values than xArr and yArr hold. */
  predicate BuffersSuffice(lines: seq<string>) {
    match IndependentName(lines)
    case Stop(_) => true
    case Continue(xFrom) =>
      RunLength(lines, xFrom) <= BUFSIZ &&
      match FirstStarting(lines, xFrom, '.')
      case None => true
      case Some(xEnd) =>
        xEnd + 1 < |lines| && !StartsWith(lines[xEnd + 1], '!') ==> RunLength(lines, xEnd + 2) <= BUFSIZ
  }

  /** The outcome o with p printed before its predictions. */
  function Prefixed(p: seq<real>, o: Outcome): Outcome {
    o.(predictions := p + o.predictions)
  }

  /** The prediction loop from line from on: each probe is answered with
      b0 + b1·x for the regression recomputed from the data; the first line
      starting with '!' ends the run with 1. */
  function PredictionLoop(lines: seq<string>, from: nat, xs: seq<real>, ys: seq<real>, parse: string -> real): (r: Outcome)
    requires from <= |lines| && |xs| == |ys|
    requires Probes(lines, from) ==> Det(Xtx(xs)) != 0.0
    ensures r.Exit? ==> r.code == 1
    ensures |r.predictions| <= |lines| - from
    decreases |lines| - from
  {
    if from == |lines| then EndOfInput([])
    else if StartsWith(lines[from], '!') then Exit(1, [])
    else Prefixed([Predict(Fit(xs, ys), parse(lines[from]))], PredictionLoop(lines, from + 1, xs, ys, parse))
  }

  /** A whole run of main on the given input lines: main returns 0 or 1,
      and makes at most one prediction per line. */
  function Run(lines: seq<string>, parse: string -> real): (r: Outcome)
    requires Solvable(lines, parse)
    ensures r.Exit? ==> r.code == 0 || r.code == 1
    ensures |r.predictions| <= |lines|
  {
    match Collect(lines, parse)
    case Stopped(o) => o
    case Collected(xs, ys, probes) => PredictionLoop(lines, probes, xs, ys, parse)
  }

  /** Where the prediction loop started at from stops: the first line
      starting with '!', or the end of the input. */
  function LoopEnd(lines: seq<string>, from: nat): nat {
    match FirstStarting(lines, from, '!')
    case Some(e) => e
    case None => |lines|
  }

  /** The prediction loop makes exactly one prediction per probe line, in
      order, each b0 + b1·parse(line) for the fitted line, and returns 1 at the
      first line starting with '!'. */
  lemma {:induction false} PredictionLoopOutcome(lines: seq<string>, from: nat, xs: seq<real>, ys: seq<real>, parse: string -> real)
    requires from <= |lines| && |xs| == |ys|
    requires Probes(lines, from) ==> Det(Xtx(xs)) != 0.0
    ensures var o := PredictionLoop(lines, from, xs, ys, parse);
      from <= LoopEnd(lines, from) <= |lines| &&
      |o.predictions| == LoopEnd(lines, from) - from &&
      (o.Exit? <==> LoopEnd(lines, from) < |lines|) &&
      (o.Exit? ==> o.code == 1)
    ensures var o := PredictionLoop(lines, from, xs, ys, parse);
      forall j :: 0 <= j < |o.predictions| ==>
        from + j < |lines| && Det(Xtx(xs)) != 0.0 &&
        o.predictions[j] == Predict(Fit(xs, ys), parse(lines[from + j]))
    decreases |lines| - from
  {
    if from < |lines| && !StartsWith(lines[from], '!') {
      PredictionLoopOutcome(lines, from + 1, xs, ys, parse);
    }
  }

  /** A run that returns 0 has made no prediction: main returns 0 only from
      the name and count checks, which come before the prediction loop, and
      the loop itself only ever returns 1. */
  lemma ExitZeroMakesNoPrediction(lines: seq<string>, parse: string -> real)
    requires Solvable(lines, parse)
    ensures var o := Run(lines, parse);
      o.Exit? ==> (o.code == 0 || o.code == 1) && (o.code == 0 <==> Collect(lines, parse).Stopped?)
    ensures var o := Run(lines, parse);
      o.Exit? && o.code == 0 ==> o.predictions == []
  {
    var c := Collect(lines, parse);
    if c.Collected? {
      PredictionLoopOutcome(lines, c.probes, c.xs, c.ys, parse);
    }
  }

  /** A first line starting with '!', or a '?' line followed by one starting
      with '!', ends the run with 0 and no prediction. */
  lemma NameBangExitsZero(lines: seq<string>, parse: string -> real)
    requires |lines| > 0
    requires StartsWith(lines[0], '!') || (StartsWith(lines[0], '?') && |lines| > 1 && StartsWith(lines[1], '!'))
    ensures Solvable(lines, parse) && Run(lines, parse) == Exit(0, [])
  {
  }

  /** A dependent-variable name line starting with '!' ends the run with 0
      and no prediction. */
  lemma DependentBangExitsZero(lines: seq<string>, parse: string -> real, xFrom: nat, xEnd: nat)
    requires IndependentName(lines) == Continue(xFrom)
    requires FirstStarting(lines, xFrom, '.') == Some(xEnd)
    requires xEnd + 1 < |lines| && StartsWith(lines[xEnd + 1], '!')
    ensures Solvable(lines, parse) && Run(lines, parse) == Exit(0, [])
  {
  }

  /** When the number of x lines differs from the number of y lines, the run
      ends with 0 and no prediction. */
  lemma CountMismatchExitsZero(lines: seq<string>, parse: string -> real, xFrom: nat, xEnd: nat, yEnd: nat)
    requires IndependentName(lines) == Continue(xFrom)
    requires FirstStarting(lines, xFrom, '.') == Some(xEnd)
    requires xEnd + 1 < |lines| && !StartsWith(lines[xEnd + 1], '!')
    requires FirstStarting(lines, xEnd + 2, '.') == Some(yEnd)
    requires xEnd - xFrom != yEnd - (xEnd + 2)
    ensures Solvable(lines, parse) && Run(lines, parse) == Exit(0, [])
  {
    ReachesDependentSeries(lines, parse, xFrom, xEnd);
  }

  /** Each collected series holds exactly one value per line before its '.'
      line, the value atof gives that line. */
  lemma CollectedSeries(lines: seq<string>, parse: string -> real, xFrom: nat, xEnd: nat, yEnd: nat)
    requires IndependentName(lines) == Continue(xFrom)
    requires FirstStarting(lines, xFrom, '.') == Some(xEnd)
    requires xEnd + 1 < |lines| && !StartsWith(lines[xEnd + 1], '!')
    requires FirstStarting(lines, xEnd + 2, '.') == Some(yEnd)
    requires xEnd - xFrom == yEnd - (xEnd + 2)
    ensures Collect(lines, parse).Collected?
    ensures Collect(lines, parse).probes == yEnd + 1
    ensures |Collect(lines, parse).xs| == xEnd - xFrom
    ensures forall i :: 0 <= i < xEnd - xFrom ==>
      Collect(lines, parse).xs[i] == parse(lines[xFrom + i]) &&
      Collect(lines, parse).ys[i] == parse(lines[xEnd + 2 + i])
  {
    ReachesDependentSeries(lines, parse, xFrom, xEnd);
  }

  /** With the independent name read and the x values ended by a '.' line,
      the run goes on with the dependent name on the line after it. */
  lemma ReachesDependentName(lines: seq<string>, parse: string -> real, xFrom: nat, xEnd: nat)
    requires IndependentName(lines) == Continue(xFrom)
    requires FirstStarting(lines, xFrom, '.') == Some(xEnd)
    ensures Collect(lines, parse) == DependentName(lines, parse, Values(lines[xFrom..xEnd], parse), xEnd + 1)
  {
  }

  /** With the independent name read, the x values ended by a '.' line and
      a dependent name not starting with '!', the run goes on with the y
      values from the line after that name. */
  lemma ReachesDependentSeries(lines: seq<string>, parse: string -> real, xFrom: nat, xEnd: nat)
    requires IndependentName(lines) == Continue(xFrom)
    requires FirstStarting(lines, xFrom, '.') == Some(xEnd)
    requires xEnd + 1 < |lines| && !StartsWith(lines[xEnd + 1], '!')
    ensures Collect(lines, parse) == DependentSeries(lines, parse, Values(lines[xFrom..xEnd], parse), xEnd + 2)
  {
  }

  /** When the collected points all lie on the line b, every prediction is
      the value of b at the probe: the regression recovers the line. */
  lemma CollinearDataPredictedExactly(lines: seq<string>, parse: string -> real, b: Vector2)
    requires Solvable(lines, parse)
    requires Collect(lines, parse).Collected?
    requires var c := Collect(lines, parse);
      forall i :: 0 <= i < |c.xs| ==> c.ys[i] == Predict(b, c.xs[i])
    ensures var c := Collect(lines, parse);
      forall j :: 0 <= j < |Run(lines, parse).predictions| ==>
        c.probes + j < |lines| &&
        Run(lines, parse).predictions[j] == Predict(b, parse(lines[c.probes + j]))
  {
    var c := Collect(lines, parse);
    PredictionLoopOutcome(lines, c.probes, c.xs, c.ys, parse);
    if |Run(lines, parse).predictions| > 0 {
      FitRecoversLine(c.xs, c.ys, b);
    }
  }

  /** One collection loop of main: from line from on, every line up to the
      first one starting with '.' is parsed into arr[k], k counting from 0.
      found tells whether such a line came before the input ran out; k is
      the number of values stored. Nothing else in arr changes. */
  method CollectSeries(lines: seq<string>, from: nat, parse: string -> real, arr: array<real>) returns (k: nat, found: bool)
    requires from <= |lines|
    requires RunLength(lines, from) <= arr.Length
    modifies arr
    ensures found <==> FirstStarting(lines, from, '.') == Some(from + k)
    ensures !found ==> FirstStarting(lines, from, '.') == None
    ensures k == RunLength(lines, from) && from + k <= |lines|
    ensures arr[..k] == Values(lines[from..from + k], parse)
    ensures arr[k..] == old(arr[k..])
  {
    k := 0;
    while from + k < |lines| && !StartsWith(lines[from + k], '.')
      invariant from + k <= |lines| && k <= RunLength(lines, from)
      invariant forall i :: from <= i < from + k ==> !StartsWith(lines[i], '.')
      invariant forall i :: 0 <= i < k ==> arr[i] == parse(lines[from + i])
      invariant arr[k..] == old(arr[k..])
      decreases |lines| - (from + k)
    {
      arr[k] := parse(lines[from + k]);
      k := k + 1;
    }
    found := from + k < |lines|;
    assert arr[..k] == Values(lines[from..from + k], parse);
  }

  /** The prediction loop of main: for each probe line, the regression is
      solved again on the first size values of xArr and yArr and the
      prediction b0 + b1·x is made; the first line starting with '!' ends the
      loop and main returns 1. */
  method PredictionPhase(lines: seq<string>, from: nat, parse: string -> real,
                         v: NormalEquationVariables, xArr: array<real>, yArr: array<real>, size: nat)
    returns (outcome: Outcome)
    requires from <= |lines| && size <= xArr.Length && size <= yArr.Length
    requires Probes(lines, from) ==> Det(Xtx(xArr[..size])) != 0.0
    modifies v`b0, v`b1
    ensures outcome == PredictionLoop(lines, from, xArr[..size], yArr[..size], parse)
  {
    ghost var xs, ys := xArr[..size], yArr[..size];
    var predictions: seq<real> := [];
    var next := from;
    while next < |lines| && !StartsWith(lines[next], '!')
      invariant from <= next <= |lines|
      invariant xArr[..size] == xs && yArr[..size] == ys
      invariant Probes(lines, next) ==> Det(Xtx(xs)) != 0.0
      invariant PredictionLoop(lines, from, xs, ys, parse) == Prefixed(predictions, PredictionLoop(lines, next, xs, ys, parse))
      decreases |lines| - next
    {
      var x := parse(lines[next]);
      SolveNormalEquation(v, xArr, yArr, size);
      var y := Prediction(v, x);
      PredictionStep(lines, next, xs, ys, parse, y, predictions);
      predictions := predictions + [y];
      next := next + 1;
    }
    if next == |lines| {
      outcome := EndOfInput(predictions);
    } else {
      outcome := Exit(1, predictions);
    }
  }

  /** y = b0 + (b1·x), as main computes it from the coefficients in v. */
  method Prediction(v: NormalEquationVariables, x: real) returns (y: real)
    ensures y == Predict(Vector2(v.b0, v.b1), x)
  {
    y := v.b0 + v.b1 * x;
  }

  /** One more turn of the prediction loop appends b0 + b1·x for the fitted
      coefficients b to the predictions made so far. */
  lemma PredictionStep(lines: seq<string>, next: nat, xs: seq<real>, ys: seq<real>, parse: string -> real,
                       y: real, predictions: seq<real>)
    requires Probes(lines, next) && |xs| == |ys| && Det(Xtx(xs)) != 0.0
    requires y == Predict(Fit(xs, ys), parse(lines[next]))
    ensures Prefixed(predictions, PredictionLoop(lines, next, xs, ys, parse))
         == Prefixed(predictions + [y], PredictionLoop(lines, next + 1, xs, ys, parse))
  {
    var rest := PredictionLoop(lines, next + 1, xs, ys, parse);
    assert PredictionLoop(lines, next, xs, ys, parse) == Prefixed([y], rest);
    assert predictions + ([y] + rest.predictions) == (predictions + [y]) + rest.predictions;
  }

  /** main: the name, collection and count checks, then the prediction loop,
      over the fixed-size arrays xArr and yArr. */
  method RunSession(lines: seq<string>, parse: string -> real) returns (outcome: Outcome)
    requires Solvable(lines, parse) && BuffersSuffice(lines)
    ensures outcome == Run(lines, parse)
  {
    var xArr := new real[BUFSIZ];
    var yArr := new real[BUFSIZ];
    var v := new NormalEquationVariables();
    var stop, k, next := CollectionPhase(lines, parse, v, xArr, yArr);
    if stop.Some? {
      return stop.value;
    }
    outcome := PredictionPhase(lines, next, parse, v, xArr, yArr, k);
  }

  /** The first lines main reads: the independent variable's name, or after
      '?' the name read once more. */
  method ReadIndependentName(lines: seq<string>) returns (stage: Stage)
    ensures stage == IndependentName(lines)
    ensures stage.Continue? ==> stage.at <= |lines|
  {
    var next := 0;
    if next == |lines| {
      return Stop(EndOfInput([]));
    }
    var str := lines[next];
    next := next + 1;
    if StartsWith(str, '!') {
      return Stop(Exit(0, []));
    }
    if StartsWith(str, '?') {
      if next == |lines| {
        return Stop(EndOfInput([]));
      }
      str := lines[next];
      next := next + 1;
      if StartsWith(str, '!') {
        return Stop(Exit(0, []));
      }
    }
    return Continue(next);
  }

  /** main up to its prediction loop: the independent name (with '!' and
      '?'), the x values into xArr, then the dependent phase. Either the run
      stops with stop, or both series hold k values and the probes start at
      line next. */
  method CollectionPhase(lines: seq<string>, parse: string -> real,
                         v: NormalEquationVariables, xArr: array<real>, yArr: array<real>)
    returns (stop: Option<Outcome>, k: nat, next: nat)
    requires BuffersSuffice(lines) && xArr.Length == BUFSIZ && yArr.Length == BUFSIZ && xArr != yArr
    modifies v`xCount, v`yCount, xArr, yArr
    ensures stop.Some? ==> Collect(lines, parse) == Stopped(stop.value)
    ensures stop.None? ==>
              k <= BUFSIZ && v.xCount == k && v.yCount == k &&
              Collect(lines, parse) == Collected(xArr[..k], yArr[..k], next)
  {
    var name := ReadIndependentName(lines);
    if name.Stop? {
      return Some(name.outcome), 0, 0;
    }
    var found;
    k, found := CollectSeries(lines, name.at, parse, xArr);
    if !found {
      return Some(EndOfInput([])), k, 0;
    }
    v.xCount := k;
    ghost var xs := xArr[..k];
    ReachesDependentName(lines, parse, name.at, name.at + k);
    stop, k, next := DependentPhase(lines, parse, name.at + k + 1, xs, v, yArr);
  }

  /** The rest of the collection once the x values xs are stored and
      counted: the dependent name (where '!' ends the run with 0), the y
      values into yArr, and the comparison of the two counts. */
  method DependentPhase(lines: seq<string>, parse: string -> real, at: nat, ghost xs: seq<real>,
                        v: NormalEquationVariables, yArr: array<real>)
    returns (stop: Option<Outcome>, k: nat, next: nat)
    requires at <= |lines| && v.xCount == |xs|
    requires at < |lines| && !StartsWith(lines[at], '!') ==> RunLength(lines, at + 1) <= yArr.Length
    modifies v`yCount, yArr
    ensures stop.Some? ==> DependentName(lines, parse, xs, at) == Stopped(stop.value)
    ensures stop.None? ==>
              k == |xs| && k <= yArr.Length && v.yCount == k &&
              DependentName(lines, parse, xs, at) == Collected(xs, yArr[..k], next)
  {
    k, next := 0, at;
    if next == |lines| {
      return Some(EndOfInput([])), k, next;
    }
    if StartsWith(lines[next], '!') {
      return Some(Exit(0, [])), k, next;
    }
    next := next + 1;
    var found;
    k, found := CollectSeries(lines, next, parse, yArr);
    if !found {
      return Some(EndOfInput([])), k, next;
    }
    v.yCount := k;
    next := next + k + 1;
    if v.xCount != v.yCount {
      return Some(Exit(0, [])), k, next;
    }
    stop := None;
  }
}
