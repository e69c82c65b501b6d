/** The bookkeeping of `Runtime` (src/lib.rs) as a value and as pure
    transition functions.  The class in module Runtime is proved to move
    between exactly these values; the lemmas here relate several calls. */
module Session {
  import opened Wrappers
  import opened Python

  /** Every field of a `Runtime`: `output` is the text currently held by the
      shared capture buffer, `vm` the interpreter's state outside the
      globals. */
  datatype Session = Session(
    code: string,
    codeObj: Option<CodeObject>,
    error: Option<string>,
    output: string,
    globals: Globals,
    vm: VmState,
    childUi: Option<UiHandle>)

  /** `Runtime::new`: a booted interpreter, a namespace with builtins, an
      empty buffer, and nothing loaded. */
  function Fresh(py: Python): (s: Session)
    ensures s.codeObj.None? && s.error.None? && s.output == "" && s.childUi.None?
    ensures Run(py, s) == s
  {
    Session("", None, None, "", py.scopeWithBuiltins, py.booted, None)
  }

  /** `Runtime::load`: a compiled unit replaces the loaded one and leaves
      the error slot alone; a compile error leaves the loaded unit alone and
      fills the error slot; the source is stored either way. */
  function Load(py: Python, s: Session, src: string): (r: Session)
    ensures r.code == src
    ensures py.compile(src).Ok? ==>
      r.codeObj == Some(py.compile(src).value) && r.error == s.error
    ensures py.compile(src).Err? ==>
      r.codeObj == s.codeObj && r.error == Some(py.debugFormat(py.compile(src).error))
    ensures r.output == s.output && r.globals == s.globals && r.vm == s.vm &&
      r.childUi == s.childUi
    ensures UnitTracksSource(py, r)
  {
    match py.compile(src)
    case Ok(obj) => s.(code := src, codeObj := Some(obj))
    case Err(e) => s.(code := src, error := Some(py.debugFormat(e)))
  }

  /** The fragments a script wrote, joined in order. */
  function Concat(ws: seq<string>): string {
    if ws == [] then "" else ws[0] + Concat(ws[1..])
  }

  /** The error slot after an execution that ended with `fault`. */
  function ErrorAfter(py: Python, fault: Option<PyException>): Option<string> {
    match fault
    case None => None
    case Some(ex) => Some(py.writeException(ex))
  }

  /** `Runtime::run_loaded_code`: nothing without a loaded unit; otherwise
      the buffer holds what this execution wrote, the error slot what it
      raised, and the namespace and interpreter whatever it left behind. */
  function Run(py: Python, s: Session): (r: Session)
    ensures s.codeObj.None? ==> r == s
    ensures s.codeObj.Some? ==>
      var e := py.runCodeObj(s.codeObj.value, s.globals, s.vm);
      r.output == Concat(e.writes) && (r.error.Some? <==> e.fault.Some?) &&
      (e.fault.Some? ==> r.error == Some(py.writeException(e.fault.value))) &&
      r.globals == e.globals && r.vm == e.vm
    ensures r.code == s.code && r.codeObj == s.codeObj && r.childUi == s.childUi
  {
    match s.codeObj
    case None => s
    case Some(obj) =>
      var e := py.runCodeObj(obj, s.globals, s.vm);
      s.(output := Concat(e.writes), error := ErrorAfter(py, e.fault),
         globals := e.globals, vm := e.vm)
  }

  /** `Runtime::set_egui`: the frame's child `Ui` is kept and a new
      integration object wrapping it is bound to `egui`. */
  function SetEgui(s: Session, ui: UiHandle): (r: Session)
    ensures r.childUi == Some(ui)
    ensures "egui" in r.globals && r.globals["egui"] == EguiIntegration(ui)
    ensures r.globals.Keys == s.globals.Keys + {"egui"}
    ensures forall k :: k in s.globals && k != "egui" ==> r.globals[k] == s.globals[k]
    ensures r == s.(childUi := r.childUi, globals := r.globals)
  {
    s.(childUi := Some(ui), globals := s.globals["egui" := EguiIntegration(ui)])
  }

  /** `Runtime::reset_state`: a fresh runtime with the old source loaded. */
  function Reset(py: Python, s: Session): (r: Session)
    ensures r.code == s.code && r.output == "" && r.childUi.None?
    ensures r.globals == py.scopeWithBuiltins && r.vm == py.booted
    ensures py.compile(s.code).Ok? ==>
      r.codeObj == Some(py.compile(s.code).value) && r.error.None?
    ensures py.compile(s.code).Err? ==>
      r.codeObj.None? && r.error == Some(py.debugFormat(py.compile(s.code).error))
  {
    Load(py, Fresh(py), s.code)
  }

  /** The calls the application makes on its runtime after startup. */
  datatype Op = LoadOp(src: string) | RunOp | SetEguiOp(ui: UiHandle) | ResetOp

  function Step(py: Python, s: Session, op: Op): Session {
    match op
    case LoadOp(src) => Load(py, s, src)
    case RunOp => Run(py, s)
    case SetEguiOp(ui) => SetEgui(s, ui)
    case ResetOp => Reset(py, s)
  }

  function Apply(py: Python, s: Session, ops: seq<Op>): Session
    decreases |ops|
  {
    if ops == [] then s else Apply(py, Step(py, s, ops[0]), ops[1..])
  }

  /** Whenever the stored source compiles, the loaded unit is its
      compilation: stale code is only ever run while the source is broken. */
  ghost predicate UnitTracksSource(py: Python, s: Session) {
    py.compile(s.code).Ok? ==> s.codeObj == Some(py.compile(s.code).value)
  }

  lemma {:induction false} ConcatAppend(ws: seq<string>, w: string)
    ensures Concat(ws + [w]) == Concat(ws) + w
  {
    if ws != [] {
      assert (ws + [w])[1..] == ws[1..] + [w];
      ConcatAppend(ws[1..], w);
    }
  }

  /** Any number of failed loads change only the stored source and the
      error slot, which holds the last diagnostic.  The last good unit stays
      in place, so when one is loaded the next run is exactly the run that
      would have happened before those loads. */
  lemma {:induction false} StaleUnitSurvivesFailedLoads(py: Python, s: Session, srcs: seq<string>)
    requires forall i :: 0 <= i < |srcs| ==> py.compile(srcs[i]).Err?
    ensures var t := Apply(py, s, LoadOps(srcs));
      t.codeObj == s.codeObj && t.globals == s.globals && t.output == s.output &&
      (srcs != [] ==> t.error == Some(py.debugFormat(py.compile(srcs[|srcs| - 1]).error))) &&
      (srcs != [] ==> t == s.(code := srcs[|srcs| - 1], error := t.error)) &&
      (s.codeObj.Some? ==> Run(py, t) == Run(py, s).(code := t.code))
    decreases |srcs|
  {
    if srcs != [] {
      assert LoadOps(srcs)[1..] == LoadOps(srcs[1..]);
      StaleUnitSurvivesFailedLoads(py, Load(py, s, srcs[0]), srcs[1..]);
    }
  }

  /** Successful loads never touch the error slot: a diagnostic from an
      earlier load or run stays until the next run. */
  lemma {:induction false} ErrorPersistsAcrossGoodLoads(py: Python, s: Session, srcs: seq<string>)
    requires srcs != []
    requires forall i :: 0 <= i < |srcs| ==> py.compile(srcs[i]).Ok?
    ensures var t := Apply(py, s, LoadOps(srcs));
      t.error == s.error && t.code == srcs[|srcs| - 1] &&
      t.codeObj == Some(py.compile(srcs[|srcs| - 1]).value)
    decreases |srcs|
  {
    if |srcs| > 1 {
      assert LoadOps(srcs)[1..] == LoadOps(srcs[1..]);
      ErrorPersistsAcrossGoodLoads(py, Load(py, s, srcs[0]), srcs[1..]);
    }
  }

  function LoadOps(srcs: seq<string>): (ops: seq<Op>)
    ensures |ops| == |srcs|
    ensures forall i :: 0 <= i < |srcs| ==> ops[i] == LoadOp(srcs[i])
  {
    if srcs == [] then [] else [LoadOp(srcs[0])] + LoadOps(srcs[1..])
  }

  /** Running twice executes the unit again on what the first run left in
      the namespace: side effects accumulate across runs. */
  lemma RunTwiceAccumulates(py: Python, s: Session)
    requires s.codeObj.Some?
    ensures var e1 := py.runCodeObj(s.codeObj.value, s.globals, s.vm);
      var e2 := py.runCodeObj(s.codeObj.value, e1.globals, e1.vm);
      Run(py, Run(py, s)).globals == e2.globals &&
      Run(py, Run(py, s)).output == Concat(e2.writes)
  {
  }

  /** Loading the same source twice is the same as loading it once. */
  lemma LoadIdempotent(py: Python, s: Session, src: string)
    ensures Load(py, Load(py, s, src), src) == Load(py, s, src)
  {
  }

  /** Reset law: a reset depends on nothing but the stored source, and
      loading that source again afterwards is the same as loading it once
      into a fresh runtime. */
  lemma ResetIsFreshLoad(py: Python, s1: Session, s2: Session)
    requires s1.code == s2.code
    ensures Reset(py, s1) == Reset(py, s2)
    ensures Load(py, Reset(py, s1), s1.code) == Load(py, Fresh(py), s1.code)
  {
  }

  /** A reset while the source is broken throws away the stale unit: after
      it nothing is loaded, and only the diagnostic remains. */
  lemma ResetDropsStaleUnit(py: Python, s: Session)
    requires py.compile(s.code).Err?
    ensures Reset(py, s).codeObj.None?
    ensures Reset(py, s).error == Some(py.debugFormat(py.compile(s.code).error))
    ensures Run(py, Reset(py, s)) == Reset(py, s)
  {
  }

  /** Installing the bridge twice leaves only the second handle reachable
      under `egui`; no other binding is affected. */
  lemma SetEguiOverwrites(py: Python, s: Session, a: UiHandle, b: UiHandle)
    ensures SetEgui(SetEgui(s, a), b) == SetEgui(s, b)
    ensures forall k :: k in s.globals && k != "egui" ==>
      k in SetEgui(s, b).globals && SetEgui(s, b).globals[k] == s.globals[k]
  {
  }

  /** Every call the application makes keeps `UnitTracksSource`. */
  lemma StepKeepsUnitTracksSource(py: Python, s: Session, op: Op)
    requires UnitTracksSource(py, s)
    ensures UnitTracksSource(py, Step(py, s, op))
  {
  }

  /** From startup on (`Runtime::new` followed by `load` of the persisted
      source, src/app.rs:34-35) the loaded unit is the compilation of the
      stored source whenever that compiles, whatever calls follow. */
  lemma {:induction false} StartupKeepsUnitTracksSource(py: Python, src: string, ops: seq<Op>)
    ensures UnitTracksSource(py, Apply(py, Load(py, Fresh(py), src), ops))
  {
    ApplyKeepsUnitTracksSource(py, Load(py, Fresh(py), src), ops);
  }

  lemma {:induction false} ApplyKeepsUnitTracksSource(py: Python, s: Session, ops: seq<Op>)
    requires UnitTracksSource(py, s)
    ensures UnitTracksSource(py, Apply(py, s, ops))
    decreases |ops|
  {
    if ops != [] {
      StepKeepsUnitTracksSource(py, s, ops[0]);
      ApplyKeepsUnitTracksSource(py, Step(py, s, ops[0]), ops[1..]);
    }
  }
}
