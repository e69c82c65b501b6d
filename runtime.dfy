/** `Runtime` of src/lib.rs: the interpreter session that the editor drives.
    Its fields are updated in place, so it is a class; every method is
    proved to move the session exactly as the matching function of module
    Session says. */
module Runtime {
  import opened Wrappers
  import opened Python
  import Session

  /** The capture buffer (`Rc<RefCell<String>>`): one object shared by the
      runtime, the `write` function installed as `sys.stdout.write`, and
      every handle `stdout()` has given out. */
  class Capture {
    var text: string

    constructor ()
      ensures text == ""
    {
      text := "";
    }

    /** The stdout hook: the script's `sys.stdout.write(s)` appends `s`. */
    method Write(s: string)
      modifies this
      ensures text == old(text) + s
    {
      text := text + s;
    }

    method Clear()
      modifies this
      ensures text == ""
    {
      text := "";
    }
  }

  class Runtime {
    /** The foreign behaviour of the interpreter. */
    const py: Python
    /** The interpreter's own state (`interpreter`). */
    var vm: VmState
    /** `scope.globals`. */
    var globals: Globals
    var output: Capture
    var error: Option<string>
    var code: string
    var codeObj: Option<CodeObject>
    var childUi: Option<UiHandle>

    /** The session this object currently represents. */
    function State(): Session.Session
      reads this, output
    {
      Session.Session(code, codeObj, error, output.text, globals, vm, childUi)
    }

    /** `Runtime::new`. */
    constructor (py: Python)
      ensures this.py == py && fresh(output)
      ensures code == "" && codeObj == None && error == None && output.text == ""
      ensures globals == py.scopeWithBuiltins && vm == py.booted && childUi == None
      ensures State() == Session.Fresh(py)
    {
      this.py := py;
      vm := py.booted;
      globals := py.scopeWithBuiltins;
      output := new Capture();
      error := None;
      code := "";
      codeObj := None;
      childUi := None;
    }

    /** `Runtime::load`: compile `src`; keep the new unit, or on failure keep
        the old unit and record the diagnostic; store `src` in both cases. */
    method Load(src: string)
      modifies this
      ensures code == src
      ensures py.compile(src).Ok? ==>
        codeObj == Some(py.compile(src).value) && error == old(error)
      ensures py.compile(src).Err? ==>
        codeObj == old(codeObj) && error == Some(py.debugFormat(py.compile(src).error))
      ensures output == old(output) && globals == old(globals) && vm == old(vm)
      ensures childUi == old(childUi)
      ensures State() == Session.Load(py, old(State()), src)
    {
      match py.compile(src) {
        case Ok(obj) =>
          codeObj := Some(obj);
        case Err(compileErr) =>
          error := Some(py.debugFormat(compileErr));
      }
      code := src;
    }

    /** `Runtime::run_loaded_code`: with nothing loaded, return at once;
        otherwise clear the shared buffer and the error slot, execute the
        unit on the persistent globals (each fragment the script writes goes
        through the stdout hook), and record the exception it raised. */
    method RunLoadedCode()
      modifies this, output
      ensures output == old(output)
      ensures old(codeObj).None? ==>
        error == old(error) && output.text == old(output.text) &&
        globals == old(globals) && vm == old(vm)
      ensures old(codeObj).Some? ==>
        var e := py.runCodeObj(old(codeObj).value, old(globals), old(vm));
        output.text == Session.Concat(e.writes) &&
        (error.Some? <==> e.fault.Some?) &&
        (e.fault.Some? ==> error == Some(py.writeException(e.fault.value))) &&
        globals == e.globals && vm == e.vm
      ensures code == old(code) && codeObj == old(codeObj) && childUi == old(childUi)
      ensures State() == Session.Run(py, old(State()))
    {
      if codeObj.None? {
        return;
      }
      var unit := codeObj.value;
      output.Clear();
      error := None;
      var e := py.runCodeObj(unit, globals, vm);
      var i := 0;
      while i < |e.writes|
        modifies output
        invariant 0 <= i <= |e.writes|
        invariant output.text == Session.Concat(e.writes[..i])
      {
        Session.ConcatAppend(e.writes[..i], e.writes[i]);
        assert e.writes[..i + 1] == e.writes[..i] + [e.writes[i]];
        output.Write(e.writes[i]);
        i := i + 1;
      }
      assert e.writes[..i] == e.writes;
      globals, vm := e.globals, e.vm;
      error := Session.ErrorAfter(py, e.fault);
    }

    /** `Runtime::set_egui`, namespace side only: keep the frame's child
        `Ui` and bind a new integration object wrapping it to `egui`,
        replacing whatever was bound there. */
    method SetEgui(ui: UiHandle)
      modifies this
      ensures childUi == Some(ui)
      ensures "egui" in globals && globals["egui"] == EguiIntegration(ui)
      ensures globals.Keys == old(globals).Keys + {"egui"}
      ensures forall k :: k in old(globals) && k != "egui" ==> globals[k] == old(globals)[k]
      ensures code == old(code) && codeObj == old(codeObj) && error == old(error)
      ensures output == old(output) && vm == old(vm)
      ensures State() == Session.SetEgui(old(State()), ui)
    {
      childUi := Some(ui);
      globals := globals["egui" := EguiIntegration(ui)];
    }

    /** `Runtime::reset_state`: replace every field by those of a new
        runtime, then load the source the old one held. */
    method ResetState()
      modifies this
      ensures fresh(output) && output.text == ""
      ensures code == old(code)
      ensures globals == py.scopeWithBuiltins && vm == py.booted && childUi == None
      ensures py.compile(old(code)).Ok? ==>
        codeObj == Some(py.compile(old(code)).value) && error == None
      ensures py.compile(old(code)).Err? ==>
        codeObj == None && error == Some(py.debugFormat(py.compile(old(code)).error))
      ensures State() == Session.Reset(py, old(State()))
    {
      var oldCode := code;
      var replacement := new Runtime(py);
      vm, globals, output := replacement.vm, replacement.globals, replacement.output;
      error, code, codeObj := replacement.error, replacement.code, replacement.codeObj;
      childUi := replacement.childUi;
      Load(oldCode);
    }

    /** `Runtime::error`: the error slot, read without changing anything. */
    method Error() returns (e: Option<string>)
      ensures e == error
    {
      e := error;
    }

    /** `Runtime::stdout`: the shared buffer itself, not a copy, so text a
        later run writes is visible through the handle. */
    method Stdout() returns (buffer: Capture)
      ensures buffer == output
    {
      buffer := output;
    }
  }
}
