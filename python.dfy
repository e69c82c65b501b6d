/** The part of the RustPython virtual machine the runtime calls into.

    Compilation, execution and exception formatting are foreign code, so the
    model does not define them: a `Python` value bundles them as total
    functions, and what is proved about the runtime holds for every choice
    of these functions.  Being functions, they are deterministic: compiling
    depends on the source text alone, and a run on the code object, the
    globals and the VM state alone.  Being total, they always return: a
    script that never terminates is not modelled.  The objects they exchange are opaque,
    so each is a datatype that carries nothing but an identity, and two
    compilations of the same text yield equal code objects. */
module Python {
  import opened Wrappers

  /** A compiled `PyCode` object, immutable once built. */
  datatype CodeObject = CodeObject(id: nat)

  /** The error `vm.compile` reports for malformed source. */
  datatype CompileError = CompileError(id: nat)

  /** An exception raised out of `vm.run_code_obj`. */
  datatype PyException = PyException(id: nat)

  /** The state of the virtual machine outside the script's globals
      (imported modules such as `sys` and `euclid`, their attributes, the
      `sys.stdout` hook object). */
  datatype VmState = VmState(id: nat)

  /** A frame-scoped egui `Ui` handle (the child `Ui` that `set_egui`
      creates with `new_child`). */
  datatype UiHandle = UiHandle(id: nat)

  /** A value bound in the script's global namespace.  The runtime itself
      only ever creates one kind: the `EguiIntegration` object that
      `set_egui` installs, which wraps the frame's child `Ui`; every other
      value is the script's (or the builtins') and opaque here. */
  datatype PyObject =
    | EguiIntegration(ui: UiHandle)
    | Opaque(id: nat)

  /** `scope.globals`: identifier to value. */
  type Globals = map<string, PyObject>

  /** What one `vm.run_code_obj(code, scope)` call does: the globals and VM
      state it leaves behind (kept even when it faults; nothing is rolled
      back), the fragments the script passed to `sys.stdout.write`, in
      order, and the exception it ended with, if any. */
  datatype Execution = Execution(
    globals: Globals,
    vm: VmState,
    writes: seq<string>,
    fault: Option<PyException>)

  /** The interpreter as a bundle of foreign behaviour:
      - `compile`: `vm.compile(source, Mode::Exec, "<embedded>")`;
      - `runCodeObj`: `vm.run_code_obj(code, scope)` against the current
        globals and VM state;
      - `debugFormat`: Rust's `format!("{:#?}", compile_err)`;
      - `writeException`: `vm.write_exception` into a fresh `String`;
      - `scopeWithBuiltins`: the globals `vm.new_scope_with_builtins()`
        returns;
      - `booted`: the VM state once `Runtime::new` has installed the native
        modules, the stdout hook and the embedded `euclid` library. */
  datatype Python = Python(
    compile: string -> Result<CodeObject, CompileError>,
    runCodeObj: (CodeObject, Globals, VmState) -> Execution,
    debugFormat: CompileError -> string,
    writeException: PyException -> string,
    scopeWithBuiltins: Globals,
    booted: VmState)
}
