# rustpython-egui-experiment: the script runtime and the editor helpers

This project models, in Dafny, the two pieces of sequential logic in a live-coding
app built on egui and RustPython. The user edits Python in a code editor, and the app
recompiles and re-runs the script, capturing its output and errors.

- **`Runtime`** (src/lib.rs) is the interpreter session. It keeps the last source
  text, the compiled code object that is loaded, an error slot, a capture buffer
  shared with the script's `sys.stdout.write`, the global namespace, and the frame's
  child `Ui`. Its operations are `new`, `load`, `run_loaded_code`, `set_egui`,
  `reset_state`, `error` and `stdout`, plus the stdout `write` hook.
- **The editor helpers** (src/app.rs) are the `RunMode` rules that decide when a frame
  runs the script, and the auto-indent step of `code_editor_with_autoindent`.

Modules:

- `Wrappers` (wrappers.dfy): `Option` and `Result`.
- `Python` (python.dfy): the RustPython surface the runtime calls. This is compiling,
  running a code object, formatting a compile error, writing an exception, the
  namespace with builtins, and the booted VM state. It is a `Python` value of total
  functions. The results hold for every choice of these functions. Being functions,
  they are deterministic; "## Left out" lists what that leaves out.
- `Session` (session.dfy): the runtime's bookkeeping as a value (`Session`) with
  pure transition functions `Fresh`, `Load`, `Run`, `SetEgui` and `Reset`, and
  lemmas that relate several calls.
- `Runtime` (runtime.dfy): the source's objects as classes. `Capture` is the shared
  `Rc<RefCell<String>>` buffer, and its `Write` is the stdout hook. `Runtime` has the
  source's fields, and each method states every field it leaves behind. Each method
  is also proved to move `State()` exactly as the matching `Session` function does,
  so the lemmas of `Session` apply to the class.
- `Editor` (editor.dfy): auto-indent over `seq<char>` with a character cursor.
- `App` (app.rs's run scheduling, in app.dfy): `RunMode` and the rules built on it.

Three behaviours of the code are easy to miss:

- A successful `load` does not clear an earlier error. The diagnostic stays until the
  next run (src/lib.rs:109-112, `Session.ErrorPersistsAcrossGoodLoads`).
- A failed `load` does change the runtime. It records the diagnostic in `error` and
  stores the broken source in `code` (src/lib.rs:113-118).
- A reset while the source does not compile leaves nothing loaded. The stale-but-valid
  unit is lost, because `new()` starts with no code object
  (src/lib.rs:206-209, `Session.ResetDropsStaleUnit`).

## Model

| member | source | states |
|---|---|---|
| `Runtime.Capture.constructor` | src/lib.rs:67 | the capture buffer starts empty |
| `Runtime.Capture.Write` | src/lib.rs:80-82 | the stdout hook appends its argument: `text == old(text) + s` |
| `Runtime.Capture.Clear` | src/lib.rs:126 | clearing leaves the buffer empty |
| `Runtime.Runtime.constructor` | src/lib.rs:58-104 | a new runtime holds empty source, no code object, no error, a fresh empty buffer, the builtins namespace, the booted VM and no child `Ui` |
| `Runtime.Runtime.Load` | src/lib.rs:106-119 | stores the source either way; a compiled unit replaces the loaded one and leaves the error slot as it was; a compile error keeps the old unit and sets the error to the formatted diagnostic; buffer, namespace, VM and child `Ui` are untouched |
| `Runtime.Runtime.RunLoadedCode` | src/lib.rs:121-139 | with no unit loaded nothing changes; otherwise the same buffer object holds exactly the text this execution wrote, `error` is `Some` iff the execution raised (and then holds the written exception), and the namespace and VM are what the execution left; `code`, `codeObj` and the child `Ui` never change |
| `Runtime.Runtime.SetEgui` | src/lib.rs:141-168 | keeps the child `Ui`, binds `egui` to an integration object wrapping that `Ui` and replaces any earlier binding; other keys keep their values and no other key appears; nothing else changes |
| `Runtime.Runtime.ResetState` | src/lib.rs:206-209 | keeps the source; the buffer is a fresh empty object; namespace and VM are fresh; the child `Ui` is gone; unit and error are those of a new runtime after loading the old source |
| `Runtime.Runtime.Error` | src/lib.rs:211-213 | returns the error slot and changes no field |
| `Runtime.Runtime.Stdout` | src/lib.rs:215-217 | returns the shared buffer object itself, not a copy, and changes no field |
| `Session.ConcatAppend` | src/lib.rs:80-82 | appending fragments one at a time yields their concatenation |
| `Session.Fresh` | src/lib.rs:95-103 | a new runtime has no unit, no error, an empty buffer and no child `Ui`, and a run on it changes nothing |
| `Session.Load` | src/lib.rs:106-119 | stores the source; a compiled unit replaces the loaded one and keeps the error; a compile error keeps the unit and sets the diagnostic; buffer, namespace, VM and child `Ui` are kept; afterwards a compiling source is the loaded unit |
| `Session.Run` | src/lib.rs:121-139 | without a unit nothing changes; with one, the buffer holds only this execution's writes, the error is set iff it raised (to the written exception), and namespace and VM are what it left; source, unit and child `Ui` are kept |
| `Session.SetEgui` | src/lib.rs:141-168 | keeps the child `Ui` and binds `egui` to its integration object, replacing any earlier binding; other keys keep their values, no other key appears, and nothing else changes |
| `Session.Reset` | src/lib.rs:206-209 | keeps the source; empty buffer, builtins namespace, booted VM, no child `Ui`; unit and error are those of loading the source into a new runtime |
| `Session.StaleUnitSurvivesFailedLoads` | src/lib.rs:106-139 | after any number of failed loads only the source and the error change, the error is the last diagnostic, and when a unit is loaded the next run is exactly the one that would have happened before those loads (but for the stored source) |
| `Session.ErrorPersistsAcrossGoodLoads` | src/lib.rs:109-112 | after any non-empty sequence of successful loads the error slot is unchanged and the last source's unit is loaded |
| `Session.RunTwiceAccumulates` | src/lib.rs:129-131 | a second run executes on the namespace and VM state the first run left, and shows only the second run's output |
| `Session.LoadIdempotent` | src/lib.rs:106-119 | loading the same source twice equals loading it once |
| `Session.ResetIsFreshLoad` | src/lib.rs:206-209 | a reset depends only on the stored source, and loading that source afterwards equals loading it once into a new runtime |
| `Session.ResetDropsStaleUnit` | src/lib.rs:206-209 | resetting while the source does not compile leaves no unit loaded, only the diagnostic, and a following run does nothing |
| `Session.SetEguiOverwrites` | src/lib.rs:163-166 | installing twice equals installing the second handle once; other bindings keep their values |
| `Session.StepKeepsUnitTracksSource` | src/lib.rs:106-209 | each of load, run, set_egui and reset keeps the invariant: when the stored source compiles, the loaded unit is its compilation |
| `Session.ApplyKeepsUnitTracksSource` | src/lib.rs:106-209 | the invariant holds after any sequence of those calls |
| `Session.StartupKeepsUnitTracksSource` | src/app.rs:34-35 | from startup (`new` and then `load` of the persisted source), the invariant holds whatever calls follow |
| `Editor.RFind` | src/app.rs:179 | `rfind('\n')`: the index of the last newline, or none when the slice has no newline |
| `Editor.TakeWhitespace` | src/app.rs:184-186 | `take_while(is_whitespace)` yields the longest prefix that is all whitespace |
| `Editor.KeepIndentChars` | src/app.rs:187-188 | the filter keeps only spaces and tabs and never lengthens its input |
| `Editor.KeepIndentCharsCounts` | src/app.rs:187-188 | the filter keeps every space and every tab: the output has as many of each as the input, and nothing else |
| `Editor.KeepIndentCharsAppend` | src/app.rs:187-188 | filtering one more character appends it exactly when it is a space or tab |
| `Editor.KeepBlanksOnly` | src/app.rs:187-188 | a run of spaces and tabs passes the filter unchanged |
| `Editor.TakeWhitespaceIsMaximalRun` | src/app.rs:184-186 | a whitespace prefix that cannot be extended is the one `take_while` yields |
| `Editor.IndentCopiesLeadingBlanks` | src/app.rs:183-188 | when the slice is the newline, the previous line's spaces and tabs, then a non-blank character, the indent is exactly those spaces and tabs |
| `Editor.CollectIndent` | src/app.rs:184-188 | the character loop yields the spaces and tabs of the leading whitespace run, no longer than the line |
| `Editor.AutoIndent` | src/app.rs:174-204 | an indent is inserted iff the text changed on Enter, there is a cursor that prefers the next row, and a newline exists before `index - 1`; otherwise text and cursor are untouched; the new text is `code[..i] + indent + code[i..]` with the prefix and suffix unchanged; the indent is only spaces and tabs, at most `i - prev` long; the stored cursor is `i + |indent|` |
| `App.ShowRunButton` | src/app.rs:226-228 | the Run button is shown exactly when a frame without a code change runs nothing on its own (`OnCodeChange`, `Manual`) |
| `App.RequestsRepaint` | src/app.rs:101-104 | only `Continuous` forces another frame, and it runs the script on every frame |
| `App.RunRequested` | src/app.rs:100-108 | `Continuous` and `OnScreenUpdate` always run, `Manual` never runs on its own, and `OnCodeChange` runs iff the code changed |
| `App.DefaultRunMode` | src/app.rs:209-216 | the default mode runs every frame, forces no repaint and shows no Run button, which only `OnScreenUpdate` does |
| `App.RunsThisFrame` | src/app.rs:119-129 | a frame runs the script when its mode asks, on a step request, or on a click of a Run button that is shown, and only then |
| `App.RunButtonIffFrameMayIdle` | src/app.rs:226-228 | the Run button is shown (`OnCodeChange`, `Manual`) exactly in the modes where some frame, whatever the editor reports, can pass without an automatic run |
| `App.UserControlsManualRuns` | src/app.rs:100-129 | in `Manual` a frame runs iff the user steps or clicks Run; in `OnCodeChange` also iff the code changed |

## Left out

- RustPython itself is not modelled: compiling, bytecode execution, `write_exception`, the `{:#?}` formatting of compile errors and `new_scope_with_builtins`. These are the fields of `Python.Python`, and the results hold for every choice of them.
- Scripts are deterministic in the model: a run depends only on the code object, the globals and the VM state. Clocks, randomness, files and the environment a script may read are not modelled, so `Session.StaleUnitSurvivesFailedLoads` and `Session.RunTwiceAccumulates` describe deterministic scripts only.
- Object identity is not modelled, for code objects and for `egui` integration objects. Compiling equal source gives equal code objects, while each `vm.compile` builds a new `PyCode`. Installing the same child `Ui` twice gives equal integration objects, while each `set_egui` builds a new one with `anon_object` (src/lib.rs:147) and attaches new closures. `Session.LoadIdempotent`, `Session.ResetIsFreshLoad` and `Session.SetEguiOverwrites` are equalities up to that identity.
- Scripts that never terminate are not modelled: `runCodeObj` is total, while `run_code_obj` (src/lib.rs:131) has no timeout, so a looping script blocks `run_loaded_code` and the app forever. The contracts about runs (`Session.Run`, `Runtime.Runtime.RunLoadedCode`, `Session.RunTwiceAccumulates`, `Session.StaleUnitSurvivesFailedLoads`) hold for runs that return.
- The insertion order of the globals dict is not modelled. `Globals` is an unordered map, while a script can observe Python's dict order through `globals()`.
- Output written during bootstrap is not modelled. The constructor's buffer is empty, which assumes the `euclid` import (src/lib.rs:90) writes nothing, although it runs after the stdout hook is installed (src/lib.rs:84-87).
- The script's writes are replayed into the buffer after the execution returns, in the order written. Nothing reads the buffer while a script runs, so the interleaving with namespace changes cannot be observed.
- The bootstrap in `Runtime::new` is not modelled. This covers loading the native modules, importing `sys`, building the `InternalStdout` object with `anon_object`, and `import_source` of the embedded `euclid` library. Its outcome is the `booted` VM state. Its failure panics through `unwrap_exception`, and that panic path is left out.
- The `unwrap()` and `unwrap_exception` panics around `write_exception`, `set_attr` and `set_item` are left out, because they only fail on a broken embedding.
- The bridge functions that `set_egui` attaches to the integration object (`button`, `text_edit_singleline`) and their egui calls are left out. So are `PyEguiResponse::from`, `add_egui_fn` and `take_up_egui_space`. `Runtime.Runtime.SetEgui` takes the child `Ui` created by `new_child` as a parameter.
- The painter bridge (`set_painter`) is commented out in the source, so there is nothing to model.
- The egui widget calls in src/app.rs are left out. This covers the text editor widget, syntax highlighting and layouters, menus, and `TextEdit::store_state`. Storing is modelled as the returned cursor.
- Keyboard shortcut detection, the Save action, and serde persistence of `Project` are left out. They are event handling and I/O, and they enter `App.RunsThisFrame` only as booleans.
- src/main.rs is a standalone egui demo window and is not part of this model.
- Editor.AutoIndent: text is modelled as characters and the cursor as a character index. The source slices its UTF-8 `String` at the cursor's character index as though it were a byte offset. On text with multi-byte characters before the cursor, the source slices at the wrong place or panics. The model does not capture that.
- Editor.AutoIndent requires `1 <= index <= |code|` when the indent step is reached. At index 0, `cursor.index - 1` underflows and the source panics. egui never reports a cursor past the end of the text.
