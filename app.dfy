/** The run scheduling of `TemplateApp::update` (src/app.rs): when a frame
    executes the loaded script, and when the Run button is offered. */
module App {

  /** `RunMode`, the user's choice of when the script runs. */
  datatype RunMode = Continuous | OnScreenUpdate | OnCodeChange | Manual

  /** `RunMode::show_run_button`: the button is offered exactly in the
      modes where a frame can pass without an automatic run. */
  function ShowRunButton(mode: RunMode): (shown: bool)
    ensures shown <==> !RunRequested(mode, false)
  {
    mode == OnCodeChange || mode == Manual
  }

  /** Whether `update` asks egui for another frame straight away
      (`ctx.request_repaint()`): only `Continuous` does, and it runs the
      script on every frame it forces. */
  function RequestsRepaint(mode: RunMode): (repaint: bool)
    ensures repaint <==> mode == Continuous
    ensures repaint ==> forall changed :: RunRequested(mode, changed)
  {
    mode == Continuous
  }

  /** The `run_requested` match: whether this frame runs the script on its
      own, given whether the editor reported a change this frame. */
  function RunRequested(mode: RunMode, changed: bool): (run: bool)
    ensures mode == Manual ==> !run
    ensures mode == OnCodeChange ==> run == changed
    ensures mode == Continuous || mode == OnScreenUpdate ==> run
  {
    match mode
    case Continuous => true
    case Manual => false
    case OnScreenUpdate => true
    case OnCodeChange => changed
  }

  /** The derived `Default`: a project starts in `OnScreenUpdate`, the one
      mode that runs every frame without forcing frames and without a Run
      button. */
  function DefaultRunMode(): (mode: RunMode)
    ensures forall changed :: RunRequested(mode, changed)
    ensures !RequestsRepaint(mode) && !ShowRunButton(mode)
  {
    OnScreenUpdate
  }

  /** Whether `update` calls `run_loaded_code` this frame: the mode asks for
      it, or the user stepped with Ctrl+E or the Step menu entry, or clicked
      the Run button, which is only there in some modes. */
  function RunsThisFrame(mode: RunMode, changed: bool, stepKey: bool, stepMenu: bool,
                         runClicked: bool): (run: bool)
    ensures RunRequested(mode, changed) ==> run
    ensures stepKey || stepMenu ==> run
    ensures runClicked && ShowRunButton(mode) ==> run
    ensures run && !RunRequested(mode, changed) ==>
      stepKey || stepMenu || (runClicked && ShowRunButton(mode))
  {
    var forceStep := stepKey || stepMenu || (ShowRunButton(mode) && runClicked);
    RunRequested(mode, changed) || forceStep
  }

  /** The Run button is offered exactly in the modes where a frame can pass
      without an automatic run. */
  lemma RunButtonIffFrameMayIdle(mode: RunMode)
    ensures ShowRunButton(mode) <==> exists changed :: !RunRequested(mode, changed)
  {
    if ShowRunButton(mode) {
      assert !RunRequested(mode, false);
    }
  }

  /** In `Manual` mode the script runs only on the user's request; in
      `OnCodeChange` mode it also runs after every edit. */
  lemma UserControlsManualRuns(changed: bool, stepKey: bool, stepMenu: bool, runClicked: bool)
    ensures RunsThisFrame(Manual, changed, stepKey, stepMenu, runClicked) <==>
      stepKey || stepMenu || runClicked
    ensures RunsThisFrame(OnCodeChange, changed, stepKey, stepMenu, runClicked) <==>
      changed || stepKey || stepMenu || runClicked
  {
  }
}
