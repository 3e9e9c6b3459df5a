/**
 * The view resolver of the code editor: which of its views the editor shows
 * for the current module (the structured configuration editor, the image
 * viewer, the "too big to edit" notice for other binary files, or a text
 * editor on one of two engines with a note about the file's configuration
 * support), and the one piece of state that steers it, `showConfigUI`.
 */
module CodeEditorView {
  import opened Wrappers
  import opened Workspace
  import opened DependencyExtractor

  /** The two preferences the resolver reads; an unset preference is `false`. */
  datatype Settings = Settings(vimMode: bool, codeMirror: bool)

  datatype Props = Props(
    settings: Settings,
    currentModule: Module,
    sandbox: Sandbox,
    isLive: bool)

  /**
   * A template's descriptor of a configuration file. An empty disclaimer is
   * falsy in the source and so counts as no disclaimer.
   */
  datatype ConfigurationFile = ConfigurationFile(
    configType: string,
    partialSupportDisclaimer: Option<string>)

  /**
   * The code the resolver calls but whose internals are not modelled:
   * `getModulePath`, `getDefinition(template).configurationFiles`, `getUI`
   * (whether a structured editor exists for a configuration type),
   * `isImage` and `JSON.parse`.
   */
  datatype Environment = Environment(
    modulePath: (seq<Module>, seq<Directory>, string) -> string,
    configurationFiles: string -> map<string, ConfigurationFile>,
    getUI: string -> bool,
    isImage: string -> bool,
    parse: Parser)

  datatype Engine = CodeMirror | Monaco

  /** The note shown above a text editor for a file that has a configuration descriptor. */
  datatype ConfigNote = SwitchToUI | PartiallySupported(disclaimer: string) | Supported

  datatype View =
    | ConfigurationEditor(config: ConfigurationFile)
    | ImageViewer(dependencies: Option<DepMap>)
    | TooBigToEdit(externalLink: Option<string>)
    | TextEditor(engine: Engine, note: Option<ConfigNote>, dependencies: Option<DepMap>)

  /** The configuration descriptor the template has for the current module's path, if any. */
  function ConfigFor(props: Props, env: Environment): (r: Option<ConfigurationFile>)
    ensures var files := env.configurationFiles(props.sandbox.template);
      var path := env.modulePath(props.sandbox.modules, props.sandbox.directories, props.currentModule.id);
      && (r.None? <==> path !in files)
      && (r.Some? ==> r.value == files[path])
  {
    var path := env.modulePath(props.sandbox.modules, props.sandbox.directories, props.currentModule.id);
    var files := env.configurationFiles(props.sandbox.template);
    if path in files then Some(files[path]) else None
  }

  /** A descriptor exists for the current module and a structured editor exists for its type. */
  predicate HasConfigUI(props: Props, env: Environment) {
    var config := ConfigFor(props, env);
    config.Some? && env.getUI(config.value.configType)
  }

  predicate HasDisclaimer(c: ConfigurationFile) {
    c.partialSupportDisclaimer.Some? && c.partialSupportDisclaimer.value != ""
  }

  /** The engine policy: the alternate engine lacks the live-collaboration wiring. */
  function SelectEngine(settings: Settings, isLive: bool): (e: Engine)
    ensures isLive ==> e == Monaco
    ensures !settings.vimMode && !settings.codeMirror ==> e == Monaco
    ensures e == Monaco ==> isLive || (!settings.vimMode && !settings.codeMirror)
  {
    if (settings.vimMode || settings.codeMirror) && !isLive then CodeMirror else Monaco
  }

  function NoteFor(config: Option<ConfigurationFile>, getUI: string -> bool): (r: Option<ConfigNote>)
    ensures r.None? <==> config.None?
    ensures r == Some(SwitchToUI) <==> config.Some? && getUI(config.value.configType)
    ensures r.Some? && r.value.PartiallySupported? ==> HasDisclaimer(config.value)
  {
    match config
    case None => None
    case Some(c) =>
      if getUI(c.configType) then Some(SwitchToUI)
      else if HasDisclaimer(c) then Some(PartiallySupported(c.partialSupportDisclaimer.value))
      else Some(Supported)
  }

  /** The view `render` returns, given the state and the extracted dependencies. */
  function Resolve(props: Props, env: Environment, showConfigUI: bool, deps: Option<DepMap>): (v: View)
    ensures v.ConfigurationEditor? <==> HasConfigUI(props, env) && showConfigUI
    ensures props.currentModule.isBinary ==> !v.TextEditor?
  {
    var config := ConfigFor(props, env);
    var current := props.currentModule;
    if config.Some? && env.getUI(config.value.configType) && showConfigUI then
      ConfigurationEditor(config.value)
    else if current.isBinary then
      if env.isImage(current.title) then ImageViewer(deps) else TooBigToEdit(current.code)
    else
      TextEditor(SelectEngine(props.settings, props.isLive), NoteFor(config, env.getUI), deps)
  }

  /** The React component: its state is `showConfigUI`. */
  class CodeEditor {
    var showConfigUI: bool

    constructor ()
      ensures showConfigUI
    {
      showConfigUI := true;
    }

    method ToggleConfigUI()
      modifies this
      ensures showConfigUI == !old(showConfigUI)
    {
      showConfigUI := !showConfigUI;
    }

    /** `render`: extract the dependencies, then choose the view. */
    method Render(props: Props, env: Environment) returns (view: View)
      ensures view == Resolve(props, env, showConfigUI, Dependencies(props.sandbox, env.parse))
    {
      var deps := GetDependencies(props.sandbox, env.parse);
      view := Resolve(props, env, showConfigUI, deps);
    }
  }

  // ---------------------------------------------------------------------
  // Properties of the resolver
  // ---------------------------------------------------------------------

  /**
   * The configuration editor is shown exactly when a descriptor exists, a
   * structured editor exists for its type and the state asks for it; the
   * binary flag is not consulted first.
   */
  lemma ConfigurationEditorIff(props: Props, env: Environment, show: bool, deps: Option<DepMap>)
    ensures Resolve(props, env, show, deps).ConfigurationEditor? <==> HasConfigUI(props, env) && show
    ensures Resolve(props, env, show, deps).ConfigurationEditor? ==>
      Resolve(props, env, show, deps).config == ConfigFor(props, env).value
  {
  }

  /**
   * Otherwise a binary module gets the image viewer when its title is an
   * image's and the notice when it is not; it never gets a text editor.
   */
  lemma BinaryModuleViews(props: Props, env: Environment, show: bool, deps: Option<DepMap>)
    requires props.currentModule.isBinary
    requires !(HasConfigUI(props, env) && show)
    ensures Resolve(props, env, show, deps).ImageViewer? <==> env.isImage(props.currentModule.title)
    ensures Resolve(props, env, show, deps).TooBigToEdit? <==> !env.isImage(props.currentModule.title)
    ensures Resolve(props, env, show, deps).TooBigToEdit? ==>
      Resolve(props, env, show, deps).externalLink == props.currentModule.code
  {
  }

  /** A text editor is shown exactly for a text module when the configuration editor is not. */
  lemma TextEditorIff(props: Props, env: Environment, show: bool, deps: Option<DepMap>)
    ensures Resolve(props, env, show, deps).TextEditor? <==>
      !props.currentModule.isBinary && !(HasConfigUI(props, env) && show)
  {
  }

  /**
   * The text editor runs on CodeMirror exactly when vim mode or CodeMirror is
   * preferred and the session is not live; a live session always gets Monaco.
   */
  lemma EngineChoice(props: Props, env: Environment, show: bool, deps: Option<DepMap>)
    requires Resolve(props, env, show, deps).TextEditor?
    ensures Resolve(props, env, show, deps).engine == CodeMirror <==>
      (props.settings.vimMode || props.settings.codeMirror) && !props.isLive
    ensures props.isLive ==> Resolve(props, env, show, deps).engine == Monaco
  {
  }

  /**
   * The note above a text editor: "switch to UI" for a descriptor with a
   * structured editor, "partially supported" with its disclaimer for one
   * without, "supported" when it has no disclaimer either, none without a
   * descriptor.
   */
  lemma TextEditorNote(props: Props, env: Environment, show: bool, deps: Option<DepMap>)
    requires Resolve(props, env, show, deps).TextEditor?
    ensures var note, config := Resolve(props, env, show, deps).note, ConfigFor(props, env);
      && (config.None? <==> note.None?)
      && (note == Some(SwitchToUI) <==> HasConfigUI(props, env))
      && (note.Some? && note.value.PartiallySupported? <==>
            config.Some? && !env.getUI(config.value.configType) && HasDisclaimer(config.value))
      && (note.Some? && note.value.PartiallySupported? ==>
            note.value.disclaimer == config.value.partialSupportDisclaimer.value)
      && (note == Some(Supported) <==>
            config.Some? && !env.getUI(config.value.configType) && !HasDisclaimer(config.value))
  {
  }

  /** The image viewer and the text editor receive the extracted dependencies unchanged. */
  lemma DependenciesPassedOn(props: Props, env: Environment, show: bool, deps: Option<DepMap>)
    ensures var v := Resolve(props, env, show, deps);
      (v.ImageViewer? || v.TextEditor?) ==> v.dependencies == deps
  {
  }

  /** The state matters only for a module that has a structured configuration editor. */
  lemma ToggleMattersOnlyWithConfigUI(props: Props, env: Environment, show: bool, deps: Option<DepMap>)
    ensures Resolve(props, env, show, deps) == Resolve(props, env, !show, deps) <==> !HasConfigUI(props, env)
  {
  }

  /**
   * For a module with a structured configuration editor, a fresh editor shows
   * it; one toggle leaves it for the plain view; a second toggle brings it back.
   */
  method ToggleRoundTrip(props: Props, env: Environment) returns (editor: CodeEditor, first: View, second: View, third: View)
    requires HasConfigUI(props, env)
    ensures first.ConfigurationEditor? && !second.ConfigurationEditor? && third == first
    ensures second == Resolve(props, env, false, Dependencies(props.sandbox, env.parse))
    ensures editor.showConfigUI
  {
    editor := new CodeEditor();
    first := editor.Render(props, env);
    editor.ToggleConfigUI();
    second := editor.Render(props, env);
    editor.ToggleConfigUI();
    third := editor.Render(props, env);
  }
}
