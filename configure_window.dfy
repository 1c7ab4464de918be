/** The editor window in which a developer tells the plugin build where its
    local directories are.

    Behind the GUI sits a small keyed store: five directory kinds (`DirType`)
    map onto four cached string fields of the window, NuGet and BuildLocal
    sharing one of them, and every cached field mirrors one entry of the
    persisted plugin settings. The window shows a fixed label per kind, and
    which rows it draws depends on where plugins come from. */
module PluginConfig {

  /** The directory kinds a row of the window can edit. */
  datatype DirType = WinLegacy | WinIntegration | NuGet | BuildLocal | VSCommonTool

  /** Where plugins come from. The window only tells `Local` apart from every
      other value of the enumeration. */
  datatype PluginSource = Local | Other(code: int)

  /** The four cached directory fields of the window, and the four persisted
      settings they mirror. */
  datatype Slot = WinLegacySlot | WinIntegrationSlot | BuildScriptsSlot | VSCommonToolSlot

  /** The field a directory kind is stored in: NuGet and BuildLocal share the
      build-scripts field, every other kind has a field of its own. */
  function SlotOf(t: DirType): (slot: Slot)
    ensures slot == BuildScriptsSlot <==> t == NuGet || t == BuildLocal
    ensures slot == WinLegacySlot <==> t == WinLegacy
    ensures slot == WinIntegrationSlot <==> t == WinIntegration
    ensures slot == VSCommonToolSlot <==> t == VSCommonTool
  {
    match t
    case WinLegacy => WinLegacySlot
    case WinIntegration => WinIntegrationSlot
    case NuGet => BuildScriptsSlot
    case BuildLocal => BuildScriptsSlot
    case VSCommonTool => VSCommonToolSlot
  }

  /** Two kinds share a field exactly when they are the same kind or are
      NuGet and BuildLocal. */
  lemma SharedSlot(t: DirType, u: DirType)
    ensures SlotOf(t) == SlotOf(u) <==> t == u || ({t, u} == {NuGet, BuildLocal})
  {
  }

  /** The persisted plugin settings (the editor preferences behind the
      configuration helper): four directories, the plugin source and the
      build configuration. */
  datatype Settings = Settings(
    winLegacyDir: string,
    winIntegrationDir: string,
    buildScriptsDir: string,
    vsCommonToolDir: string,
    currentPluginSource: PluginSource,
    currentBuildConfig: int)
  {
    /** The directory setting that mirrors `slot`. */
    function Dir(slot: Slot): string {
      match slot
      case WinLegacySlot => winLegacyDir
      case WinIntegrationSlot => winIntegrationDir
      case BuildScriptsSlot => buildScriptsDir
      case VSCommonToolSlot => vsCommonToolDir
    }

    /** The settings with one directory entry written. */
    function WithDir(slot: Slot, dir: string): (r: Settings)
      ensures r.Dir(slot) == dir
      ensures forall other :: other != slot ==> r.Dir(other) == Dir(other)
      ensures r.currentPluginSource == currentPluginSource
      ensures r.currentBuildConfig == currentBuildConfig
    {
      match slot
      case WinLegacySlot => this.(winLegacyDir := dir)
      case WinIntegrationSlot => this.(winIntegrationDir := dir)
      case BuildScriptsSlot => this.(buildScriptsDir := dir)
      case VSCommonToolSlot => this.(vsCommonToolDir := dir)
    }
  }

  /** The label of a directory row; every kind has a non-empty one, and the
      two kinds that share a field share the label "Build Scripts". */
  function GetDirLabel(t: DirType): (text: string)
    ensures text != []
    ensures text == "Build Scripts" <==> SlotOf(t) == BuildScriptsSlot
  {
    match t
    case WinLegacy => "WinLegacy Project"
    case WinIntegration => "WinIntegration Project"
    case NuGet => "Build Scripts"
    case BuildLocal => "Build Scripts"
    case VSCommonTool => "Visual Studio Common Tools"
  }

  /** Two rows carry the same label exactly when they edit the same field. */
  lemma LabelsFollowSlots(t: DirType, u: DirType)
    ensures GetDirLabel(t) == GetDirLabel(u) <==> SlotOf(t) == SlotOf(u)
  {
  }

  /** Some row of `rows` edits the field `slot`. */
  ghost predicate HasRow(rows: seq<DirType>, slot: Slot) {
    exists i :: 0 <= i < |rows| && SlotOf(rows[i]) == slot
  }

  /** The directory rows the window draws, top to bottom, for a plugin source. */
  function RowsShown(source: PluginSource): (rows: seq<DirType>)
    // With local plugins: the two project directories, the build scripts
    // (as BuildLocal) and the Visual Studio tools.
    ensures source == Local ==> rows == [WinLegacy, WinIntegration, BuildLocal, VSCommonTool]
    // Otherwise: the build scripts (as NuGet) and the Visual Studio tools.
    ensures source != Local ==> rows == [NuGet, VSCommonTool]
    // The Visual Studio tools row always comes last.
    ensures |rows| >= 2 && rows[|rows| - 1] == VSCommonTool
    // No field is edited by two rows, and the build scripts are always editable.
    ensures forall i, j :: 0 <= i < j < |rows| ==> SlotOf(rows[i]) != SlotOf(rows[j])
    ensures HasRow(rows, BuildScriptsSlot) && HasRow(rows, VSCommonToolSlot)
  {
    var rows := if source == Local then [WinLegacy, WinIntegration, BuildLocal] else [NuGet];
    var all := rows + [VSCommonTool];
    assert SlotOf(all[|all| - 2]) == BuildScriptsSlot;
    all
  }

  /** With local plugins every field has a row, and with any other source the
      two project directories have none. */
  lemma RowsCoverSlots(source: PluginSource)
    ensures source == Local ==> forall slot :: HasRow(RowsShown(source), slot)
    ensures source != Local ==>
      !HasRow(RowsShown(source), WinLegacySlot) && !HasRow(RowsShown(source), WinIntegrationSlot)
  {
    var rows := RowsShown(source);
    if source == Local {
      forall slot ensures HasRow(rows, slot) {
        match slot
        case WinLegacySlot => assert SlotOf(rows[0]) == slot;
        case WinIntegrationSlot => assert SlotOf(rows[1]) == slot;
        case BuildScriptsSlot => assert SlotOf(rows[2]) == slot;
        case VSCommonToolSlot => assert SlotOf(rows[3]) == slot;
      }
    }
  }

  /** The folder the picker opens at: the row's current directory, or the
      project's data folder when the row has none yet. */
  function DefaultFolder(current: string, dataPath: string): (folder: string)
    ensures folder == current || folder == dataPath
    ensures folder == [] ==> current == [] && dataPath == []
    ensures current != [] ==> folder == current
  {
    if current == [] then dataPath else current
  }

  /** The window. `settings` is the persisted store; `fullPath` stands for the
      platform's path normalisation, which the model leaves uninterpreted. */
  class ConfigureWindow {
    var winLegacyDir: string
    var winIntegrationDir: string
    var nugetDir: string
    var vsCommonToolDir: string
    var pluginSource: PluginSource
    var buildConfig: int
    var settings: Settings
    const fullPath: string -> string

    /** The cached field for `slot`. */
    function Cached(slot: Slot): string
      reads this
    {
      match slot
      case WinLegacySlot => winLegacyDir
      case WinIntegrationSlot => winIntegrationDir
      case BuildScriptsSlot => nugetDir
      case VSCommonToolSlot => vsCommonToolDir
    }

    /** Every cached field equals the setting it mirrors. */
    ghost predicate InSync()
      reads this
    {
      forall slot :: Cached(slot) == settings.Dir(slot)
    }

    /** A window is created and then enabled: it starts out with the values
        loaded from the store. */
    constructor (store: Settings, getFullPath: string -> string)
      ensures settings == store && fullPath == getFullPath && InSync()
      ensures pluginSource == store.currentPluginSource && buildConfig == store.currentBuildConfig
    {
      winLegacyDir := store.winLegacyDir;
      winIntegrationDir := store.winIntegrationDir;
      nugetDir := store.buildScriptsDir;
      vsCommonToolDir := store.vsCommonToolDir;
      pluginSource := store.currentPluginSource;
      buildConfig := store.currentBuildConfig;
      settings := store;
      fullPath := getFullPath;
    }

    /** Reloads every cached value from the store. `afterSearch` is the store
        as the search for the Visual Studio tools directory has left it. */
    method OnEnable(afterSearch: Settings)
      modifies this
      ensures settings == afterSearch && InSync()
      ensures pluginSource == settings.currentPluginSource && buildConfig == settings.currentBuildConfig
    {
      settings := afterSearch;
      pluginSource := settings.currentPluginSource;
      buildConfig := settings.currentBuildConfig;
      winLegacyDir := settings.winLegacyDir;
      winIntegrationDir := settings.winIntegrationDir;
      nugetDir := settings.buildScriptsDir;
      vsCommonToolDir := settings.vsCommonToolDir;
    }

    /** The cached directory of a kind; NuGet and BuildLocal read the same field. */
    function GetDir(t: DirType): (dir: string)
      reads this
      ensures dir == Cached(SlotOf(t))
      ensures InSync() ==> dir == settings.Dir(SlotOf(t))
    {
      match t
      case WinLegacy => winLegacyDir
      case WinIntegration => winIntegrationDir
      case NuGet => nugetDir
      case BuildLocal => nugetDir
      case VSCommonTool => vsCommonToolDir
    }

    /** Stores the full path of `dir` in the field of `t` and in the setting it
        mirrors; every other field and setting is left as it was. */
    method SetDir(t: DirType, dir: string)
      modifies this
      ensures GetDir(t) == fullPath(dir)
      ensures forall u :: SlotOf(u) == SlotOf(t) ==> GetDir(u) == fullPath(dir)
      ensures forall u :: SlotOf(u) != SlotOf(t) ==> GetDir(u) == old(GetDir(u))
      ensures settings == old(settings).WithDir(SlotOf(t), fullPath(dir))
      ensures Cached(SlotOf(t)) == settings.Dir(SlotOf(t))
      ensures old(InSync()) ==> InSync()
      ensures pluginSource == old(pluginSource) && buildConfig == old(buildConfig)
    {
      var full := fullPath(dir);
      match t
      case WinLegacy =>
        winLegacyDir := full;
        settings := settings.(winLegacyDir := winLegacyDir);
      case WinIntegration =>
        winIntegrationDir := full;
        settings := settings.(winIntegrationDir := winIntegrationDir);
      case NuGet =>
        nugetDir := full;
        settings := settings.(buildScriptsDir := nugetDir);
      case BuildLocal =>
        nugetDir := full;
        settings := settings.(buildScriptsDir := nugetDir);
      case VSCommonTool =>
        vsCommonToolDir := full;
        settings := settings.(vsCommonToolDir := vsCommonToolDir);
    }

    /** The "Choose" button of a row: the picker opens at the current directory
        (or at `dataPath` when there is none) and returns `picked`; a non-empty
        choice is stored, an empty one (the picker was cancelled) changes nothing. */
    method ChooseDir(t: DirType, dataPath: string, picked: string) returns (offered: string)
      modifies this
      ensures offered == DefaultFolder(old(GetDir(t)), dataPath)
      ensures picked == [] ==>
        winLegacyDir == old(winLegacyDir) && winIntegrationDir == old(winIntegrationDir) &&
        nugetDir == old(nugetDir) && vsCommonToolDir == old(vsCommonToolDir) &&
        settings == old(settings)
      ensures picked != [] ==>
        GetDir(t) == fullPath(picked) &&
        settings == old(settings).WithDir(SlotOf(t), fullPath(picked)) &&
        forall u :: SlotOf(u) != SlotOf(t) ==> GetDir(u) == old(GetDir(u))
      ensures old(InSync()) ==> InSync()
      ensures pluginSource == old(pluginSource) && buildConfig == old(buildConfig)
    {
      var dir := GetDir(t);
      offered := DefaultFolder(dir, dataPath);
      dir := picked;
      if dir != [] {
        SetDir(t, dir);
      }
    }
  }
}
