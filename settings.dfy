/** The user settings record: theme, font size, canvas refresh rate, language and
    three groups of boolean switches, with their defaults, per-field updates, a
    stored snapshot, import with default fallbacks, and reset. */
module Settings {
  import opened Wrappers

  // ---------------------------------------------------------------------------
  // Notification switches

  datatype NotificationSettings = NotificationSettings(
    general: bool,
    workflowExecution: bool,
    errors: bool,
    systemUpdates: bool,
    projectReminders: bool)

  datatype NotificationKey = General | WorkflowExecution | Errors | SystemUpdates | ProjectReminders

  function GetNotification(n: NotificationSettings, key: NotificationKey): bool {
    match key
    case General => n.general
    case WorkflowExecution => n.workflowExecution
    case Errors => n.errors
    case SystemUpdates => n.systemUpdates
    case ProjectReminders => n.projectReminders
  }

  /** `notifications[key] = value`: that switch takes the value, the others keep theirs. */
  function SetNotification(n: NotificationSettings, key: NotificationKey, value: bool): (r: NotificationSettings)
    ensures GetNotification(r, key) == value
    ensures forall k :: k != key ==> GetNotification(r, k) == GetNotification(n, k)
  {
    match key
    case General => n.(general := value)
    case WorkflowExecution => n.(workflowExecution := value)
    case Errors => n.(errors := value)
    case SystemUpdates => n.(systemUpdates := value)
    case ProjectReminders => n.(projectReminders := value)
  }

  /** The switches an imported notification group carries; absent ones are `None`. */
  datatype NotificationPatch = NotificationPatch(
    general: Option<bool>,
    workflowExecution: Option<bool>,
    errors: Option<bool>,
    systemUpdates: Option<bool>,
    projectReminders: Option<bool>)

  function NotificationPatchValue(p: NotificationPatch, key: NotificationKey): Option<bool> {
    match key
    case General => p.general
    case WorkflowExecution => p.workflowExecution
    case Errors => p.errors
    case SystemUpdates => p.systemUpdates
    case ProjectReminders => p.projectReminders
  }

  /** `Object.assign(notifications, patch)`: present switches overwrite, absent ones stay. */
  function MergeNotifications(n: NotificationSettings, p: NotificationPatch): (r: NotificationSettings)
    ensures forall k :: GetNotification(r, k) == NotificationPatchValue(p, k).GetOr(GetNotification(n, k))
  {
    NotificationSettings(p.general.GetOr(n.general), p.workflowExecution.GetOr(n.workflowExecution),
                         p.errors.GetOr(n.errors), p.systemUpdates.GetOr(n.systemUpdates),
                         p.projectReminders.GetOr(n.projectReminders))
  }

  /** The group as a patch that sets every switch. */
  function NotificationsAsPatch(n: NotificationSettings): (p: NotificationPatch)
    ensures forall k :: NotificationPatchValue(p, k) == Some(GetNotification(n, k))
  {
    NotificationPatch(Some(n.general), Some(n.workflowExecution), Some(n.errors), Some(n.systemUpdates), Some(n.projectReminders))
  }

  /** A group is determined by its switches. */
  lemma NotificationsExtensional(a: NotificationSettings, b: NotificationSettings)
    requires forall k :: GetNotification(a, k) == GetNotification(b, k)
    ensures a == b
  {
    assert GetNotification(a, General) == GetNotification(b, General);
    assert GetNotification(a, WorkflowExecution) == GetNotification(b, WorkflowExecution);
    assert GetNotification(a, Errors) == GetNotification(b, Errors);
    assert GetNotification(a, SystemUpdates) == GetNotification(b, SystemUpdates);
    assert GetNotification(a, ProjectReminders) == GetNotification(b, ProjectReminders);
  }

  // ---------------------------------------------------------------------------
  // Performance switches

  datatype PerformanceSettings = PerformanceSettings(reducedAnimations: bool, autoSave: bool)

  datatype PerformanceKey = ReducedAnimations | AutoSave

  function GetPerformance(p: PerformanceSettings, key: PerformanceKey): bool {
    match key
    case ReducedAnimations => p.reducedAnimations
    case AutoSave => p.autoSave
  }

  /** `performance[key] = value`: that switch takes the value, the other keeps its own. */
  function SetPerformance(p: PerformanceSettings, key: PerformanceKey, value: bool): (r: PerformanceSettings)
    ensures GetPerformance(r, key) == value
    ensures forall k :: k != key ==> GetPerformance(r, k) == GetPerformance(p, k)
  {
    match key
    case ReducedAnimations => p.(reducedAnimations := value)
    case AutoSave => p.(autoSave := value)
  }

  datatype PerformancePatch = PerformancePatch(reducedAnimations: Option<bool>, autoSave: Option<bool>)

  function PerformancePatchValue(p: PerformancePatch, key: PerformanceKey): Option<bool> {
    match key
    case ReducedAnimations => p.reducedAnimations
    case AutoSave => p.autoSave
  }

  /** `Object.assign(performance, patch)`. */
  function MergePerformance(s: PerformanceSettings, p: PerformancePatch): (r: PerformanceSettings)
    ensures forall k :: GetPerformance(r, k) == PerformancePatchValue(p, k).GetOr(GetPerformance(s, k))
  {
    PerformanceSettings(p.reducedAnimations.GetOr(s.reducedAnimations), p.autoSave.GetOr(s.autoSave))
  }

  function PerformanceAsPatch(s: PerformanceSettings): (p: PerformancePatch)
    ensures forall k :: PerformancePatchValue(p, k) == Some(GetPerformance(s, k))
  {
    PerformancePatch(Some(s.reducedAnimations), Some(s.autoSave))
  }

  lemma PerformanceExtensional(a: PerformanceSettings, b: PerformanceSettings)
    requires forall k :: GetPerformance(a, k) == GetPerformance(b, k)
    ensures a == b
  {
    assert GetPerformance(a, ReducedAnimations) == GetPerformance(b, ReducedAnimations);
    assert GetPerformance(a, AutoSave) == GetPerformance(b, AutoSave);
  }

  // ---------------------------------------------------------------------------
  // Privacy switches

  datatype PrivacySettings = PrivacySettings(telemetry: bool, localCache: bool)

  datatype PrivacyKey = Telemetry | LocalCache

  function GetPrivacy(p: PrivacySettings, key: PrivacyKey): bool {
    match key
    case Telemetry => p.telemetry
    case LocalCache => p.localCache
  }

  /** `privacy[key] = value`: that switch takes the value, the other keeps its own. */
  function SetPrivacy(p: PrivacySettings, key: PrivacyKey, value: bool): (r: PrivacySettings)
    ensures GetPrivacy(r, key) == value
    ensures forall k :: k != key ==> GetPrivacy(r, k) == GetPrivacy(p, k)
  {
    match key
    case Telemetry => p.(telemetry := value)
    case LocalCache => p.(localCache := value)
  }

  datatype PrivacyPatch = PrivacyPatch(telemetry: Option<bool>, localCache: Option<bool>)

  function PrivacyPatchValue(p: PrivacyPatch, key: PrivacyKey): Option<bool> {
    match key
    case Telemetry => p.telemetry
    case LocalCache => p.localCache
  }

  /** `Object.assign(privacy, patch)`. */
  function MergePrivacy(s: PrivacySettings, p: PrivacyPatch): (r: PrivacySettings)
    ensures forall k :: GetPrivacy(r, k) == PrivacyPatchValue(p, k).GetOr(GetPrivacy(s, k))
  {
    PrivacySettings(p.telemetry.GetOr(s.telemetry), p.localCache.GetOr(s.localCache))
  }

  function PrivacyAsPatch(s: PrivacySettings): (p: PrivacyPatch)
    ensures forall k :: PrivacyPatchValue(p, k) == Some(GetPrivacy(s, k))
  {
    PrivacyPatch(Some(s.telemetry), Some(s.localCache))
  }

  lemma PrivacyExtensional(a: PrivacySettings, b: PrivacySettings)
    requires forall k :: GetPrivacy(a, k) == GetPrivacy(b, k)
    ensures a == b
  {
    assert GetPrivacy(a, Telemetry) == GetPrivacy(b, Telemetry);
    assert GetPrivacy(a, LocalCache) == GetPrivacy(b, LocalCache);
  }

  // ---------------------------------------------------------------------------
  // The whole record

  datatype UserSettings = UserSettings(
    theme: string,
    fontSize: int,
    canvasRefreshRate: int,
    language: string,
    notifications: NotificationSettings,
    performance: PerformanceSettings,
    privacy: PrivacySettings)

  /** Settings as an import supplies them: a missing scalar reads as the empty string
      or zero, a missing group as `None`. */
  datatype SettingsImport = SettingsImport(
    theme: string,
    fontSize: int,
    canvasRefreshRate: int,
    language: string,
    notifications: Option<NotificationPatch>,
    performance: Option<PerformancePatch>,
    privacy: Option<PrivacyPatch>)

  const DefaultTheme: string := "crystal"
  const DefaultFontSize: int := 16
  const DefaultRefreshRate: int := 33
  const DefaultLanguage: string := "es"

  /** The initial settings, which reset and clearing restore. */
  function DefaultSettings(): UserSettings {
    UserSettings(DefaultTheme, DefaultFontSize, DefaultRefreshRate, DefaultLanguage,
                 NotificationSettings(true, true, true, false, true),
                 PerformanceSettings(false, true),
                 PrivacySettings(false, true))
  }

  /** `a || b` on a string. */
  function StringOr(a: string, b: string): string {
    if a != "" then a else b
  }

  /** `a || b` on a number. */
  function NumberOr(a: int, b: int): int {
    if a != 0 then a else b
  }

  /** The settings after importing `data` over `current`: an empty theme or language
      and a zero font size or refresh rate take the default, each group present is
      merged into the current one, each absent group stays as it was. */
  function Imported(current: UserSettings, data: SettingsImport): (r: UserSettings)
    ensures r.theme == (if data.theme == "" then DefaultTheme else data.theme)
    ensures r.fontSize == (if data.fontSize == 0 then DefaultFontSize else data.fontSize)
    ensures r.canvasRefreshRate == (if data.canvasRefreshRate == 0 then DefaultRefreshRate else data.canvasRefreshRate)
    ensures r.language == (if data.language == "" then DefaultLanguage else data.language)
    ensures data.notifications.None? ==> r.notifications == current.notifications
    ensures data.notifications.Some? ==>
      (forall k :: GetNotification(r.notifications, k) == NotificationPatchValue(data.notifications.value, k).GetOr(GetNotification(current.notifications, k)))
    ensures data.performance.None? ==> r.performance == current.performance
    ensures data.performance.Some? ==>
      (forall k :: GetPerformance(r.performance, k) == PerformancePatchValue(data.performance.value, k).GetOr(GetPerformance(current.performance, k)))
    ensures data.privacy.None? ==> r.privacy == current.privacy
    ensures data.privacy.Some? ==>
      (forall k :: GetPrivacy(r.privacy, k) == PrivacyPatchValue(data.privacy.value, k).GetOr(GetPrivacy(current.privacy, k)))
  {
    UserSettings(
      StringOr(data.theme, DefaultTheme),
      NumberOr(data.fontSize, DefaultFontSize),
      NumberOr(data.canvasRefreshRate, DefaultRefreshRate),
      StringOr(data.language, DefaultLanguage),
      if data.notifications.Some? then MergeNotifications(current.notifications, data.notifications.value) else current.notifications,
      if data.performance.Some? then MergePerformance(current.performance, data.performance.value) else current.performance,
      if data.privacy.Some? then MergePrivacy(current.privacy, data.privacy.value) else current.privacy)
  }

  /** A saved snapshot, read back as an import. */
  function AsImport(s: UserSettings): SettingsImport {
    SettingsImport(s.theme, s.fontSize, s.canvasRefreshRate, s.language,
                   Some(NotificationsAsPatch(s.notifications)),
                   Some(PerformanceAsPatch(s.performance)),
                   Some(PrivacyAsPatch(s.privacy)))
  }

  /** Importing a snapshot whose scalars are all truthy restores that snapshot,
      whatever the settings were before. */
  lemma ImportSnapshotRestores(current: UserSettings, s: UserSettings)
    requires s.theme != "" && s.language != "" && s.fontSize != 0 && s.canvasRefreshRate != 0
    ensures Imported(current, AsImport(s)) == s
  {
    var r := Imported(current, AsImport(s));
    NotificationsExtensional(r.notifications, s.notifications);
    PerformanceExtensional(r.performance, s.performance);
    PrivacyExtensional(r.privacy, s.privacy);
  }

  /** Importing the same data twice gives what importing it once gives. */
  lemma ImportIdempotent(current: UserSettings, data: SettingsImport)
    ensures Imported(Imported(current, data), data) == Imported(current, data)
  {
    var once := Imported(current, data);
    var twice := Imported(once, data);
    NotificationsExtensional(twice.notifications, once.notifications);
    PerformanceExtensional(twice.performance, once.performance);
    PrivacyExtensional(twice.privacy, once.privacy);
  }

  // ---------------------------------------------------------------------------
  // The store

  class SettingsStore {
    var currentTheme: string
    var fontSize: int
    var canvasRefreshRate: int
    var language: string
    var notifications: NotificationSettings
    var performance: PerformanceSettings
    var privacy: PrivacySettings
    /** The snapshot kept in storage, if any. */
    var stored: Option<UserSettings>

    /** The current settings as one record. */
    function Snapshot(): UserSettings
      reads this
    {
      UserSettings(currentTheme, fontSize, canvasRefreshRate, language, notifications, performance, privacy)
    }

    constructor (stored: Option<UserSettings>)
      ensures Snapshot() == DefaultSettings() && this.stored == stored
    {
      currentTheme := DefaultTheme;
      fontSize := DefaultFontSize;
      canvasRefreshRate := DefaultRefreshRate;
      language := DefaultLanguage;
      notifications := NotificationSettings(true, true, true, false, true);
      performance := PerformanceSettings(false, true);
      privacy := PrivacySettings(false, true);
      this.stored := stored;
    }

    /** `saveSettings`: the stored snapshot becomes the current settings. */
    method SaveSettings()
      modifies this`stored
      ensures stored == Some(Snapshot())
    {
      stored := Some(Snapshot());
    }

    method SetTheme(theme: string)
      modifies this`currentTheme, this`stored
      ensures currentTheme == theme && stored == Some(Snapshot())
    {
      currentTheme := theme;
      SaveSettings();
    }

    method SetFontSize(size: int)
      modifies this`fontSize, this`stored
      ensures fontSize == size && stored == Some(Snapshot())
    {
      fontSize := size;
      SaveSettings();
    }

    method SetCanvasRefreshRate(rate: int)
      modifies this`canvasRefreshRate, this`stored
      ensures canvasRefreshRate == rate && stored == Some(Snapshot())
    {
      canvasRefreshRate := rate;
      SaveSettings();
    }

    method SetLanguage(lang: string)
      modifies this`language, this`stored
      ensures language == lang && stored == Some(Snapshot())
    {
      language := lang;
      SaveSettings();
    }

    /** `updateNotifications`: one switch changes, the other switches and fields keep their values. */
    method UpdateNotifications(key: NotificationKey, value: bool)
      modifies this`notifications, this`stored
      ensures notifications == SetNotification(old(notifications), key, value)
      ensures stored == Some(Snapshot())
    {
      notifications := SetNotification(notifications, key, value);
      SaveSettings();
    }

    method UpdatePerformance(key: PerformanceKey, value: bool)
      modifies this`performance, this`stored
      ensures performance == SetPerformance(old(performance), key, value)
      ensures stored == Some(Snapshot())
    {
      performance := SetPerformance(performance, key, value);
      SaveSettings();
    }

    method UpdatePrivacy(key: PrivacyKey, value: bool)
      modifies this`privacy, this`stored
      ensures privacy == SetPrivacy(old(privacy), key, value)
      ensures stored == Some(Snapshot())
    {
      privacy := SetPrivacy(privacy, key, value);
      SaveSettings();
    }

    /** Writes a whole record into the fields. */
    method Assign(s: UserSettings)
      modifies this`currentTheme, this`fontSize, this`canvasRefreshRate, this`language,
               this`notifications, this`performance, this`privacy
      ensures Snapshot() == s
    {
      currentTheme := s.theme;
      fontSize := s.fontSize;
      canvasRefreshRate := s.canvasRefreshRate;
      language := s.language;
      notifications := s.notifications;
      performance := s.performance;
      privacy := s.privacy;
    }

    /** `importSettings`: applies the import over the current settings and stores the result. */
    method ImportSettings(data: SettingsImport)
      modifies this
      ensures Snapshot() == Imported(old(Snapshot()), data)
      ensures stored == Some(Snapshot())
    {
      Assign(Imported(Snapshot(), data));
      SaveSettings();
    }

    /** `loadSettings`: when storage held readable settings, applies them as an
        import; otherwise nothing changes. */
    method LoadSettings(saved: Option<SettingsImport>)
      modifies this
      ensures saved.None? ==> Snapshot() == old(Snapshot()) && stored == old(stored)
      ensures saved.Some? ==> Snapshot() == Imported(old(Snapshot()), saved.value) && stored == Some(Snapshot())
    {
      if saved.Some? {
        Assign(Imported(Snapshot(), saved.value));
        SaveSettings();
      }
    }

    /** `resetToDefaults`: when confirmed, every field takes its default and the
        snapshot is stored; when declined, nothing changes. */
    method ResetToDefaults(confirmed: bool)
      modifies this
      ensures confirmed ==> Snapshot() == DefaultSettings() && stored == Some(DefaultSettings())
      ensures !confirmed ==> Snapshot() == old(Snapshot()) && stored == old(stored)
    {
      if confirmed {
        Assign(DefaultSettings());
        SaveSettings();
      }
    }

    /** The state part of `clearData`: when confirmed, storage is emptied and every
        field takes the same defaults as a reset; when declined, nothing changes. */
    method ClearData(confirmed: bool)
      modifies this
      ensures confirmed ==> Snapshot() == DefaultSettings() && stored == None
      ensures !confirmed ==> Snapshot() == old(Snapshot()) && stored == old(stored)
    {
      if confirmed {
        stored := None;
        Assign(DefaultSettings());
      }
    }
  }
}
