/**
 * The profile settings store (static/js/user-settings.js): the default
 * settings object, per-user profiles kept in a `Map`, the rule that picks the
 * current profile on load, and `updateSetting`, which writes one nested field
 * of the current profile's settings and stamps `lastModified`.
 *
 * Settings objects are classes because the script shares them: a new profile
 * is a shallow copy of the defaults, so its `thresholds` object IS the
 * defaults' `thresholds` object, and editing a threshold on such a profile
 * edits the defaults too. The dotted string paths the listeners pass become
 * the typed `Setting` updates; `ParsePath` maps each string to its key.
 */
module Settings {
  import opened Wrappers

  /** The nested `thresholds` object. */
  class Thresholds {
    var drowsiness: int
    var lowAlert: int
    var mediumAlert: int
    var highAlert: int

    constructor(drowsiness: int, lowAlert: int, mediumAlert: int, highAlert: int)
      ensures this.drowsiness == drowsiness && this.lowAlert == lowAlert
      ensures this.mediumAlert == mediumAlert && this.highAlert == highAlert
    {
      this.drowsiness := drowsiness;
      this.lowAlert := lowAlert;
      this.mediumAlert := mediumAlert;
      this.highAlert := highAlert;
    }
  }

  /** The values of a `thresholds` object at one moment. */
  datatype ThresholdValues = ThresholdValues(drowsiness: int, lowAlert: int, mediumAlert: int, highAlert: int)

  /** The values of a settings object at one moment, its thresholds included. */
  datatype SettingsValue = SettingsValue(
    alertVolume: int,
    soundEnabled: bool,
    notificationsEnabled: bool,
    thresholds: ThresholdValues,
    theme: string,
    timezone: string)

  /** A settings object: scalar fields of its own and a reference to a thresholds object. */
  class SettingsObject {
    var alertVolume: int
    var soundEnabled: bool
    var notificationsEnabled: bool
    const thresholds: Thresholds
    var theme: string
    var timezone: string

    /** `{ ...source }`: the scalar fields copied, the thresholds reference shared. */
    constructor Copy(source: SettingsObject)
      ensures thresholds == source.thresholds
      ensures Snapshot() == source.Snapshot()
    {
      alertVolume := source.alertVolume;
      soundEnabled := source.soundEnabled;
      notificationsEnabled := source.notificationsEnabled;
      thresholds := source.thresholds;
      theme := source.theme;
      timezone := source.timezone;
    }

    /** The object literal of the `UserSettings` constructor. */
    constructor Defaults(timezone: string)
      ensures fresh(thresholds)
      ensures Snapshot() == DefaultSettings(timezone)
    {
      alertVolume := 70;
      soundEnabled := true;
      notificationsEnabled := false;
      thresholds := new Thresholds(20, 30, 50, 70);
      theme := "light";
      this.timezone := timezone;
    }

    function Snapshot(): SettingsValue
      reads this, thresholds
    {
      SettingsValue(
        alertVolume, soundEnabled, notificationsEnabled,
        ThresholdValues(thresholds.drowsiness, thresholds.lowAlert, thresholds.mediumAlert, thresholds.highAlert),
        theme, timezone)
    }
  }

  /** The defaults, with the browser's resolved time zone as a parameter. */
  function DefaultSettings(timezone: string): (r: SettingsValue)
    ensures r.alertVolume == 70 && r.soundEnabled && !r.notificationsEnabled
    ensures r.thresholds == ThresholdValues(20, 30, 50, 70)
    ensures r.theme == "light" && r.timezone == timezone
  {
    SettingsValue(70, true, false, ThresholdValues(20, 30, 50, 70), "light", timezone)
  }

  /** A stored profile. */
  class Profile {
    const username: string
    const settings: SettingsObject
    var createdAt: string
    var lastModified: string

    constructor(username: string, settings: SettingsObject, createdAt: string, lastModified: string)
      ensures this.username == username && this.settings == settings
      ensures this.createdAt == createdAt && this.lastModified == lastModified
    {
      this.username := username;
      this.settings := settings;
      this.createdAt := createdAt;
      this.lastModified := lastModified;
    }
  }

  /** The settings paths the page's listeners write. */
  datatype Key =
    | Drowsiness | LowAlert | MediumAlert | HighAlert
    | AlertVolume | SoundEnabled | NotificationsEnabled | Theme

  /** A value the listeners pass: `parseInt` of a slider, a checkbox state, a theme name. */
  datatype Value = Num(n: int) | Flag(b: bool) | Text(s: string)

  /** One typed `updateSetting(path, value)` call. */
  datatype Setting =
    | SetDrowsiness(n: int) | SetLowAlert(n: int) | SetMediumAlert(n: int) | SetHighAlert(n: int)
    | SetAlertVolume(n: int) | SetSoundEnabled(b: bool) | SetNotificationsEnabled(b: bool)
    | SetTheme(s: string)

  /** The dotted path string the source passes for each key. */
  function PathString(k: Key): string
  {
    match k
    case Drowsiness => "thresholds.drowsiness"
    case LowAlert => "thresholds.lowAlert"
    case MediumAlert => "thresholds.mediumAlert"
    case HighAlert => "thresholds.highAlert"
    case AlertVolume => "alertVolume"
    case SoundEnabled => "soundEnabled"
    case NotificationsEnabled => "notificationsEnabled"
    case Theme => "theme"
  }

  /** The key a path string addresses, if it is one the page writes. */
  function ParsePath(path: string): (r: Option<Key>)
    ensures r.Some? ==> PathString(r.value) == path
  {
    if path == "thresholds.drowsiness" then Some(Drowsiness)
    else if path == "thresholds.lowAlert" then Some(LowAlert)
    else if path == "thresholds.mediumAlert" then Some(MediumAlert)
    else if path == "thresholds.highAlert" then Some(HighAlert)
    else if path == "alertVolume" then Some(AlertVolume)
    else if path == "soundEnabled" then Some(SoundEnabled)
    else if path == "notificationsEnabled" then Some(NotificationsEnabled)
    else if path == "theme" then Some(Theme)
    else None
  }

  /** Every key's path string reads back as that key, so distinct keys have distinct paths. */
  lemma ParsePathString(k: Key)
    ensures ParsePath(PathString(k)) == Some(k)
  {
    match k
    case Drowsiness =>
    case LowAlert =>
      assert PathString(k) != "thresholds.drowsiness" by {
        assert PathString(k)[11] != "thresholds.drowsiness"[11];
      }
    case MediumAlert =>
      assert PathString(k)[11] != "thresholds.drowsiness"[11];
      assert PathString(k)[11] != "thresholds.lowAlert"[11];
    case HighAlert =>
      assert PathString(k)[11] != "thresholds.drowsiness"[11];
      assert PathString(k)[11] != "thresholds.lowAlert"[11];
      assert PathString(k)[11] != "thresholds.mediumAlert"[11];
    case AlertVolume =>
    case SoundEnabled =>
    case NotificationsEnabled =>
    case Theme =>
  }

  /** The field a setting writes. */
  function KeyOf(u: Setting): Key
  {
    match u
    case SetDrowsiness(_) => Drowsiness
    case SetLowAlert(_) => LowAlert
    case SetMediumAlert(_) => MediumAlert
    case SetHighAlert(_) => HighAlert
    case SetAlertVolume(_) => AlertVolume
    case SetSoundEnabled(_) => SoundEnabled
    case SetNotificationsEnabled(_) => NotificationsEnabled
    case SetTheme(_) => Theme
  }

  /** The value a setting writes. */
  function ValueOf(u: Setting): Value
  {
    match u
    case SetDrowsiness(n) => Num(n)
    case SetLowAlert(n) => Num(n)
    case SetMediumAlert(n) => Num(n)
    case SetHighAlert(n) => Num(n)
    case SetAlertVolume(n) => Num(n)
    case SetSoundEnabled(b) => Flag(b)
    case SetNotificationsEnabled(b) => Flag(b)
    case SetTheme(s) => Text(s)
  }

  /** Reading the field a path addresses. */
  function Get(s: SettingsValue, k: Key): Value
  {
    match k
    case Drowsiness => Num(s.thresholds.drowsiness)
    case LowAlert => Num(s.thresholds.lowAlert)
    case MediumAlert => Num(s.thresholds.mediumAlert)
    case HighAlert => Num(s.thresholds.highAlert)
    case AlertVolume => Num(s.alertVolume)
    case SoundEnabled => Flag(s.soundEnabled)
    case NotificationsEnabled => Flag(s.notificationsEnabled)
    case Theme => Text(s.theme)
  }

  /** The settings after one update, as values. */
  function Apply(s: SettingsValue, u: Setting): (r: SettingsValue)
    ensures Get(r, KeyOf(u)) == ValueOf(u)
    ensures r.timezone == s.timezone
  {
    match u
    case SetDrowsiness(n) => s.(thresholds := s.thresholds.(drowsiness := n))
    case SetLowAlert(n) => s.(thresholds := s.thresholds.(lowAlert := n))
    case SetMediumAlert(n) => s.(thresholds := s.thresholds.(mediumAlert := n))
    case SetHighAlert(n) => s.(thresholds := s.thresholds.(highAlert := n))
    case SetAlertVolume(n) => s.(alertVolume := n)
    case SetSoundEnabled(b) => s.(soundEnabled := b)
    case SetNotificationsEnabled(b) => s.(notificationsEnabled := b)
    case SetTheme(t) => s.(theme := t)
  }

  /**
   * An update sets the addressed field to the given value and leaves every
   * other field, the time zone included, as it was.
   */
  lemma ApplyWritesOneField(s: SettingsValue, u: Setting, k: Key)
    ensures Get(Apply(s, u), k) == if k == KeyOf(u) then ValueOf(u) else Get(s, k)
    ensures Apply(s, u).timezone == s.timezone
  {
  }

  /** Two settings values that agree on every path and on the time zone are the same. */
  lemma SettingsExtensional(s: SettingsValue, t: SettingsValue)
    requires forall k: Key :: Get(s, k) == Get(t, k)
    requires s.timezone == t.timezone
    ensures s == t
  {
    assert Get(s, Drowsiness) == Get(t, Drowsiness);
    assert Get(s, LowAlert) == Get(t, LowAlert);
    assert Get(s, MediumAlert) == Get(t, MediumAlert);
    assert Get(s, HighAlert) == Get(t, HighAlert);
    assert Get(s, AlertVolume) == Get(t, AlertVolume);
    assert Get(s, SoundEnabled) == Get(t, SoundEnabled);
    assert Get(s, NotificationsEnabled) == Get(t, NotificationsEnabled);
    assert Get(s, Theme) == Get(t, Theme);
  }

  /** Writing a field twice keeps only the second write; writing the current value changes nothing. */
  lemma ApplyOverwrites(s: SettingsValue, u: Setting, v: Setting)
    requires KeyOf(u) == KeyOf(v)
    ensures Apply(Apply(s, u), v) == Apply(s, v)
    ensures ValueOf(u) == Get(s, KeyOf(u)) ==> Apply(s, u) == s
  {
  }

  /** The page controls whose `change` listeners call `updateSetting`. */
  datatype Control =
    | ThresholdSlider | LowAlertThreshold | MediumAlertThreshold | HighAlertThreshold
    | VolumeSlider | SoundToggle | NotificationToggle | ThemeToggle

  /**
   * The update a control's listener issues, given the `parseInt` of its value
   * and its `checked` state: sliders write the number, toggles the state, the
   * theme toggle "dark" when checked and "light" otherwise.
   */
  function OnChange(c: Control, value: int, checked: bool): (r: Setting)
    ensures c.ThresholdSlider? || c.LowAlertThreshold? || c.MediumAlertThreshold? || c.HighAlertThreshold? || c.VolumeSlider?
      ==> ValueOf(r) == Num(value)
    ensures c.SoundToggle? || c.NotificationToggle? ==> ValueOf(r) == Flag(checked)
    ensures c.ThemeToggle? ==> KeyOf(r) == Theme && ValueOf(r) == Text(if checked then "dark" else "light")
  {
    match c
    case ThresholdSlider => SetDrowsiness(value)
    case LowAlertThreshold => SetLowAlert(value)
    case MediumAlertThreshold => SetMediumAlert(value)
    case HighAlertThreshold => SetHighAlert(value)
    case VolumeSlider => SetAlertVolume(value)
    case SoundToggle => SetSoundEnabled(checked)
    case NotificationToggle => SetNotificationsEnabled(checked)
    case ThemeToggle => SetTheme(if checked then "dark" else "light")
  }

  /** Each listener writes the path the source names for it, so the eight controls address eight distinct fields. */
  lemma OnChangePaths(value: int, checked: bool)
    ensures PathString(KeyOf(OnChange(ThresholdSlider, value, checked))) == "thresholds.drowsiness"
    ensures PathString(KeyOf(OnChange(LowAlertThreshold, value, checked))) == "thresholds.lowAlert"
    ensures PathString(KeyOf(OnChange(MediumAlertThreshold, value, checked))) == "thresholds.mediumAlert"
    ensures PathString(KeyOf(OnChange(HighAlertThreshold, value, checked))) == "thresholds.highAlert"
    ensures PathString(KeyOf(OnChange(VolumeSlider, value, checked))) == "alertVolume"
    ensures PathString(KeyOf(OnChange(SoundToggle, value, checked))) == "soundEnabled"
    ensures PathString(KeyOf(OnChange(NotificationToggle, value, checked))) == "notificationsEnabled"
    ensures PathString(KeyOf(OnChange(ThemeToggle, value, checked))) == "theme"
  {
  }

  class UserSettings {
    var currentProfile: Profile?
    /** The `Map` of profiles; `null` stands for any falsy stored value. */
    var profiles: map<string, Profile?>
    const defaultSettings: SettingsObject

    /** `new UserSettings()`, before the asynchronous `loadProfiles` completes. */
    constructor(timezone: string)
      ensures currentProfile == null && profiles == map[]
      ensures fresh(defaultSettings) && fresh(defaultSettings.thresholds)
      ensures defaultSettings.Snapshot() == DefaultSettings(timezone)
    {
      currentProfile := null;
      profiles := map[];
      defaultSettings := new SettingsObject.Defaults(timezone);
    }

    /**
     * `createNewProfile`: a profile with a shallow copy of the defaults, stored
     * under its user name; `createdAt` and `lastModified` are two separate
     * clock readings.
     */
    method CreateNewProfile(username: string, createdAt: string, lastModified: string) returns (p: Profile)
      modifies this`profiles
      ensures fresh(p) && fresh(p.settings)
      ensures p.username == username && p.createdAt == createdAt && p.lastModified == lastModified
      ensures p.settings.Snapshot() == defaultSettings.Snapshot()
      ensures p.settings.thresholds == defaultSettings.thresholds
      ensures profiles == old(profiles)[username := p]
    {
      var copy := new SettingsObject.Copy(defaultSettings);
      p := new Profile(username, copy, createdAt, lastModified);
      profiles := profiles[username := p];
    }

    /**
     * `loadProfiles`, given the decoded `/api/profiles` answer (`None` when the
     * request or its decoding fails) and the text of `#userLogin` (`None` when
     * the page has no such element, so reading it throws after the profiles
     * were already replaced): the stored profile of that user if there is one,
     * else a new default one.
     */
    method LoadProfiles(loaded: Option<map<string, Profile?>>, user: Option<string>, createdAt: string, lastModified: string)
      modifies this`profiles, this`currentProfile
      ensures loaded.None? ==> profiles == old(profiles) && currentProfile == old(currentProfile)
      ensures loaded.Some? && user.None? ==> profiles == loaded.value && currentProfile == old(currentProfile)
      ensures loaded.Some? && user.Some? ==> user.value in profiles && currentProfile == profiles[user.value] && currentProfile != null
      ensures loaded.Some? && user.Some? && user.value in loaded.value && loaded.value[user.value] != null ==>
        profiles == loaded.value && currentProfile == loaded.value[user.value]
      ensures loaded.Some? && user.Some? && (user.value !in loaded.value || loaded.value[user.value] == null) ==>
        && fresh(currentProfile) && fresh(currentProfile.settings)
        && profiles == loaded.value[user.value := currentProfile]
        && currentProfile.username == user.value
        && currentProfile.createdAt == createdAt && currentProfile.lastModified == lastModified
        && currentProfile.settings.Snapshot() == defaultSettings.Snapshot()
        && currentProfile.settings.thresholds == defaultSettings.thresholds
    {
      if loaded.None? {
        return;
      }
      profiles := loaded.value;
      if user.None? {
        return;
      }
      var name := user.value;
      if name in profiles && profiles[name] != null {
        currentProfile := profiles[name];
      } else {
        currentProfile := CreateNewProfile(name, createdAt, lastModified);
      }
    }

    /**
     * `updateSetting`: nothing without a current profile; otherwise the
     * addressed field of its settings takes the value, every other field keeps
     * its value, and `lastModified` becomes `now`.
     */
    method UpdateSetting(u: Setting, now: string)
      modifies if currentProfile == null then {} else {currentProfile, currentProfile.settings, currentProfile.settings.thresholds}
      ensures currentProfile == old(currentProfile) && profiles == old(profiles)
      ensures currentProfile != null ==>
        && currentProfile.settings.Snapshot() == Apply(old(currentProfile.settings.Snapshot()), u)
        && currentProfile.lastModified == now && currentProfile.createdAt == old(currentProfile.createdAt)
    {
      var p := currentProfile;
      if p == null {
        return;
      }
      var s := p.settings;
      match u {
        case SetDrowsiness(n) => s.thresholds.drowsiness := n;
        case SetLowAlert(n) => s.thresholds.lowAlert := n;
        case SetMediumAlert(n) => s.thresholds.mediumAlert := n;
        case SetHighAlert(n) => s.thresholds.highAlert := n;
        case SetAlertVolume(n) => s.alertVolume := n;
        case SetSoundEnabled(b) => s.soundEnabled := b;
        case SetNotificationsEnabled(b) => s.notificationsEnabled := b;
        case SetTheme(t) => s.theme := t;
      }
      p.lastModified := now;
    }
  }

  /**
   * The shallow copy in practice: a first-time user's threshold edit shows up
   * in the defaults (and so in every profile created later), while a volume
   * edit stays with the profile.
   */
  method SharedThresholds(timezone: string, user: string, t0: string, t1: string, t2: string)
    returns (store: UserSettings)
    ensures store.currentProfile != null && store.currentProfile.username == user
    ensures store.currentProfile.settings.Snapshot().thresholds.drowsiness == 35
    ensures store.defaultSettings.Snapshot().thresholds.drowsiness == 35
    ensures store.currentProfile.settings.Snapshot().alertVolume == 10
    ensures store.defaultSettings.Snapshot().alertVolume == 70
  {
    store := new UserSettings(timezone);
    store.LoadProfiles(Some(map[]), Some(user), t0, t0);
    store.UpdateSetting(SetDrowsiness(35), t1);
    store.UpdateSetting(SetAlertVolume(10), t2);
  }
}
