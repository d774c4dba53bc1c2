/**
 * The browser-side alert system (static/js/alert-system.js): a fixed table of
 * three alert levels with their drowsiness thresholds and sounds, a classifier
 * from a drowsiness percentage to a level or none, and an edge-triggered state
 * machine that redraws the on-screen indicator and restarts a level's sound
 * only when the classification changes.
 *
 * `Handle` is the pure specification of one `handleAlert` call over the whole
 * observable state; the class `AlertSystem` performs it in place and is proved
 * against it; `Polls` runs it over a sequence of status polls.
 */
module Alerts {
  import opened Wrappers
  import opened Text

  /** The keys of the `alertLevels` table. `null` is `None` of `Option<Level>`. */
  datatype Level = Low | Medium | High

  /** The key as JavaScript spells it (the string `handleAlert` returns). */
  function Name(l: Level): (r: string)
    ensures |r| >= 3 && forall i :: 0 <= i < |r| ==> 'A' <= r[i] <= 'Z'
  {
    match l
    case Low => "LOW"
    case Medium => "MEDIUM"
    case High => "HIGH"
  }

  /** The `threshold` column of `alertLevels`: 30, then 20 more per step of severity. */
  function Threshold(l: Level): (r: int)
    ensures r == 10 + 20 * Rank(Some(l))
  {
    match l
    case Low => 30
    case Medium => 50
    case High => 70
  }

  /** The `sound` column of `alertLevels`. */
  function SoundFile(l: Level): string
  {
    match l
    case Low => "/static/sounds/alert1.mp3"
    case Medium => "/static/sounds/alert2.mp3"
    case High => "/static/sounds/alert3.mp3"
  }

  /** Severity order: no alert below LOW below MEDIUM below HIGH. */
  function Rank(o: Option<Level>): nat
  {
    match o
    case None => 0
    case Some(Low) => 1
    case Some(Medium) => 2
    case Some(High) => 3
  }

  /** Each level's sound is the file numbered by its severity, so the three levels have three different sounds. */
  lemma SoundFileNumbered(l: Level, m: Level)
    ensures SoundFile(l) == "/static/sounds/alert" + NatToString(Rank(Some(l))) + ".mp3"
    ensures l != m ==> SoundFile(l) != SoundFile(m)
  {
    assert SoundFile(l)[20] != SoundFile(m)[20] || l == m;
  }

  /** `getAlertLevel`: the highest level whose threshold the percentage reaches. */
  function GetAlertLevel(drowsiness: int): (r: Option<Level>)
    ensures r == Some(High) <==> drowsiness >= 70
    ensures r == Some(Medium) <==> 50 <= drowsiness < 70
    ensures r == Some(Low) <==> 30 <= drowsiness < 50
    ensures r == None <==> drowsiness < 30
  {
    if drowsiness >= Threshold(High) then Some(High)
    else if drowsiness >= Threshold(Medium) then Some(Medium)
    else if drowsiness >= Threshold(Low) then Some(Low)
    else None
  }

  /** A higher percentage never gives a lower level. */
  lemma GetAlertLevelMonotone(d1: int, d2: int)
    requires d1 <= d2
    ensures Rank(GetAlertLevel(d1)) <= Rank(GetAlertLevel(d2))
  {
  }

  /** A percentage on a level's threshold is classified as that level. */
  lemma GetAlertLevelAtThreshold(l: Level)
    ensures GetAlertLevel(Threshold(l)) == Some(l)
  {
  }

  // ---------------------------------------------------------------- indicator

  /** The `#alertIndicator` element: its `className` and `innerHTML`. */
  datatype Indicator = Indicator(className: string, innerHTML: string)

  const IndicatorBase := "alert-indicator"

  /** The icon in front of a shown indicator's text. */
  const AlertIcon := "<i class=\"mdi mdi-alert\"></i> "

  /** What stands between the level's name and the percentage. */
  const AlertSeparator := " Alert \U{2014} "

  /** The text of a shown indicator. */
  function IndicatorText(l: Level, drowsiness: int): string
  {
    AlertIcon + Name(l) + AlertSeparator + IntToString(drowsiness) + "%"
  }

  /** What `_updateIndicator` writes into the element. */
  function RenderIndicator(level: Option<Level>, drowsiness: int): (r: Indicator)
    ensures |IndicatorBase| <= |r.className| && r.className[..|IndicatorBase|] == IndicatorBase
    ensures level.None? <==> r.innerHTML == ""
    ensures level.Some? ==> r.innerHTML[|r.innerHTML| - 1] == '%'
  {
    match level
    case Some(l) => Indicator(IndicatorBase + " show " + Lower(Name(l)), IndicatorText(l, drowsiness))
    case None => Indicator(IndicatorBase, "")
  }

  /**
   * A shown indicator's text is the alert icon, the level's name, the
   * separator, the percentage in decimal and a percent sign, in that order.
   */
  lemma RenderIndicatorText(l: Level, drowsiness: int)
    ensures var h, i, n := RenderIndicator(Some(l), drowsiness).innerHTML, |AlertIcon|, |Name(l)|;
      && |h| == i + n + |AlertSeparator| + |IntToString(drowsiness)| + 1
      && h[..i] == AlertIcon && h[i..i + n] == Name(l)
      && h[i + n..i + n + |AlertSeparator|] == AlertSeparator
      && h[i + n + |AlertSeparator|..|h| - 1] == IntToString(drowsiness)
  {
    SliceParts(AlertIcon, Name(l), AlertSeparator, IntToString(drowsiness), "%");
  }

  /** The class `_updateIndicator` derives from a level: its name lower-cased. */
  lemma LevelClass(l: Level)
    ensures Lower(Name(l)) == match l case Low => "low" case Medium => "medium" case High => "high"
  {
    var n := Name(l);
    var r := Lower(n);
    match l
    case Low =>
      assert r[0] == 'l' && r[1] == 'o' && r[2] == 'w';
    case Medium =>
      assert r[0] == 'm' && r[1] == 'e' && r[2] == 'd' && r[3] == 'i' && r[4] == 'u' && r[5] == 'm';
    case High =>
      assert r[0] == 'h' && r[1] == 'i' && r[2] == 'g' && r[3] == 'h';
  }

  /**
   * The indicator is shown exactly when there is a level; with no level both
   * the extra classes and the content are cleared.
   */
  lemma RenderIndicatorShows(level: Option<Level>, drowsiness: int)
    ensures level.Some? <==> RenderIndicator(level, drowsiness).className != IndicatorBase
    ensures level.Some? <==> RenderIndicator(level, drowsiness).innerHTML != ""
    ensures level.None? ==> RenderIndicator(level, drowsiness) == Indicator(IndicatorBase, "")
  {
    if level.Some? {
      var r := RenderIndicator(level, drowsiness);
      assert |r.className| > |IndicatorBase|;
      assert r.innerHTML[0] == '<';
    }
  }

  /**
   * The digits a shown indicator prints before its percent sign read back as
   * the drowsiness percentage it was given.
   */
  lemma RenderIndicatorPercent(l: Level, drowsiness: nat)
    ensures var h, k := RenderIndicator(Some(l), drowsiness).innerHTML, |AlertIcon| + |Name(l)| + |AlertSeparator|;
      k < |h| && IsDigits(h[k..|h| - 1]) && ParseDigits(h[k..|h| - 1]) == drowsiness
  {
    RenderIndicatorText(l, drowsiness);
    ParseNatToString(drowsiness);
  }

  /** A shown indicator carries the level's lower-cased name as its extra class. */
  lemma RenderIndicatorClass(l: Level, drowsiness: int)
    ensures RenderIndicator(Some(l), drowsiness).className ==
      IndicatorBase + " show " + match l case Low => "low" case Medium => "medium" case High => "high"
  {
    LevelClass(l);
  }

  // ---------------------------------------------------------------- sounds

  /** The state of one preloaded `Audio` element: source, `currentTime`, playing or paused. */
  datatype Clip = Clip(src: string, position: nat, playing: bool)

  /** `pause()`, `currentTime = 0`, `play()`. */
  function Restart(c: Clip): Clip
  {
    c.(position := 0, playing := true)
  }

  /** The clips preloaded for `levels`, one `new Audio(sound)` each, later entries winning. */
  function Preloaded(levels: seq<Level>): map<Level, Clip>
    decreases |levels|
  {
    if levels == [] then map[]
    else
      var l := levels[|levels| - 1];
      Preloaded(levels[..|levels| - 1])[l := Clip(SoundFile(l), 0, false)]
  }

  /** What `initializeSounds` preloads: the three entries of `alertLevels`, in order. */
  function InitialSounds(): map<Level, Clip>
  {
    Preloaded([Low, Medium, High])
  }

  ghost predicate HasAllSounds(sounds: map<Level, Clip>)
  {
    Low in sounds && Medium in sounds && High in sounds
  }

  /** Every level gets its own table sound, rewound and paused. */
  lemma InitialSoundsComplete()
    ensures HasAllSounds(InitialSounds())
    ensures forall l :: l in InitialSounds() ==> InitialSounds()[l] == Clip(SoundFile(l), 0, false)
  {
    var ls := [Low, Medium, High];
    assert ls[..2] == [Low, Medium];
    assert [Low, Medium][..1] == [Low];
    assert [Low][..0] == [];
    var c := (l: Level) => Clip(SoundFile(l), 0, false);
    assert Preloaded([Low]) == map[Low := c(Low)];
    assert Preloaded([Low, Medium]) == map[Low := c(Low), Medium := c(Medium)];
    assert InitialSounds() == map[Low := c(Low), Medium := c(Medium), High := c(High)];
  }

  // ---------------------------------------------------------------- the state machine

  /** Everything `handleAlert` reads or writes. */
  datatype AlertState = AlertState(currentLevel: Option<Level>, indicator: Option<Indicator>, sounds: map<Level, Clip>)

  /** One call's effect: the new state, whether the indicator was redrawn, which sound was restarted. */
  datatype Outcome = Outcome(state: AlertState, rendered: bool, sound: Option<Level>)

  /** One `handleAlert(drowsiness, _)` call. */
  function Handle(s: AlertState, soundEnabled: bool, drowsiness: int): (r: Outcome)
    requires HasAllSounds(s.sounds)
    ensures r.state.currentLevel == GetAlertLevel(drowsiness)
    ensures r.rendered <==> GetAlertLevel(drowsiness) != s.currentLevel
    ensures r.rendered ==> r.state.indicator == Some(RenderIndicator(GetAlertLevel(drowsiness), drowsiness))
    ensures !r.rendered ==> r.state == s && r.sound == None
    ensures r.sound.Some? <==> r.rendered && GetAlertLevel(drowsiness).Some? && soundEnabled
    ensures r.sound.Some? ==> r.sound == GetAlertLevel(drowsiness)
    ensures r.state.sounds.Keys == s.sounds.Keys
    ensures forall l :: l in s.sounds ==>
      r.state.sounds[l] == if r.sound == Some(l) then Restart(s.sounds[l]) else s.sounds[l]
  {
    var level := GetAlertLevel(drowsiness);
    if level == s.currentLevel then
      Outcome(s, false, None)
    else
      var play := level.Some? && soundEnabled;
      var sounds := if play then s.sounds[level.value := Restart(s.sounds[level.value])] else s.sounds;
      Outcome(AlertState(level, Some(RenderIndicator(level, drowsiness)), sounds), true, if play then level else None)
  }

  /** Two calls in the same bucket: the second one changes nothing and plays nothing. */
  lemma HandleSameBucket(s: AlertState, soundEnabled: bool, d1: int, d2: int)
    requires HasAllSounds(s.sounds)
    requires GetAlertLevel(d1) == GetAlertLevel(d2)
    ensures HasAllSounds(Handle(s, soundEnabled, d1).state.sounds)
    ensures Handle(Handle(s, soundEnabled, d1).state, soundEnabled, d2) == Outcome(Handle(s, soundEnabled, d1).state, false, None)
  {
  }

  /** The effects of successive polls, each starting where the previous one left off. */
  function Polls(s: AlertState, soundEnabled: bool, ds: seq<int>): (r: seq<Outcome>)
    requires HasAllSounds(s.sounds)
    ensures |r| == |ds|
    decreases |ds|
  {
    if ds == [] then []
    else
      var o := Handle(s, soundEnabled, ds[0]);
      [o] + Polls(o.state, soundEnabled, ds[1..])
  }

  /** The level in force before poll `i`: the initial one, then the previous poll's. */
  function LevelBefore(initial: Option<Level>, ds: seq<int>, i: nat): Option<Level>
    requires i <= |ds|
  {
    if i == 0 then initial else GetAlertLevel(ds[i - 1])
  }

  /**
   * Poll `i` redraws the indicator exactly when its bucket differs from the one
   * before it, and restarts a sound exactly when, in addition, it is a level
   * and sound is on; the level after poll `i` is the classification of poll `i`.
   */
  lemma {:induction false} PollsAt(s: AlertState, soundEnabled: bool, ds: seq<int>, i: nat)
    requires HasAllSounds(s.sounds)
    requires i < |ds|
    ensures Polls(s, soundEnabled, ds)[i].state.currentLevel == GetAlertLevel(ds[i])
    ensures Polls(s, soundEnabled, ds)[i].rendered <==> GetAlertLevel(ds[i]) != LevelBefore(s.currentLevel, ds, i)
    ensures Polls(s, soundEnabled, ds)[i].sound ==
      if GetAlertLevel(ds[i]) != LevelBefore(s.currentLevel, ds, i) && soundEnabled then GetAlertLevel(ds[i]) else None
    decreases i
  {
    var o := Handle(s, soundEnabled, ds[0]);
    if i > 0 {
      PollsAt(o.state, soundEnabled, ds[1..], i - 1);
      assert Polls(s, soundEnabled, ds)[i] == Polls(o.state, soundEnabled, ds[1..])[i - 1];
      assert LevelBefore(o.state.currentLevel, ds[1..], i - 1) == LevelBefore(s.currentLevel, ds, i);
      assert ds[1..][i - 1] == ds[i];
    }
  }

  /**
   * A classification sustained over polls 1..n-1 fires nothing after the
   * first poll: at most one redraw and at most one sound for the whole run.
   */
  lemma SustainedIsSilent(s: AlertState, soundEnabled: bool, ds: seq<int>, i: nat)
    requires HasAllSounds(s.sounds)
    requires 0 < i < |ds|
    requires forall j :: 0 <= j < |ds| ==> GetAlertLevel(ds[j]) == GetAlertLevel(ds[0])
    ensures !Polls(s, soundEnabled, ds)[i].rendered && Polls(s, soundEnabled, ds)[i].sound == None
  {
    PollsAt(s, soundEnabled, ds, i);
  }

  /** The state of a freshly constructed `AlertSystem`. */
  function Initial(existing: Option<Indicator>): (s: AlertState)
    ensures HasAllSounds(s.sounds)
    ensures forall l :: l in s.sounds ==> s.sounds[l] == Clip(SoundFile(l), 0, false)
  {
    InitialSoundsComplete();
    AlertState(None, existing, InitialSounds())
  }

  /**
   * Scores 10, 35, 35, 65, 20 are classified none, LOW, LOW, MEDIUM, none;
   * sounds start at the second poll (LOW) and the fourth (MEDIUM) only, and the
   * fifth redraws the indicator (cleared) without a sound.
   */
  lemma ExampleRun()
    ensures var r := Polls(Initial(None), true, [10, 35, 35, 65, 20]);
      && [r[0].sound, r[1].sound, r[2].sound, r[3].sound, r[4].sound] == [None, Some(Low), None, Some(Medium), None]
      && [r[0].rendered, r[1].rendered, r[2].rendered, r[3].rendered, r[4].rendered] == [false, true, false, true, true]
  {
    var ds := [10, 35, 35, 65, 20];
    var s := Initial(None);
    assert GetAlertLevel(ds[0]) == None && GetAlertLevel(ds[1]) == Some(Low) && GetAlertLevel(ds[2]) == Some(Low);
    assert GetAlertLevel(ds[3]) == Some(Medium) && GetAlertLevel(ds[4]) == None;
    PollsAt(s, true, ds, 0);
    PollsAt(s, true, ds, 1);
    PollsAt(s, true, ds, 2);
    PollsAt(s, true, ds, 3);
    PollsAt(s, true, ds, 4);
  }

  /** The alert system object of alert-system.js. */
  class AlertSystem {
    var soundEnabled: bool
    var alertSounds: map<Level, Clip>
    var currentLevel: Option<Level>
    /** The `#alertIndicator` element, `None` while the page has none. */
    var indicator: Option<Indicator>
    /** The levels whose clip `play()` was called on, oldest first. */
    var played: seq<Level>
    /** How many times `_updateIndicator` has written the element. */
    var redraws: nat

    function State(): AlertState
      reads this
    {
      AlertState(currentLevel, indicator, alertSounds)
    }

    ghost predicate Valid()
      reads this
    {
      HasAllSounds(alertSounds)
    }

    /** `existing` is the indicator element the page already holds, if any. */
    constructor(existing: Option<Indicator>)
      ensures Valid()
      ensures State() == Initial(existing) && soundEnabled
      ensures played == [] && redraws == 0
    {
      played := [];
      redraws := 0;
      soundEnabled := true;
      alertSounds := map[];
      currentLevel := None;
      indicator := existing;
      new;
      InitializeSounds();
      InitialSoundsComplete();
    }

    /** Preload one clip per entry of `alertLevels`. */
    method InitializeSounds()
      modifies this`alertSounds
      ensures alertSounds == old(alertSounds) + InitialSounds()
    {
      var levels := [Low, Medium, High];
      for k := 0 to |levels|
        invariant alertSounds == old(alertSounds) + Preloaded(levels[..k])
      {
        assert levels[..k + 1][..k] == levels[..k];
        alertSounds := alertSounds[levels[k] := Clip(SoundFile(levels[k]), 0, false)];
      }
      assert levels[..3] == levels;
    }

    /** `_updateIndicator`: create the element if missing, then write it. */
    method UpdateIndicator(level: Option<Level>, drowsiness: int)
      modifies this`indicator, this`redraws
      ensures indicator == Some(RenderIndicator(level, drowsiness))
      ensures redraws == old(redraws) + 1
    {
      redraws := redraws + 1;
      if indicator.None? {
        indicator := Some(Indicator(IndicatorBase, ""));
      }
      indicator := Some(RenderIndicator(level, drowsiness));
    }

    /**
     * `handleAlert`: the returned level never depends on `eyesClosed` or on
     * the prior state; the indicator is written and a sound played exactly
     * when `Handle` says so, so a level held over several polls plays once.
     */
    method HandleAlert(drowsiness: int, eyesClosed: int) returns (newLevel: Option<Level>)
      requires Valid()
      modifies this
      ensures Valid()
      ensures newLevel == GetAlertLevel(drowsiness)
      ensures soundEnabled == old(soundEnabled)
      ensures var o := Handle(old(State()), old(soundEnabled), drowsiness);
        && State() == o.state
        && played == old(played) + (if o.sound.Some? then [o.sound.value] else [])
        && redraws == old(redraws) + (if o.rendered then 1 else 0)
    {
      ghost var o := Handle(State(), soundEnabled, drowsiness);
      newLevel := GetAlertLevel(drowsiness);
      if newLevel != currentLevel {
        assert o.rendered;
        UpdateIndicator(newLevel, drowsiness);
        if newLevel.Some? && soundEnabled {
          var sound := alertSounds[newLevel.value];
          assert o.sound == Some(newLevel.value) && o.state.sounds == alertSounds[newLevel.value := Restart(sound)];
          sound := sound.(playing := false);
          sound := sound.(position := 0);
          sound := sound.(playing := true);
          alertSounds := alertSounds[newLevel.value := sound];
          played := played + [newLevel.value];
        } else {
          assert o.sound == None;
        }
        currentLevel := newLevel;
        assert State() == o.state;
      } else {
        assert !o.rendered && o.sound == None && o.state == State();
      }
    }
  }

  /** Two polls in the same band call `play()` at most once between them, and redraw at most once. */
  method SameBandPlaysOnce(a: AlertSystem, first: int, second: int, eyesClosed: int)
    requires a.Valid() && GetAlertLevel(first) == GetAlertLevel(second)
    modifies a
    ensures |a.played| <= |old(a.played)| + 1 && a.redraws <= old(a.redraws) + 1
  {
    var _ := a.HandleAlert(first, eyesClosed);
    var n, k := |a.played|, a.redraws;
    var _ := a.HandleAlert(second, eyesClosed);
    assert |a.played| == n && a.redraws == k;
  }
}
