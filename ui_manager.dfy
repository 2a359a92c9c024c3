/**
 * The HUD: floor, health and ammo labels, the generator progress bar, the
 * global fade canvas, the tutorial text box and the pause panel.
 *
 * Each widget is an `Option`: `None` is a reference left unassigned in the
 * scene, and every setter leaves such a widget alone, as the source's null
 * checks do.
 */
module Hud {
  import opened Wrappers
  import opened Text

  /** Displayed health at or below this is drawn red. */
  const LOW_HEALTH: int := 30
  /** The fade canvas blocks clicks above this alpha. */
  const FADE_BLOCK_ALPHA: real := 0.1

  /** `UpdateFloor`'s text: basements as "B" and the depth, 0 as "Lobby", upper floors as the number and "F". */
  function FloorLabel(floor: int): (s: string)
    ensures |s| > 0 && (s[0] == 'B' <==> floor < 0)
  {
    if floor < 0 then "B" + NatToString(-floor)
    else if floor == 0 then "Lobby"
    else NatToString(floor) + "F"
  }

  /** Reads a floor label back. */
  function ParseFloorLabel(s: string): Option<int> {
    if s == "Lobby" then Some(0)
    else if |s| > 1 && s[0] == 'B' && AllDigits(s[1..]) && ParseDigits(s[1..]) > 0 then Some(0 - ParseDigits(s[1..]))
    else if |s| > 1 && s[|s| - 1] == 'F' && AllDigits(s[..|s| - 1]) && ParseDigits(s[..|s| - 1]) > 0 then
      Some(ParseDigits(s[..|s| - 1]) as int)
    else None
  }

  /** The floor label loses nothing: reading it back gives the floor. */
  lemma FloorLabelRoundTrip(floor: int)
    ensures ParseFloorLabel(FloorLabel(floor)) == Some(floor)
  {
    var s := FloorLabel(floor);
    if floor < 0 {
      assert s[1..] == NatToString(-floor);
      ParseNatToString(-floor);
      assert s != "Lobby";
    } else if floor > 0 {
      assert s[..|s| - 1] == NatToString(floor);
      ParseNatToString(floor);
      assert s != "Lobby" by { assert s[|s| - 1] == 'F'; }
      assert !(s[0] == 'B');
    }
  }

  /** Distinct floors get distinct labels. */
  lemma FloorLabelInjective(m: int, n: int)
    requires FloorLabel(m) == FloorLabel(n)
    ensures m == n
  {
    FloorLabelRoundTrip(m);
    FloorLabelRoundTrip(n);
  }

  /** The health text and its colour. */
  datatype HealthLabel = HealthLabel(text: string, red: bool)

  function DisplayedHealth(hp: int): (shown: nat)
    ensures shown >= hp && (shown == 0 || shown == hp)
  {
    if hp < 0 then 0 else hp
  }

  /** `UpdateHealth`: "HP " and the health clamped at zero, red at 30 or less. */
  function HealthDisplay(hp: int): HealthLabel {
    var shown := DisplayedHealth(hp);
    HealthLabel("HP " + NatToString(shown), shown <= LOW_HEALTH)
  }

  /** The label shows max(0, hp), and is red exactly when the raw health is 30 or less. */
  lemma HealthDisplayMeaning(hp: int)
    ensures var h := HealthDisplay(hp);
      |h.text| > 3 && h.text[..3] == "HP " && ParseInt(h.text[3..]) == Some(if hp < 0 then 0 else hp)
      && (h.red <==> hp <= LOW_HEALTH)
  {
    var h := HealthDisplay(hp);
    assert h.text[3..] == NatToString(DisplayedHealth(hp));
    IntRoundTrip(DisplayedHealth(hp));
  }

  /** `UpdateAmmo` (and the generator counter): "current / max". */
  function AmmoLabel(current: int, max: int): string {
    IntToString(current) + " / " + IntToString(max)
  }

  /** The ammo label determines both numbers. */
  lemma AmmoLabelInjective(c1: int, m1: int, c2: int, m2: int)
    requires AmmoLabel(c1, m1) == AmmoLabel(c2, m2)
    ensures c1 == c2 && m1 == m2
  {
    JoinedInjective(c1, m1, c2, m2, " / ");
  }

  /** The fade canvas's alpha and whether it blocks clicks. */
  datatype FadeCanvas = FadeCanvas(alpha: real, blocksRaycasts: bool)

  /**
   * The HUD's widgets: label texts, the progress bar's visibility and fill,
   * the fade canvas, the tutorial group and text, and the pause and settings
   * panels' active flags.
   */
  datatype HudState = HudState(
    floorText: Option<string>,
    healthText: Option<HealthLabel>,
    ammoText: Option<string>,
    progressBarVisible: Option<bool>,
    progressFill: Option<real>,
    fade: Option<FadeCanvas>,
    tutorialGroupActive: Option<bool>,
    tutorialText: Option<string>,
    pausePanelActive: Option<bool>,
    settingsPanelActive: Option<bool>)

  function UpdateFloor(h: HudState, floor: int): HudState {
    if h.floorText.None? then h else h.(floorText := Some(FloorLabel(floor)))
  }

  function UpdateHealth(h: HudState, hp: int): HudState {
    if h.healthText.None? then h else h.(healthText := Some(HealthDisplay(hp)))
  }

  function UpdateAmmo(h: HudState, current: int, max: int): HudState {
    if h.ammoText.None? then h else h.(ammoText := Some(AmmoLabel(current, max)))
  }

  /** `UpdateInteractionProgress`: the bar shows only strictly between empty and full; the fill is the ratio. */
  function UpdateInteractionProgress(h: HudState, ratio: real): (r: HudState)
    ensures r.progressBarVisible.Some? <==> h.progressBarVisible.Some?
    ensures r.progressBarVisible.Some? ==> (r.progressBarVisible.value <==> 0.0 < ratio < 1.0)
    ensures r.progressFill == if h.progressFill.Some? then Some(ratio) else None
    ensures r.(progressBarVisible := h.progressBarVisible, progressFill := h.progressFill) == h
  {
    h.(progressBarVisible := if h.progressBarVisible.Some? then Some(0.0 < ratio && ratio < 1.0) else None,
       progressFill := if h.progressFill.Some? then Some(ratio) else None)
  }

  /** `SetFadeAlpha`: set the alpha; the canvas blocks clicks iff the alpha is above 0.1. */
  function SetFadeAlpha(h: HudState, alpha: real): (r: HudState)
    ensures h.fade.None? ==> r == h
    ensures h.fade.Some? ==> r.fade.Some? && r.fade.value.alpha == alpha
    ensures r.fade.Some? ==> (r.fade.value.blocksRaycasts <==> r.fade.value.alpha > FADE_BLOCK_ALPHA)
  {
    if h.fade.None? then h else h.(fade := Some(FadeCanvas(alpha, alpha > FADE_BLOCK_ALPHA)))
  }

  /** `ShowTutorialText`: the group is active iff the message is non-empty; an empty message leaves the text alone. */
  function ShowTutorialText(h: HudState, message: string): (r: HudState)
    ensures r.tutorialGroupActive == if h.tutorialGroupActive.Some? then Some(|message| > 0) else None
    ensures r.tutorialText == if |message| > 0 && h.tutorialText.Some? then Some(message) else h.tutorialText
    ensures r.(tutorialGroupActive := h.tutorialGroupActive, tutorialText := h.tutorialText) == h
  {
    h.(tutorialGroupActive := if h.tutorialGroupActive.Some? then Some(|message| > 0) else None,
       tutorialText := if |message| > 0 && h.tutorialText.Some? then Some(message) else h.tutorialText)
  }

  function HideTutorialText(h: HudState): (r: HudState)
    ensures r.tutorialGroupActive == if h.tutorialGroupActive.Some? then Some(false) else None
    ensures r.(tutorialGroupActive := h.tutorialGroupActive) == h
  {
    if h.tutorialGroupActive.None? then h else h.(tutorialGroupActive := Some(false))
  }

  /** A wired health label reads back as the health clamped at zero, red iff it is 30 or less; nothing else changes. */
  lemma HealthReadsBack(h: HudState, hp: int)
    requires h.healthText.Some?
    ensures var r := UpdateHealth(h, hp);
      r.healthText.Some? && r.healthText.value.text[..3] == "HP "
      && ParseInt(r.healthText.value.text[3..]) == Some(if hp < 0 then 0 else hp)
      && (r.healthText.value.red <==> hp <= LOW_HEALTH)
      && r == h.(healthText := r.healthText)
  {
    HealthDisplayMeaning(hp);
  }

  /** `ShowPausePanel`: open or close the pause panel; closing it closes the settings panel too. */
  function ShowPausePanel(h: HudState, isOpen: bool): HudState {
    if h.pausePanelActive.None? then h
    else h.(pausePanelActive := Some(isOpen),
            settingsPanelActive := if !isOpen && h.settingsPanelActive.Some? then Some(false) else h.settingsPanelActive)
  }

  /** Closing the pause panel leaves no settings panel open; opening it leaves the settings panel as it was. */
  lemma PauseCloseClosesSettings(h: HudState, isOpen: bool)
    requires h.pausePanelActive.Some?
    ensures var r := ShowPausePanel(h, isOpen);
      r.pausePanelActive == Some(isOpen)
      && (!isOpen ==> r.settingsPanelActive != Some(true))
      && (isOpen ==> r.settingsPanelActive == h.settingsPanelActive)
  {
  }

  /** An empty message hides the tutorial box without erasing the previous text; a later message shows again. */
  lemma EmptyMessageHidesButKeepsText(h: HudState, message: string)
    requires h.tutorialGroupActive.Some? && h.tutorialText.Some? && |message| > 0
    ensures var hidden := ShowTutorialText(h, "");
      hidden.tutorialGroupActive == Some(false) && hidden.tutorialText == h.tutorialText
      && ShowTutorialText(hidden, message).tutorialGroupActive == Some(true)
      && ShowTutorialText(hidden, message).tutorialText == Some(message)
  {
  }

  /** The labels of a wired HUD read back as the values last passed in. */
  lemma LabelsReadBack(h: HudState, floor: int, current: int, max: int)
    requires h.floorText.Some? && h.ammoText.Some?
    ensures ParseFloorLabel(UpdateAmmo(UpdateFloor(h, floor), current, max).floorText.value) == Some(floor)
    ensures forall c, m :: UpdateAmmo(UpdateFloor(h, floor), current, max).ammoText.value == AmmoLabel(c, m) ==>
      c == current && m == max
  {
    FloorLabelRoundTrip(floor);
    forall c, m | AmmoLabel(current, max) == AmmoLabel(c, m)
      ensures c == current && m == max
    {
      AmmoLabelInjective(current, max, c, m);
    }
  }
}

/** The `UIManager` MonoBehaviour. */
module HudComponent {
  import opened Wrappers
  import opened Hud

  class UIManager {
    var floorText: Option<string>
    var healthText: Option<HealthLabel>
    var ammoText: Option<string>
    var progressBarVisible: Option<bool>
    var progressFill: Option<real>
    var fade: Option<FadeCanvas>
    var tutorialGroupActive: Option<bool>
    var tutorialText: Option<string>
    var pausePanelActive: Option<bool>
    var settingsPanelActive: Option<bool>

    function Snapshot(): HudState
      reads this
    {
      HudState(floorText, healthText, ammoText, progressBarVisible, progressFill, fade,
               tutorialGroupActive, tutorialText, pausePanelActive, settingsPanelActive)
    }

    /** The widgets as wired in the scene. */
    constructor (wired: HudState)
      ensures Snapshot() == wired
    {
      floorText := wired.floorText;
      healthText := wired.healthText;
      ammoText := wired.ammoText;
      progressBarVisible := wired.progressBarVisible;
      progressFill := wired.progressFill;
      fade := wired.fade;
      tutorialGroupActive := wired.tutorialGroupActive;
      tutorialText := wired.tutorialText;
      pausePanelActive := wired.pausePanelActive;
      settingsPanelActive := wired.settingsPanelActive;
    }

    method UpdateFloor(floor: int)
      modifies this
      ensures Snapshot() == Hud.UpdateFloor(old(Snapshot()), floor)
    {
      if floorText.None? {
        return;
      }
      floorText := Some(FloorLabel(floor));
    }

    method UpdateHealth(hp: int)
      modifies this
      ensures Snapshot() == Hud.UpdateHealth(old(Snapshot()), hp)
    {
      if healthText.None? {
        return;
      }
      var shown := if hp < 0 then 0 else hp;
      healthText := Some(HealthLabel("HP " + Text.NatToString(shown), shown <= LOW_HEALTH));
    }

    method UpdateAmmo(current: int, max: int)
      modifies this
      ensures Snapshot() == Hud.UpdateAmmo(old(Snapshot()), current, max)
    {
      if ammoText.Some? {
        ammoText := Some(AmmoLabel(current, max));
      }
    }

    method UpdateInteractionProgress(ratio: real)
      modifies this
      ensures Snapshot() == Hud.UpdateInteractionProgress(old(Snapshot()), ratio)
    {
      var shouldShow := ratio > 0.0 && ratio < 1.0;
      if progressBarVisible.Some? {
        progressBarVisible := Some(shouldShow);
      }
      if progressFill.Some? {
        progressFill := Some(ratio);
      }
    }

    method SetFadeAlpha(alpha: real)
      modifies this
      ensures Snapshot() == Hud.SetFadeAlpha(old(Snapshot()), alpha)
    {
      if fade.Some? {
        fade := Some(FadeCanvas(alpha, alpha > FADE_BLOCK_ALPHA));
      }
    }

    method ShowTutorialText(message: string)
      modifies this
      ensures Snapshot() == Hud.ShowTutorialText(old(Snapshot()), message)
    {
      var shouldShow := |message| > 0;
      if tutorialGroupActive.Some? {
        tutorialGroupActive := Some(shouldShow);
      }
      if shouldShow && tutorialText.Some? {
        tutorialText := Some(message);
      }
    }

    method HideTutorialText()
      modifies this
      ensures Snapshot() == Hud.HideTutorialText(old(Snapshot()))
    {
      if tutorialGroupActive.Some? {
        tutorialGroupActive := Some(false);
      }
    }

    method ShowPausePanel(isOpen: bool)
      modifies this
      ensures Snapshot() == Hud.ShowPausePanel(old(Snapshot()), isOpen)
    {
      if pausePanelActive.Some? {
        pausePanelActive := Some(isOpen);
        if !isOpen && settingsPanelActive.Some? {
          settingsPanelActive := Some(false);
        }
      }
    }
  }
}
