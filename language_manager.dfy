/**
 * Localisation: a table from text keys to a Korean and an English string, a
 * lookup that falls back to the key itself, and the language switch that
 * persists the choice, rebuilds the language dropdown and asks the tutorial to
 * show its current message again.
 *
 * The language is an `int` because the source casts any integer to its
 * `Language` enum; a registered key looked up with a language outside
 * {Korean, English} indexes past the two strings and throws, modelled as
 * `Failure`.
 */
module Localization {
  import opened Wrappers
  import Tutorial

  const KOREAN: int := 0
  const ENGLISH: int := 1

  /** A dropdown's option texts and its selected index. */
  datatype Dropdown = Dropdown(options: seq<string>, value: int)

  /** One `localizedData.Add(key, texts)` call; `texts` is indexed by language. */
  datatype Registration = Registration(key: string, texts: seq<string>)

  /** The registrations of `InitLocalizationData`, in order. */
  const REGISTRATIONS: seq<Registration> := [
    Registration("Upgrade_Heal", ["체력 회복\n필요 샘플: {0}", "Heal \nCost: {0}"]),
    Registration("Upgrade_Damage", ["공격력 강화\n필요 샘플: {0}", "Damage\nCost: {0}"]),
    Registration("Upgrade_Ammo", ["탄약 확장\n필요 샘플: {0}", "Ammo \nCost: {0}"]),
    Registration("Upgrade_Speed", ["속도 증가\n필요 샘플: {0}", "Speed \nCost: {0}"]),
    Registration("Resume_Btn", ["계속 하기", "Resume"]),
    Registration("Option_Btn", ["설정", "Option"]),
    Registration("Exit_Btn", ["게임 종료", "Exit Game"]),
    Registration("Opt_BgmText", ["배경음악", "BGM"]),
    Registration("Opt_SFXText", ["효과음", "SFX"]),
    Registration("Opt_DisplayText", ["디스플레이", "Display"]),
    Registration("Opt_DisplayFull", ["전체화면", "FullScreen"]),
    Registration("Opt_DisplayWindow", ["창모드", "Windowed"]),
    Registration("Opt_Resolution", ["해상도", "Resolution"]),
    Registration("Opt_LanguageText", ["언어", "Language"]),
    Registration("Opt_LanguageKor", ["한국어", "Korean"]),
    Registration("Opt_LanguageEng", ["영어", "English"]),
    Registration("TUTORIAL_MOVE", ["WASD를 눌러 이동하세요.", "Press WASD to move."]),
    Registration("TUTORIAL_GunPickup", ["전방의 무기를 획득하세요.", "Acquire the weapon ahead."]),
    Registration("TUTORIAL_GunShoot", ["프로토타입 무기 가동.\n[L-Click]으로 타겟을 제거하세요.",
                                       "Prototype weapon activated.\nEliminate targets with [L-Click]."]),
    Registration("TUTORIAL_Sample", ["바이오 캡슐을 획득하세요.", "Collect Bio Capsules."]),
    Registration("TUTORIAL_Tap", ["[TAB] 키를 눌러 능력치를 강화하세요.", "Press [TAB] to upgrade your abilities."]),
    Registration("TUTORIAL_FinUpgrade", ["보안 프로토콜 해제.\n다음 구역으로 이동하십시오.",
                                         "Security protocol disabled.\nProceed to the next sector."]),
    Registration("TUTORIAL_Generator", ["발전기를 가동하여 엘리베이터 전력을 공급하세요.",
                                        "Activate the generator to power the elevator."]),
    Registration("TUTORIAL_Fin", ["목표 갱신: 최상층(지상)으로 탈출하십시오.", "Objective Updated: Escape to the surface."])
  ]

  predicate DistinctKeys(regs: seq<Registration>) {
    forall i, j :: 0 <= i < j < |regs| ==> regs[i].key != regs[j].key
  }

  /** The dictionary a run of `Add` calls builds when no key repeats. */
  function Build(regs: seq<Registration>): map<string, seq<string>>
    decreases |regs|
  {
    if |regs| == 0 then map[] else Build(regs[..|regs| - 1])[regs[|regs| - 1].key := regs[|regs| - 1].texts]
  }

  /** The filled `localizedData`. */
  function Table(): map<string, seq<string>> {
    Build(REGISTRATIONS)
  }

  /** `GetText`: the text at the language's index for a registered key, the key itself otherwise. */
  function GetText(data: map<string, seq<string>>, language: int, key: string): Result<string> {
    if key in data then
      if 0 <= language < |data[key]| then Success(data[key][language]) else Failure("IndexOutOfRangeException")
    else Success(key)
  }

  // ---------------------------------------------------------------------
  // The table
  // ---------------------------------------------------------------------

  lemma KeyDiffersFromLater(i: int)
    requires 0 <= i < |REGISTRATIONS|
    ensures forall j :: i < j < |REGISTRATIONS| ==> REGISTRATIONS[i].key != REGISTRATIONS[j].key
  {
  }

  /** No key is registered twice, so none of the `Add` calls throws. */
  lemma RegistrationKeysDistinct()
    ensures DistinctKeys(REGISTRATIONS)
  {
    forall i | 0 <= i < |REGISTRATIONS|
      ensures forall j :: i < j < |REGISTRATIONS| ==> REGISTRATIONS[i].key != REGISTRATIONS[j].key
    {
      KeyDiffersFromLater(i);
    }
  }

  /** With distinct keys, the key added at `i` is not yet in the dictionary the earlier registrations built. */
  lemma FreshAtEachAdd(regs: seq<Registration>, i: int)
    requires DistinctKeys(regs) && 0 <= i < |regs|
    ensures regs[i].key !in Build(regs[..i])
    ensures Build(regs[..i + 1]) == Build(regs[..i])[regs[i].key := regs[i].texts]
  {
    var init := regs[..i];
    assert DistinctKeys(init);
    BuildLookup(init);
    assert regs[..i + 1][..i] == init;
  }

  lemma UnionUpdate(m: map<string, seq<string>>, b: map<string, seq<string>>, k: string, v: seq<string>)
    ensures (m + b)[k := v] == m + b[k := v]
  {
  }

  /** With distinct keys, the built dictionary maps each key to its registered texts and holds nothing else. */
  lemma {:induction false} BuildLookup(regs: seq<Registration>)
    requires DistinctKeys(regs)
    ensures forall i :: 0 <= i < |regs| ==> regs[i].key in Build(regs) && Build(regs)[regs[i].key] == regs[i].texts
    ensures forall k :: k in Build(regs) ==> exists i :: 0 <= i < |regs| && regs[i].key == k
    decreases |regs|
  {
    if |regs| > 0 {
      var init := regs[..|regs| - 1];
      assert DistinctKeys(init);
      BuildLookup(init);
      forall k | k in Build(regs)
        ensures exists i :: 0 <= i < |regs| && regs[i].key == k
      {
        if k != regs[|regs| - 1].key {
          var i :| 0 <= i < |init| && init[i].key == k;
          assert regs[i].key == k;
        }
      }
    }
  }

  /** Every registration gives exactly two strings. */
  lemma TextsArePairs()
    ensures forall i :: 0 <= i < |REGISTRATIONS| ==> |REGISTRATIONS[i].texts| == 2
  {
  }

  /** A dictionary built from pairs holds only pairs. */
  lemma {:induction false} PairsBuild(regs: seq<Registration>)
    requires forall i :: 0 <= i < |regs| ==> |regs[i].texts| == 2
    ensures forall k :: k in Build(regs) ==> |Build(regs)[k]| == 2
    decreases |regs|
  {
    if |regs| > 0 {
      PairsBuild(regs[..|regs| - 1]);
    }
  }

  /** Every added key is in the built dictionary, whether or not keys repeat. */
  lemma {:induction false} BuildHasKey(regs: seq<Registration>, i: int)
    requires 0 <= i < |regs|
    ensures regs[i].key in Build(regs)
    decreases |regs|
  {
    if i < |regs| - 1 {
      BuildHasKey(regs[..|regs| - 1], i);
    }
  }

  /** The two language names, as registered. */
  lemma LanguageNameEntries()
    ensures REGISTRATIONS[14] == Registration("Opt_LanguageKor", ["한국어", "Korean"])
    ensures REGISTRATIONS[15] == Registration("Opt_LanguageEng", ["영어", "English"])
  {
  }

  /** The two display-mode names, as registered. */
  lemma DisplayModeEntries()
    ensures REGISTRATIONS[10] == Registration("Opt_DisplayFull", ["전체화면", "FullScreen"])
    ensures REGISTRATIONS[11] == Registration("Opt_DisplayWindow", ["창모드", "Windowed"])
  {
  }

  /** The tutorial's message keys, as registered. */
  lemma TutorialEntries()
    ensures REGISTRATIONS[16].key == Tutorial.MSG_MOVE && REGISTRATIONS[17].key == Tutorial.MSG_GET_GUN
    ensures REGISTRATIONS[18].key == Tutorial.MSG_COMBAT && REGISTRATIONS[19].key == Tutorial.MSG_LOOT
    ensures REGISTRATIONS[20].key == Tutorial.MSG_UPGRADE && REGISTRATIONS[21].key == Tutorial.MSG_ESCAPE
    ensures REGISTRATIONS[22].key == Tutorial.MSG_GENERATOR && REGISTRATIONS[23].key == Tutorial.MSG_FINAL_GOAL
  {
  }

  /** The table entry of registration `i`. */
  lemma Entry(i: int)
    requires 0 <= i < |REGISTRATIONS|
    ensures REGISTRATIONS[i].key in Table() && Table()[REGISTRATIONS[i].key] == REGISTRATIONS[i].texts
  {
    RegistrationKeysDistinct();
    BuildLookup(REGISTRATIONS);
  }

  /** Every registered key maps to exactly its two strings, Korean first, and there are 24 keys. */
  lemma TableHoldsRegistrations()
    ensures forall i :: 0 <= i < |REGISTRATIONS| ==>
      REGISTRATIONS[i].key in Table() && Table()[REGISTRATIONS[i].key] == REGISTRATIONS[i].texts
    ensures forall k :: k in Table() ==> |Table()[k]| == 2
    ensures |Table().Keys| == |REGISTRATIONS| == 24
  {
    RegistrationKeysDistinct();
    BuildLookup(REGISTRATIONS);
    TextsArePairs();
    PairsBuild(REGISTRATIONS);
    KeyCount(REGISTRATIONS);
  }

  lemma {:induction false} KeyCount(regs: seq<Registration>)
    requires DistinctKeys(regs)
    ensures |Build(regs).Keys| == |regs|
    decreases |regs|
  {
    if |regs| > 0 {
      var init := regs[..|regs| - 1];
      assert DistinctKeys(init);
      KeyCount(init);
      BuildLookup(init);
      var last := regs[|regs| - 1];
      assert last.key !in Build(init);
      assert Build(regs).Keys == Build(init).Keys + {last.key};
    }
  }

  /** Every message key the tutorial shows is registered. */
  lemma TutorialMessagesRegistered(step: int)
    ensures Tutorial.StepMessage(step) in Table()
  {
    var i := if 0 <= step < 7 then 16 + step else 23;
    TutorialEntries();
    BuildHasKey(REGISTRATIONS, i);
  }

  // ---------------------------------------------------------------------
  // Lookup
  // ---------------------------------------------------------------------

  /** An unregistered key comes back unchanged, in any language. */
  lemma GetTextFallsBackToKey(language: int, key: string)
    requires forall i :: 0 <= i < |REGISTRATIONS| ==> REGISTRATIONS[i].key != key
    ensures GetText(Table(), language, key) == Success(key)
  {
    RegistrationKeysDistinct();
    BuildLookup(REGISTRATIONS);
  }

  /** A registered key gives its Korean text for language 0, its English text for 1, and fails for any other language. */
  lemma GetTextRegistered(i: int, language: int)
    requires 0 <= i < |REGISTRATIONS|
    ensures language == KOREAN || language == ENGLISH ==>
      GetText(Table(), language, REGISTRATIONS[i].key) == Success(REGISTRATIONS[i].texts[language])
    ensures GetText(Table(), language, REGISTRATIONS[i].key).Failure? <==> !(language == KOREAN || language == ENGLISH)
  {
    Entry(i);
    TextsArePairs();
  }

  /** In Korean or English the lookup never fails. */
  lemma GetTextTotalInKnownLanguages(language: int, key: string)
    requires language == KOREAN || language == ENGLISH
    ensures GetText(Table(), language, key).Success?
  {
    TextsArePairs();
    PairsBuild(REGISTRATIONS);
  }

  // ---------------------------------------------------------------------
  // Switching language
  // ---------------------------------------------------------------------

  /**
   * The manager's state besides the table: the current language, the
   * persisted `Language` preference, the dropdown (absent when not wired)
   * and how many times the tutorial was asked to refresh its message.
   */
  datatype LanguageState = LanguageState(
    currentLanguage: int,
    savedLanguage: Option<int>,
    dropdown: Option<Dropdown>,
    tutorialRefreshes: nat)

  /**
   * `RefreshLanguageDropdown`: the options become the Korean and English
   * labels in the current language, and the selection is kept. The second
   * component is false when a lookup threw after the options were cleared.
   */
  function RefreshLanguageDropdown(data: map<string, seq<string>>, s: LanguageState): (LanguageState, bool) {
    if s.dropdown.None? then (s, true)
    else
      var kor := GetText(data, s.currentLanguage, "Opt_LanguageKor");
      var eng := GetText(data, s.currentLanguage, "Opt_LanguageEng");
      if kor.Success? && eng.Success? then
        (s.(dropdown := Some(Dropdown([kor.value, eng.value], s.dropdown.value.value))), true)
      else
        (s.(dropdown := Some(s.dropdown.value.(options := []))), false)
  }

  /**
   * `ChangeLanguage`: set and persist the language, rebuild the dropdown and,
   * if that did not throw, have the tutorial (when there is one) show its
   * current message again.
   */
  function ChangeLanguage(data: map<string, seq<string>>, s: LanguageState, index: int, tutorialPresent: bool)
    : (LanguageState, bool)
  {
    var (refreshed, ok) := RefreshLanguageDropdown(data, s.(currentLanguage := index, savedLanguage := Some(index)));
    if !ok then (refreshed, false)
    else (refreshed.(tutorialRefreshes := if tutorialPresent then refreshed.tutorialRefreshes + 1 else refreshed.tutorialRefreshes), true)
  }

  /** The language dropdown always gets two options, Korean's label then English's, in the current language, and keeps its selection. */
  lemma DropdownOffersBothLanguages(s: LanguageState)
    requires s.dropdown.Some? && (s.currentLanguage == KOREAN || s.currentLanguage == ENGLISH)
    ensures var (r, ok) := RefreshLanguageDropdown(Table(), s);
      ok && r.dropdown.Some? && r.dropdown.value.value == s.dropdown.value.value
      && r.dropdown.value.options == (if s.currentLanguage == KOREAN then ["한국어", "영어"] else ["Korean", "English"])
      && r.currentLanguage == s.currentLanguage && r.savedLanguage == s.savedLanguage
  {
    Entry(14);
    Entry(15);
    LanguageNameEntries();
  }

  /** The new language is set and persisted whatever follows; for Korean or English the switch completes and the tutorial is refreshed iff present. */
  lemma ChangeLanguagePersists(s: LanguageState, index: int, tutorialPresent: bool)
    ensures var (r, ok) := ChangeLanguage(Table(), s, index, tutorialPresent);
      r.currentLanguage == index && r.savedLanguage == Some(index)
      && (index == KOREAN || index == ENGLISH ==>
            ok && r.tutorialRefreshes == s.tutorialRefreshes + (if tutorialPresent then 1 else 0))
      && (!ok ==> s.dropdown.Some? && r.dropdown == Some(s.dropdown.value.(options := [])))
  {
    if index == KOREAN || index == ENGLISH {
      GetTextTotalInKnownLanguages(index, "Opt_LanguageKor");
      GetTextTotalInKnownLanguages(index, "Opt_LanguageEng");
    }
  }
}

/** The `LanguageManager` MonoBehaviour. */
module LanguageComponent {
  import opened Wrappers
  import opened Localization

  class LanguageManager {
    var currentLanguage: int
    var savedLanguage: Option<int>
    var localizedData: map<string, seq<string>>
    var dropdown: Option<Dropdown>
    var tutorialRefreshes: nat

    function Snapshot(): LanguageState
      reads this
    {
      LanguageState(currentLanguage, savedLanguage, dropdown, tutorialRefreshes)
    }

    /** A fresh component: Korean, an empty dictionary, the given dropdown and stored preference. */
    constructor (dropdown: Option<Dropdown>, savedLanguage: Option<int>)
      ensures Snapshot() == LanguageState(KOREAN, savedLanguage, dropdown, 0) && localizedData == map[]
    {
      currentLanguage := KOREAN;
      this.savedLanguage := savedLanguage;
      localizedData := map[];
      this.dropdown := dropdown;
      tutorialRefreshes := 0;
    }

    /**
     * `InitLocalizationData`: `Add` each registration in order; `Add` throws
     * on a key already present, which ends the method early.
     */
    method InitLocalizationData() returns (ok: bool)
      modifies this
      ensures ok <==> forall i :: 0 <= i < |REGISTRATIONS| ==> REGISTRATIONS[i].key !in old(localizedData)
      ensures ok ==> localizedData == old(localizedData) + Table()
      ensures old(localizedData) == map[] ==> ok && localizedData == Table()
      ensures Snapshot() == old(Snapshot())
    {
      RegistrationKeysDistinct();
      ok := AddAll(REGISTRATIONS);
    }

    /** The run of `Add` calls, over any registrations with distinct keys. */
    method AddAll(regs: seq<Registration>) returns (ok: bool)
      requires DistinctKeys(regs)
      modifies this
      ensures ok <==> forall i :: 0 <= i < |regs| ==> regs[i].key !in old(localizedData)
      ensures ok ==> localizedData == old(localizedData) + Build(regs)
      ensures old(localizedData) == map[] ==> ok && localizedData == Build(regs)
      ensures Snapshot() == old(Snapshot())
    {
      var i := 0;
      while i < |regs|
        invariant 0 <= i <= |regs|
        invariant localizedData == old(localizedData) + Build(regs[..i])
        invariant forall j :: 0 <= j < i ==> regs[j].key !in old(localizedData)
        invariant Snapshot() == old(Snapshot())
      {
        var r := regs[i];
        FreshAtEachAdd(regs, i);
        if r.key in localizedData {
          return false;
        }
        assert r.key !in old(localizedData);
        UnionUpdate(old(localizedData), Build(regs[..i]), r.key, r.texts);
        localizedData := localizedData[r.key := r.texts];
        i := i + 1;
      }
      assert regs[..i] == regs;
      assert old(localizedData) == map[] ==> old(localizedData) + Build(regs) == Build(regs);
      return true;
    }

    method GetText(key: string) returns (r: Result<string>)
      ensures r == Localization.GetText(localizedData, currentLanguage, key)
    {
      if key in localizedData {
        var texts := localizedData[key];
        if 0 <= currentLanguage < |texts| {
          return Success(texts[currentLanguage]);
        }
        return Failure("IndexOutOfRangeException");
      }
      return Success(key);
    }

    method RefreshLanguageDropdown() returns (ok: bool)
      modifies this
      ensures (Snapshot(), ok) == Localization.RefreshLanguageDropdown(localizedData, old(Snapshot()))
      ensures localizedData == old(localizedData)
    {
      if dropdown.None? {
        return true;
      }
      var currentIndex := dropdown.value.value;
      dropdown := Some(dropdown.value.(options := []));
      var kor := GetText("Opt_LanguageKor");
      if kor.Failure? {
        return false;
      }
      var eng := GetText("Opt_LanguageEng");
      if eng.Failure? {
        return false;
      }
      dropdown := Some(Dropdown([kor.value, eng.value], currentIndex));
      return true;
    }

    method ChangeLanguage(index: int, tutorialPresent: bool) returns (ok: bool)
      modifies this
      ensures (Snapshot(), ok) == Localization.ChangeLanguage(localizedData, old(Snapshot()), index, tutorialPresent)
      ensures localizedData == old(localizedData)
    {
      currentLanguage := index;
      savedLanguage := Some(index);
      ok := RefreshLanguageDropdown();
      if !ok {
        return;
      }
      if tutorialPresent {
        tutorialRefreshes := tutorialRefreshes + 1;
      }
    }
  }
}
