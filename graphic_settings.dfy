/**
 * Display settings: the resolution list without repeated sizes, the index of
 * the current screen size in it, the saved index with its range guard, the
 * resolution and display-mode setters, and the two display-mode options.
 *
 * `Screen.resolutions`, the screen size and the `PlayerPrefs` values are
 * inputs and fields; a dropdown records the options and the index the script
 * passes to it.
 */
module Display {
  import opened Wrappers
  import opened Text
  import Localization

  datatype Resolution = Resolution(width: int, height: int, refreshRate: int)

  /** The option text "w x h"; the refresh rate does not appear. */
  function Label(r: Resolution): string {
    IntToString(r.width) + " x " + IntToString(r.height)
  }

  function Labels(rs: seq<Resolution>): (ls: seq<string>)
    ensures |ls| == |rs| && forall k :: 0 <= k < |rs| ==> ls[k] == Label(rs[k])
  {
    seq(|rs|, k requires 0 <= k < |rs| => Label(rs[k]))
  }

  /** Two resolutions share a label iff they have the same width and height. */
  lemma LabelMeansSize(r: Resolution, q: Resolution)
    ensures Label(r) == Label(q) <==> r.width == q.width && r.height == q.height
  {
    if Label(r) == Label(q) {
      JoinedInjective(r.width, r.height, q.width, q.height, " x ");
    }
  }

  predicate HasSize(fs: seq<Resolution>, w: int, h: int) {
    exists k :: 0 <= k < |fs| && fs[k].width == w && fs[k].height == h
  }

  /**
   * `InitResolution`'s list: each resolution whose "w x h" label was not yet
   * added, in order. A label is taken iff its size is (`InLabelsIffHasSize`),
   * so the list is written on sizes.
   */
  function Dedup(rs: seq<Resolution>): seq<Resolution>
    decreases |rs|
  {
    if |rs| == 0 then []
    else
      var kept := Dedup(rs[..|rs| - 1]);
      var last := rs[|rs| - 1];
      if HasSize(kept, last.width, last.height) then kept else kept + [last]
  }

  /** `rs[m]` is the first resolution of its size. */
  predicate FirstOfItsSize(rs: seq<Resolution>, m: int)
    requires 0 <= m < |rs|
  {
    forall p :: 0 <= p < m ==> !(rs[p].width == rs[m].width && rs[p].height == rs[m].height)
  }

  /** The reference list: the first resolution of every size, in their original order. */
  function FirstsOfEachSize(rs: seq<Resolution>): seq<Resolution>
    decreases |rs|
  {
    if |rs| == 0 then []
    else FirstsOfEachSize(rs[..|rs| - 1]) + (if FirstOfItsSize(rs, |rs| - 1) then [rs[|rs| - 1]] else [])
  }

  /** A label is already among the options iff a resolution of that size is already listed. */
  lemma InLabelsIffHasSize(r: Resolution, fs: seq<Resolution>)
    ensures Label(r) in Labels(fs) <==> HasSize(fs, r.width, r.height)
  {
    if Label(r) in Labels(fs) {
      var k :| 0 <= k < |fs| && Labels(fs)[k] == Label(r);
      LabelMeansSize(fs[k], r);
    }
    if HasSize(fs, r.width, r.height) {
      var k :| 0 <= k < |fs| && fs[k].width == r.width && fs[k].height == r.height;
      LabelMeansSize(fs[k], r);
      assert Labels(fs)[k] == Label(r);
    }
  }

  /** Every kept resolution comes from the input. */
  lemma {:induction false} DedupFromInput(rs: seq<Resolution>)
    ensures forall k :: 0 <= k < |Dedup(rs)| ==> Dedup(rs)[k] in rs
    decreases |rs|
  {
    if |rs| > 0 {
      var init := rs[..|rs| - 1];
      DedupFromInput(init);
      forall k | 0 <= k < |Dedup(rs)|
        ensures Dedup(rs)[k] in rs
      {
        if k < |Dedup(init)| {
          assert Dedup(rs)[k] == Dedup(init)[k];
          var p :| 0 <= p < |init| && init[p] == Dedup(init)[k];
          assert rs[p] == init[p];
        }
      }
    }
  }

  /** Every input size is represented in the kept list. */
  lemma {:induction false} DedupCoversSizes(rs: seq<Resolution>)
    ensures forall m :: 0 <= m < |rs| ==> HasSize(Dedup(rs), rs[m].width, rs[m].height)
    decreases |rs|
  {
    if |rs| > 0 {
      var init := rs[..|rs| - 1];
      var kept := Dedup(init);
      DedupCoversSizes(init);
      forall m | 0 <= m < |rs|
        ensures HasSize(Dedup(rs), rs[m].width, rs[m].height)
      {
        if m < |rs| - 1 {
          assert rs[m] == init[m];
          var k :| 0 <= k < |kept| && kept[k].width == init[m].width && kept[k].height == init[m].height;
          assert Dedup(rs)[k] == kept[k];
        } else if HasSize(kept, rs[m].width, rs[m].height) {
          var k :| 0 <= k < |kept| && kept[k].width == rs[m].width && kept[k].height == rs[m].height;
          assert Dedup(rs)[k] == kept[k];
        } else {
          assert Dedup(rs)[|kept|] == rs[m];
        }
      }
    }
  }

  /** No two kept resolutions share a size. */
  lemma {:induction false} DedupSizesDistinct(rs: seq<Resolution>)
    ensures forall i, j :: 0 <= i < j < |Dedup(rs)| ==>
      !(Dedup(rs)[i].width == Dedup(rs)[j].width && Dedup(rs)[i].height == Dedup(rs)[j].height)
    decreases |rs|
  {
    if |rs| > 0 {
      var init := rs[..|rs| - 1];
      DedupSizesDistinct(init);
      var kept := Dedup(init);
      var last := rs[|rs| - 1];
      if !HasSize(kept, last.width, last.height) {
        forall i, j | 0 <= i < j < |Dedup(rs)|
          ensures !(Dedup(rs)[i].width == Dedup(rs)[j].width && Dedup(rs)[i].height == Dedup(rs)[j].height)
        {
          if j == |kept| {
            assert Dedup(rs)[i] == kept[i];
          } else {
            assert Dedup(rs)[i] == kept[i] && Dedup(rs)[j] == kept[j];
          }
        }
      }
    }
  }

  /** The kept list is the reference list of first occurrences. */
  lemma {:induction false} DedupIsFirsts(rs: seq<Resolution>)
    ensures Dedup(rs) == FirstsOfEachSize(rs)
    decreases |rs|
  {
    if |rs| > 0 {
      var init := rs[..|rs| - 1];
      var last := rs[|rs| - 1];
      var kept := Dedup(init);
      DedupIsFirsts(init);
      DedupFromInput(init);
      DedupCoversSizes(init);
      if HasSize(kept, last.width, last.height) {
        var k :| 0 <= k < |kept| && kept[k].width == last.width && kept[k].height == last.height;
        var p :| 0 <= p < |init| && init[p] == kept[k];
        assert rs[p] == init[p];
        assert !FirstOfItsSize(rs, |rs| - 1);
      } else {
        forall p | 0 <= p < |rs| - 1
          ensures !(rs[p].width == last.width && rs[p].height == last.height)
        {
          assert init[p] == rs[p];
          var k :| 0 <= k < |kept| && kept[k].width == init[p].width && kept[k].height == init[p].height;
        }
        assert FirstOfItsSize(rs, |rs| - 1);
      }
    }
  }

  /**
   * The filtered list is exactly the first resolution of each size in order;
   * no two of its entries share a size, every input size appears in it, and
   * every entry comes from the input.
   */
  lemma DedupKeepsFirstOfEachSize(rs: seq<Resolution>)
    ensures Dedup(rs) == FirstsOfEachSize(rs)
    ensures forall i, j :: 0 <= i < j < |Dedup(rs)| ==>
      !(Dedup(rs)[i].width == Dedup(rs)[j].width && Dedup(rs)[i].height == Dedup(rs)[j].height)
    ensures forall m :: 0 <= m < |rs| ==> HasSize(Dedup(rs), rs[m].width, rs[m].height)
    ensures forall k :: 0 <= k < |Dedup(rs)| ==> Dedup(rs)[k] in rs
  {
    DedupIsFirsts(rs);
    DedupSizesDistinct(rs);
    DedupCoversSizes(rs);
    DedupFromInput(rs);
  }

  /** `currentResIndex`: the position of the last (and, in a deduplicated list, only) entry of the screen's size, else 0. */
  function MatchIndex(fs: seq<Resolution>, screenWidth: int, screenHeight: int): (k: int)
    ensures |fs| == 0 ==> k == 0
    ensures |fs| > 0 ==> 0 <= k < |fs|
    decreases |fs|
  {
    if |fs| == 0 then 0
    else if fs[|fs| - 1].width == screenWidth && fs[|fs| - 1].height == screenHeight then |fs| - 1
    else MatchIndex(fs[..|fs| - 1], screenWidth, screenHeight)
  }

  /** The index points at the screen's size when the list has it, and is 0 when it does not. */
  lemma {:induction false} MatchIndexFindsScreen(fs: seq<Resolution>, w: int, h: int)
    ensures (exists k :: 0 <= k < |fs| && fs[k].width == w && fs[k].height == h) ==>
      fs[MatchIndex(fs, w, h)].width == w && fs[MatchIndex(fs, w, h)].height == h
    ensures !(exists k :: 0 <= k < |fs| && fs[k].width == w && fs[k].height == h) ==> MatchIndex(fs, w, h) == 0
    decreases |fs|
  {
    if |fs| > 0 {
      var init := fs[..|fs| - 1];
      MatchIndexFindsScreen(init, w, h);
      if !(fs[|fs| - 1].width == w && fs[|fs| - 1].height == h) {
        if exists k :: 0 <= k < |fs| && fs[k].width == w && fs[k].height == h {
          var k :| 0 <= k < |fs| && fs[k].width == w && fs[k].height == h;
          assert init[k] == fs[k];
        } else {
          forall k | 0 <= k < |init|
            ensures !(init[k].width == w && init[k].height == h)
          {
            assert init[k] == fs[k];
          }
        }
      }
    }
  }

  /** One more resolution read: it is kept iff no kept resolution has its size, that is iff its label is new. */
  lemma DedupPrefixStep(rs: seq<Resolution>, i: int)
    requires 0 <= i < |rs|
    ensures var kept := Dedup(rs[..i]);
      (Label(rs[i]) in Labels(kept) <==> HasSize(kept, rs[i].width, rs[i].height))
      && Dedup(rs[..i + 1]) == if HasSize(kept, rs[i].width, rs[i].height) then kept else kept + [rs[i]]
  {
    assert rs[..i + 1][..i] == rs[..i];
    InLabelsIffHasSize(rs[i], Dedup(rs[..i]));
  }

  /** Appending a resolution appends its option and moves the current index to it when it has the screen's size. */
  lemma AppendStep(kept: seq<Resolution>, r: Resolution, w: int, h: int)
    ensures Labels(kept + [r]) == Labels(kept) + [Label(r)]
    ensures MatchIndex(kept + [r], w, h) == if r.width == w && r.height == h then |kept| else MatchIndex(kept, w, h)
  {
    assert (kept + [r])[..|kept|] == kept;
  }

  /** The saved index, defaulting to the current one; an index at or past the end becomes 0 (a negative one passes). */
  function SelectedIndex(saved: Option<int>, current: int, count: int): (k: int)
    ensures saved.GetOr(current) < count ==> k == saved.GetOr(current)
    ensures saved.GetOr(current) >= count ==> k == 0
  {
    var k := saved.GetOr(current);
    if k >= count then 0 else k
  }

  /** The settings' state: the screen, the persisted preferences, the filtered list and the two dropdowns. */
  datatype GraphicsState = GraphicsState(
    fullScreen: bool,
    exclusiveFullScreen: bool,
    screenWidth: int,
    screenHeight: int,
    savedDisplayMode: Option<int>,
    savedResolutionIndex: Option<int>,
    resolutions: seq<Resolution>,
    filtered: Option<seq<Resolution>>,
    resolutionDropdown: Option<Localization.Dropdown>,
    displayModeDropdown: Option<Localization.Dropdown>)

  /** `InitResolution`, given `Screen.resolutions`. */
  function InitResolution(s: GraphicsState, available: seq<Resolution>): GraphicsState {
    if s.resolutionDropdown.None? then s
    else
      var fs := Dedup(available);
      var current := MatchIndex(fs, s.screenWidth, s.screenHeight);
      s.(resolutions := available, filtered := Some(fs),
         resolutionDropdown := Some(Localization.Dropdown(Labels(fs), SelectedIndex(s.savedResolutionIndex, current, |fs|))))
  }

  /** The options stay aligned with the filtered list, each size appears once, and the selection is guarded against running past the end. */
  lemma InitResolutionMeaning(s: GraphicsState, available: seq<Resolution>)
    requires s.resolutionDropdown.Some?
    ensures var r := InitResolution(s, available);
      r.filtered == Some(FirstsOfEachSize(available))
      && r.resolutionDropdown.Some?
      && |r.resolutionDropdown.value.options| == |r.filtered.value|
      && (forall k :: 0 <= k < |r.filtered.value| ==> r.resolutionDropdown.value.options[k] == Label(r.filtered.value[k]))
      && (forall i, j :: 0 <= i < j < |r.filtered.value| ==>
            r.resolutionDropdown.value.options[i] != r.resolutionDropdown.value.options[j])
      && (r.resolutionDropdown.value.value < |r.filtered.value| || r.resolutionDropdown.value.value == 0)
    ensures var r := InitResolution(s, available);
      s.savedResolutionIndex.None? && HasSize(available, s.screenWidth, s.screenHeight) ==>
        0 <= r.resolutionDropdown.value.value < |r.filtered.value|
        && r.filtered.value[r.resolutionDropdown.value.value].width == s.screenWidth
        && r.filtered.value[r.resolutionDropdown.value.value].height == s.screenHeight
  {
    DedupKeepsFirstOfEachSize(available);
    var fs := Dedup(available);
    OptionsDistinct(fs);
    MatchIndexFindsScreen(fs, s.screenWidth, s.screenHeight);
    if HasSize(available, s.screenWidth, s.screenHeight) {
      var m :| 0 <= m < |available| && available[m].width == s.screenWidth && available[m].height == s.screenHeight;
      assert HasSize(fs, available[m].width, available[m].height);
    }
  }

  /** Resolutions of pairwise different sizes get pairwise different options. */
  lemma OptionsDistinct(fs: seq<Resolution>)
    requires forall i, j :: 0 <= i < j < |fs| ==> !(fs[i].width == fs[j].width && fs[i].height == fs[j].height)
    ensures forall i, j :: 0 <= i < j < |fs| ==> Labels(fs)[i] != Labels(fs)[j]
  {
    forall i, j | 0 <= i < j < |fs|
      ensures Labels(fs)[i] != Labels(fs)[j]
    {
      LabelMeansSize(fs[i], fs[j]);
    }
  }

  /** `SetResolution`: ignored without a list or for an index past the end; a negative index throws. */
  function SetResolution(s: GraphicsState, index: int): Result<GraphicsState> {
    if s.filtered.None? || index >= |s.filtered.value| then Success(s)
    else if index < 0 then Failure("ArgumentOutOfRangeException")
    else
      var res := s.filtered.value[index];
      Success(s.(screenWidth := res.width, screenHeight := res.height, savedResolutionIndex := Some(index)))
  }

  /** `SetDisplayMode`: index 0 is exclusive fullscreen, anything else windowed; the index is persisted. */
  function SetDisplayMode(s: GraphicsState, index: int): GraphicsState {
    s.(fullScreen := index == 0, exclusiveFullScreen := index == 0, savedDisplayMode := Some(index))
  }

  /** An in-range index switches the screen to that entry's size and persists the index; other calls change nothing or throw. */
  lemma SetResolutionMeaning(s: GraphicsState, index: int)
    ensures s.filtered.Some? && 0 <= index < |s.filtered.value| ==>
      SetResolution(s, index).Success?
      && SetResolution(s, index).value.screenWidth == s.filtered.value[index].width
      && SetResolution(s, index).value.screenHeight == s.filtered.value[index].height
      && SetResolution(s, index).value.savedResolutionIndex == Some(index)
      && SetResolution(s, index).value.fullScreen == s.fullScreen
    ensures s.filtered.None? || index >= |s.filtered.value| ==> SetResolution(s, index) == Success(s)
    ensures SetResolution(s, index).Failure? <==> s.filtered.Some? && index < 0
  {
  }

  /** Fullscreen iff index 0, the mode agrees with the flag, and setting the mode twice is setting it once. */
  lemma SetDisplayModeMeaning(s: GraphicsState, index: int)
    ensures var r := SetDisplayMode(s, index);
      (r.fullScreen <==> index == 0) && r.exclusiveFullScreen == r.fullScreen && r.savedDisplayMode == Some(index)
      && SetDisplayMode(r, index) == r
  {
  }

  /**
   * `RefreshDisplayModeOptions`: two options, localised when the language
   * manager exists (`language` is its current language), otherwise
   * "Fullscreen" and "Windowed"; the selection is the saved mode. The second
   * component is false when a lookup threw after the options were cleared.
   */
  function RefreshDisplayModeOptions(s: GraphicsState, language: Option<int>): (GraphicsState, bool) {
    if s.displayModeDropdown.None? then (s, true)
    else
      var mode := s.savedDisplayMode.GetOr(0);
      if language.None? then
        (s.(displayModeDropdown := Some(Localization.Dropdown(["Fullscreen", "Windowed"], mode))), true)
      else
        var full := Localization.GetText(Localization.Table(), language.value, "Opt_DisplayFull");
        var window := Localization.GetText(Localization.Table(), language.value, "Opt_DisplayWindow");
        if full.Success? && window.Success? then
          (s.(displayModeDropdown := Some(Localization.Dropdown([full.value, window.value], mode))), true)
        else
          (s.(displayModeDropdown := Some(s.displayModeDropdown.value.(options := []))), false)
  }

  /** For Korean, English or no language manager there are exactly two options, fullscreen first, and the saved mode is selected. */
  lemma DisplayModeOptionsMeaning(s: GraphicsState, language: Option<int>)
    requires s.displayModeDropdown.Some?
    requires language.None? || language.value == Localization.KOREAN || language.value == Localization.ENGLISH
    ensures var (r, ok) := RefreshDisplayModeOptions(s, language);
      ok && r.displayModeDropdown.Some?
      && r.displayModeDropdown.value.value == s.savedDisplayMode.GetOr(0)
      && r.displayModeDropdown.value.options ==
           (if language.None? then ["Fullscreen", "Windowed"]
            else if language.value == Localization.KOREAN then ["전체화면", "창모드"]
            else ["FullScreen", "Windowed"])
  {
    if language.Some? {
      Localization.Entry(10);
      Localization.Entry(11);
      Localization.DisplayModeEntries();
    }
  }
}

/** The `GraphicSettings` MonoBehaviour. */
module DisplayComponent {
  import opened Wrappers
  import opened Text
  import Localization
  import opened Display

  class GraphicSettings {
    var fullScreen: bool
    var exclusiveFullScreen: bool
    var screenWidth: int
    var screenHeight: int
    var savedDisplayMode: Option<int>
    var savedResolutionIndex: Option<int>
    var resolutions: seq<Resolution>
    var filteredResolutions: Option<seq<Resolution>>
    var resolutionDropdown: Option<Localization.Dropdown>
    var displayModeDropdown: Option<Localization.Dropdown>

    function Snapshot(): GraphicsState
      reads this
    {
      GraphicsState(fullScreen, exclusiveFullScreen, screenWidth, screenHeight, savedDisplayMode, savedResolutionIndex,
                    resolutions, filteredResolutions, resolutionDropdown, displayModeDropdown)
    }

    /** The component before its first scene load: no list yet; screen, preferences and dropdowns as found. */
    constructor (start: GraphicsState)
      requires start.filtered.None? && start.resolutions == []
      ensures Snapshot() == start
    {
      fullScreen := start.fullScreen;
      exclusiveFullScreen := start.exclusiveFullScreen;
      screenWidth := start.screenWidth;
      screenHeight := start.screenHeight;
      savedDisplayMode := start.savedDisplayMode;
      savedResolutionIndex := start.savedResolutionIndex;
      resolutions := [];
      filteredResolutions := None;
      resolutionDropdown := start.resolutionDropdown;
      displayModeDropdown := start.displayModeDropdown;
    }

    /** `InitResolution`: the filtered list and its options, then the selection guarded against running past the end. */
    method InitResolution(available: seq<Resolution>)
      modifies this
      ensures Snapshot() == Display.InitResolution(old(Snapshot()), available)
    {
      if resolutionDropdown.None? {
        return;
      }
      resolutions := available;
      var filtered, options, currentResIndex := CollectResolutions(available, screenWidth, screenHeight);
      filteredResolutions := Some(filtered);
      var savedIndex := savedResolutionIndex.GetOr(currentResIndex);
      if savedIndex >= |filtered| {
        savedIndex := 0;
      }
      resolutionDropdown := Some(Localization.Dropdown(options, savedIndex));
    }

    /** The loop of `InitResolution`: one pass over the resolutions with a set of the labels already added. */
    static method CollectResolutions(available: seq<Resolution>, screenWidth: int, screenHeight: int)
      returns (filtered: seq<Resolution>, options: seq<string>, currentResIndex: int)
      ensures filtered == Dedup(available) && options == Labels(filtered)
      ensures currentResIndex == MatchIndex(filtered, screenWidth, screenHeight)
    {
      options := [];
      currentResIndex := 0;
      var added: set<string> := {};
      filtered := [];
      var i := 0;
      while i < |available|
        invariant 0 <= i <= |available|
        invariant filtered == Dedup(available[..i])
        invariant options == Labels(filtered)
        invariant forall l :: l in added <==> l in options
        invariant currentResIndex == MatchIndex(filtered, screenWidth, screenHeight)
      {
        DedupPrefixStep(available, i);
        var option := Label(available[i]);
        if option !in added {
          AppendStep(filtered, available[i], screenWidth, screenHeight);
          added := added + {option};
          options := options + [option];
          filtered := filtered + [available[i]];
          if available[i].width == screenWidth && available[i].height == screenHeight {
            currentResIndex := |filtered| - 1;
          }
        }
        i := i + 1;
      }
      assert available[..i] == available;
    }

    method SetResolution(resolutionIndex: int) returns (ok: bool)
      modifies this
      ensures var r := Display.SetResolution(old(Snapshot()), resolutionIndex);
        ok == r.Success? && Snapshot() == (if r.Success? then r.value else old(Snapshot()))
    {
      if filteredResolutions.None? || resolutionIndex >= |filteredResolutions.value| {
        return true;
      }
      if resolutionIndex < 0 {
        return false;
      }
      var resolution := filteredResolutions.value[resolutionIndex];
      screenWidth, screenHeight := resolution.width, resolution.height;
      savedResolutionIndex := Some(resolutionIndex);
      return true;
    }

    method SetDisplayMode(index: int)
      modifies this
      ensures Snapshot() == Display.SetDisplayMode(old(Snapshot()), index)
    {
      var isFullscreen := index == 0;
      fullScreen := isFullscreen;
      exclusiveFullScreen := isFullscreen;
      savedDisplayMode := Some(index);
    }

    method RefreshDisplayModeOptions(language: Option<int>) returns (ok: bool)
      modifies this
      ensures (Snapshot(), ok) == Display.RefreshDisplayModeOptions(old(Snapshot()), language)
    {
      if displayModeDropdown.None? {
        return true;
      }
      var currentMode := savedDisplayMode.GetOr(0);
      displayModeDropdown := Some(displayModeDropdown.value.(options := []));
      var options: seq<string>;
      if language.Some? {
        var full := Localization.GetText(Localization.Table(), language.value, "Opt_DisplayFull");
        if full.Failure? {
          return false;
        }
        var window := Localization.GetText(Localization.Table(), language.value, "Opt_DisplayWindow");
        if window.Failure? {
          return false;
        }
        options := [full.value, window.value];
      } else {
        options := ["Fullscreen", "Windowed"];
      }
      displayModeDropdown := Some(Localization.Dropdown(options, currentMode));
      return true;
    }
  }
}
