/** The instrument browser dialog: how its controls derive a new instrument
    setting, which instruments it lists, how the 128 General MIDI presets
    are grouped into categories, and what its wrapper does on a change and
    on OK — including the rule that moves a track to the rhythm channel 9,
    or off it to the lowest free channel. The General MIDI category and name
    tables are given as functions; player calls and the track-instrument
    action are recorded in an effect log. */
module InstrumentBrowser {
  import opened PianoModel

  datatype InstrumentSetting = InstrumentSetting(programNumber: int, isRhythmTrack: bool)

  /** The state a checkbox reports: checked, unchecked or indeterminate. */
  datatype CheckedState = Checked | Unchecked | Indeterminate

  datatype PresetItem = PresetItem(name: string, programNumber: int)

  datatype PresetCategory = PresetCategory(name: string, presets: seq<PresetItem>)

  // ---------------------------------------------------------------------
  // The dialog's controls

  /** Choosing the category at `selectedIndex` picks its first instrument
      (categories hold eight programs each); the rhythm flag is kept. */
  function OnChangeCategory(setting: InstrumentSetting, selectedIndex: int): (r: InstrumentSetting)
    ensures r.programNumber == selectedIndex * 8
    ensures r.isRhythmTrack == setting.isRhythmTrack
  {
    InstrumentSetting(selectedIndex * 8, setting.isRhythmTrack)
  }

  /** Choosing an instrument changes the program only. */
  function OnChangeInstrument(setting: InstrumentSetting, programNumber: int): (r: InstrumentSetting)
    ensures r.programNumber == programNumber
    ensures r.isRhythmTrack == setting.isRhythmTrack
  {
    InstrumentSetting(programNumber, setting.isRhythmTrack)
  }

  /** Toggling the checkbox changes the rhythm flag only: it is set exactly
      when the box is checked, so "indeterminate" clears it. */
  function OnChangeRhythmTrack(setting: InstrumentSetting, state: CheckedState): (r: InstrumentSetting)
    ensures r.programNumber == setting.programNumber
    ensures r.isRhythmTrack <==> state == Checked
  {
    InstrumentSetting(setting.programNumber, state == Checked)
  }

  /** The instruments listed for the selected category: its presets if the
      list has that many categories, none otherwise. A negative index reads
      past the start of the list and fails (`None`). */
  function Instruments(presetCategories: seq<PresetCategory>, selectedCategoryId: int)
    : (r: Option<seq<PresetItem>>)
    ensures selectedCategoryId < 0 <==> r.None?
    ensures 0 <= selectedCategoryId < |presetCategories| ==>
      r == Some(presetCategories[selectedCategoryId].presets)
    ensures selectedCategoryId >= |presetCategories| ==> r == Some([])
  {
    if |presetCategories| > selectedCategoryId then
      if selectedCategoryId < 0 then None else Some(presetCategories[selectedCategoryId].presets)
    else Some([])
  }

  // ---------------------------------------------------------------------
  // The presets and their grouping

  /** The presets: every program number from 0 to 127, in order, named by
      `getInstrumentName`. */
  function Presets(getInstrumentName: int -> string): (ps: seq<PresetItem>)
    ensures |ps| == 128
    ensures forall i :: 0 <= i < 128 ==> ps[i] == PresetItem(getInstrumentName(i), i)
  {
    seq(128, i requires 0 <= i < 128 => PresetItem(getInstrumentName(i), i))
  }

  /** The presets of `ps` whose category is `k`, in their order. */
  function WithCategory(ps: seq<PresetItem>, getCategoryIndex: int -> int, k: int)
    : (r: seq<PresetItem>)
    ensures forall p :: p in r <==> p in ps && getCategoryIndex(p.programNumber) == k
  {
    if ps == [] then []
    else
      var last := ps[|ps| - 1];
      WithCategory(ps[..|ps| - 1], getCategoryIndex, k)
        + (if getCategoryIndex(last.programNumber) == k then [last] else [])
  }

  /** Grouping presets by category, as `groupBy` does it: each preset in
      turn is appended to the group of its category. There is a group for
      exactly the categories that occur, and no group is empty. */
  function GroupBy(ps: seq<PresetItem>, getCategoryIndex: int -> int): (groups: map<int, seq<PresetItem>>)
    ensures forall k :: k in groups <==>
      exists i :: 0 <= i < |ps| && getCategoryIndex(ps[i].programNumber) == k
    ensures forall k :: k in groups ==> groups[k] != []
  {
    if ps == [] then map[]
    else
      var groups := GroupBy(ps[..|ps| - 1], getCategoryIndex);
      var last := ps[|ps| - 1];
      var k := getCategoryIndex(last.programNumber);
      groups[k := (if k in groups then groups[k] else []) + [last]]
  }

  /** Every preset lands in the group of its category: the group of `k` is
      exactly the presets of category `k` in their order, and there is a
      group for `k` exactly when some preset has that category. */
  lemma {:induction false} GroupByGroups(ps: seq<PresetItem>, getCategoryIndex: int -> int)
    ensures forall k :: k in GroupBy(ps, getCategoryIndex) <==> WithCategory(ps, getCategoryIndex, k) != []
    ensures forall k :: k in GroupBy(ps, getCategoryIndex) ==>
      GroupBy(ps, getCategoryIndex)[k] == WithCategory(ps, getCategoryIndex, k)
  {
    if ps != [] {
      GroupByGroups(ps[..|ps| - 1], getCategoryIndex);
    }
  }

  /** One more than the largest category of the presets in `ps` (at least
      0). */
  function CategoryBound(ps: seq<PresetItem>, getCategoryIndex: int -> int): (b: nat)
    ensures forall p :: p in ps ==> getCategoryIndex(p.programNumber) < b
    ensures b == 0 || exists i :: 0 <= i < |ps| && getCategoryIndex(ps[i].programNumber) == b - 1
  {
    if ps == [] then 0
    else
      var b := CategoryBound(ps[..|ps| - 1], getCategoryIndex);
      var k := getCategoryIndex(ps[|ps| - 1].programNumber);
      if k + 1 > b then k + 1 else b
  }

  /** The categories with an index below `n`, in ascending order of index:
      the order in which integer keys of a grouped object are visited. */
  function CategoriesBelow(groups: map<int, seq<PresetItem>>, categoryName: int -> string, n: nat)
    : (cats: seq<PresetCategory>)
    ensures |cats| <= n
    ensures |cats| == n ==> forall k :: 0 <= k < n ==> k in groups
  {
    if n == 0 then []
    else
      CategoriesBelow(groups, categoryName, n - 1)
        + (if n - 1 in groups then [PresetCategory(categoryName(n - 1), groups[n - 1])] else [])
  }

  /** The category list the dialog is given. Category indices are
      non-negative. Every category some program has is listed with its
      presets in program order, and nothing else is listed. */
  function PresetCategories(getInstrumentName: int -> string, getCategoryIndex: int -> int,
                            categoryName: int -> string): (cats: seq<PresetCategory>)
    requires forall p :: 0 <= p < 128 ==> getCategoryIndex(p) >= 0
    ensures var ps := Presets(getInstrumentName);
      forall i :: 0 <= i < |ps| ==>
        var k := getCategoryIndex(ps[i].programNumber);
        PresetCategory(categoryName(k), WithCategory(ps, getCategoryIndex, k)) in cats
    ensures var ps := Presets(getInstrumentName);
      forall c :: c in cats ==>
        exists i :: 0 <= i < |ps| &&
          (var k := getCategoryIndex(ps[i].programNumber);
           c == PresetCategory(categoryName(k), WithCategory(ps, getCategoryIndex, k)))
  {
    var ps := Presets(getInstrumentName);
    var groups := GroupBy(ps, getCategoryIndex);
    ListedCategories(ps, getCategoryIndex, categoryName);
    ListedCategoriesOnly(ps, getCategoryIndex, categoryName);
    CategoriesBelow(groups, categoryName, CategoryBound(ps, getCategoryIndex))
  }

  /** The list holds the group of every category below `n` that has one,
      and nothing else. */
  lemma {:induction false} CategoriesBelowMembers(groups: map<int, seq<PresetItem>>,
                                                  categoryName: int -> string, n: nat)
    ensures forall k :: 0 <= k < n && k in groups ==>
      PresetCategory(categoryName(k), groups[k]) in CategoriesBelow(groups, categoryName, n)
    ensures forall c :: c in CategoriesBelow(groups, categoryName, n) ==>
      exists k :: 0 <= k < n && k in groups && c == PresetCategory(categoryName(k), groups[k])
  {
    if n > 0 {
      CategoriesBelowMembers(groups, categoryName, n - 1);
    }
  }

  /** Listing the groups of `ps` below its category bound lists the group
      of every preset whose category is not negative. */
  lemma ListedCategories(ps: seq<PresetItem>, getCategoryIndex: int -> int, categoryName: int -> string)
    ensures forall i :: 0 <= i < |ps| && getCategoryIndex(ps[i].programNumber) >= 0 ==>
      var k := getCategoryIndex(ps[i].programNumber);
      PresetCategory(categoryName(k), WithCategory(ps, getCategoryIndex, k))
        in CategoriesBelow(GroupBy(ps, getCategoryIndex), categoryName, CategoryBound(ps, getCategoryIndex))
  {
    var groups := GroupBy(ps, getCategoryIndex);
    var bound := CategoryBound(ps, getCategoryIndex);
    GroupByGroups(ps, getCategoryIndex);
    CategoriesBelowMembers(groups, categoryName, bound);
    forall i | 0 <= i < |ps| && getCategoryIndex(ps[i].programNumber) >= 0
      ensures var k := getCategoryIndex(ps[i].programNumber);
        PresetCategory(categoryName(k), WithCategory(ps, getCategoryIndex, k))
          in CategoriesBelow(groups, categoryName, bound)
    {
      assert ps[i] in ps;
    }
  }

  /** Every entry of that list is the category of some preset, with
      exactly that category's presets. */
  lemma ListedCategoriesOnly(ps: seq<PresetItem>, getCategoryIndex: int -> int, categoryName: int -> string)
    ensures forall c :: c in CategoriesBelow(GroupBy(ps, getCategoryIndex), categoryName,
                                             CategoryBound(ps, getCategoryIndex)) ==>
      exists i :: 0 <= i < |ps| &&
        (var k := getCategoryIndex(ps[i].programNumber);
         c == PresetCategory(categoryName(k), WithCategory(ps, getCategoryIndex, k)))
  {
    var groups := GroupBy(ps, getCategoryIndex);
    var bound := CategoryBound(ps, getCategoryIndex);
    CategoriesBelowMembers(groups, categoryName, bound);
    forall c | c in CategoriesBelow(groups, categoryName, bound)
      ensures
        exists i :: 0 <= i < |ps| &&
          (var k := getCategoryIndex(ps[i].programNumber);
           c == PresetCategory(categoryName(k), WithCategory(ps, getCategoryIndex, k)))
    {
      var k :| 0 <= k < bound && k in groups && c == PresetCategory(categoryName(k), groups[k]);
      var i := GroupOfSomePreset(ps, getCategoryIndex, k);
      assert 0 <= i < |ps| &&
        (var k' := getCategoryIndex(ps[i].programNumber);
         c == PresetCategory(categoryName(k'), WithCategory(ps, getCategoryIndex, k')));
    }
  }

  /** The group of a key is that of some preset's category. */
  lemma GroupOfSomePreset(ps: seq<PresetItem>, getCategoryIndex: int -> int, k: int) returns (i: int)
    requires k in GroupBy(ps, getCategoryIndex)
    ensures 0 <= i < |ps| && getCategoryIndex(ps[i].programNumber) == k
    ensures GroupBy(ps, getCategoryIndex)[k] == WithCategory(ps, getCategoryIndex, k)
  {
    GroupByGroups(ps, getCategoryIndex);
    i :| 0 <= i < |ps| && getCategoryIndex(ps[i].programNumber) == k;
  }

  lemma {:induction false} CategoriesBelowContiguous(groups: map<int, seq<PresetItem>>,
                                                     categoryName: int -> string, n: nat)
    requires forall k :: 0 <= k < n ==> k in groups
    ensures |CategoriesBelow(groups, categoryName, n)| == n
    ensures forall k :: 0 <= k < n ==>
      CategoriesBelow(groups, categoryName, n)[k] == PresetCategory(categoryName(k), groups[k])
  {
    if n > 0 {
      CategoriesBelowContiguous(groups, categoryName, n - 1);
    }
  }

  /** Some program from 0 to 127 has category `k`. */
  ghost predicate CategoryUsed(getCategoryIndex: int -> int, k: int)
  {
    exists p :: 0 <= p < 128 && getCategoryIndex(p) == k
  }

  /** When the categories used are exactly `0 .. B-1`, the list shows, for
      the category of the current program, exactly the presets of that
      category in program order. */
  lemma InstrumentsOfSelectedCategory(getInstrumentName: int -> string, getCategoryIndex: int -> int,
                                      categoryName: int -> string, programNumber: int)
    requires forall p :: 0 <= p < 128 ==> getCategoryIndex(p) >= 0
    requires forall k :: 0 <= k < CategoryBound(Presets(getInstrumentName), getCategoryIndex) ==>
      CategoryUsed(getCategoryIndex, k)
    requires 0 <= programNumber < 128
    ensures Instruments(PresetCategories(getInstrumentName, getCategoryIndex, categoryName),
                        getCategoryIndex(programNumber))
         == Some(WithCategory(Presets(getInstrumentName), getCategoryIndex, getCategoryIndex(programNumber)))
  {
    var ps := Presets(getInstrumentName);
    var groups := GroupBy(ps, getCategoryIndex);
    var bound := CategoryBound(ps, getCategoryIndex);
    GroupByGroups(ps, getCategoryIndex);
    forall k | 0 <= k < bound ensures k in groups {
      assert CategoryUsed(getCategoryIndex, k);
      var p :| 0 <= p < 128 && getCategoryIndex(p) == k;
      assert ps[p] in WithCategory(ps, getCategoryIndex, k);
    }
    CategoriesBelowContiguous(groups, categoryName, bound);
    var k := getCategoryIndex(programNumber);
    assert ps[programNumber] in WithCategory(ps, getCategoryIndex, k);
  }

  /** Categories of eight consecutive programs each, the layout
      `OnChangeCategory` relies on when it picks program `i * 8`. */
  function EightPerCategory(programNumber: int): (k: int)
    ensures 8 * k <= programNumber < 8 * k + 8
  {
    programNumber / 8
  }

  /** With eight programs per category the categories in use run from 0
      up to the bound without a gap. */
  lemma EightPerCategoryContiguous(getInstrumentName: int -> string)
    ensures forall k :: 0 <= k < CategoryBound(Presets(getInstrumentName), EightPerCategory) ==>
      CategoryUsed(EightPerCategory, k)
  {
    var ps := Presets(getInstrumentName);
    var b := CategoryBound(ps, EightPerCategory);
    if b > 0 {
      var i :| 0 <= i < |ps| && EightPerCategory(ps[i].programNumber) == b - 1;
      forall k | 0 <= k < b ensures CategoryUsed(EightPerCategory, k) {
        assert 8 * k <= 8 * (i / 8) <= i;
        assert EightPerCategory(8 * k) == k;
      }
    }
  }

  /** With eight programs per category, the dialog lists for program
      `programNumber` the eight-program block that holds it, in order. */
  lemma EightPerCategoryInstruments(getInstrumentName: int -> string, categoryName: int -> string,
                                    programNumber: int)
    requires 0 <= programNumber < 128
    ensures Instruments(PresetCategories(getInstrumentName, EightPerCategory, categoryName),
                        programNumber / 8)
         == Some(WithCategory(Presets(getInstrumentName), EightPerCategory, programNumber / 8))
  {
    EightPerCategoryContiguous(getInstrumentName);
    InstrumentsOfSelectedCategory(getInstrumentName, EightPerCategory, categoryName, programNumber);
  }

  // ---------------------------------------------------------------------
  // The wrapper: changes and OK

  /** A track's MIDI channel: unset, a number, or infinity (what taking the
      minimum of no free channels yields). */
  datatype Channel = Unset | Num(n: int) | Infinite

  /** The lowest channel from `c` to 15 that no other track uses; infinity
      when they are all in use. */
  function LowestFreeChannelFrom(used: seq<Channel>, c: nat): (r: Channel)
    requires c <= 16
    decreases 16 - c
    ensures r.Num? || r.Infinite?
    ensures r.Num? ==> c <= r.n < 16 && Num(r.n) !in used
    ensures r.Num? ==> forall k :: c <= k < r.n ==> Num(k) in used
    ensures r.Infinite? <==> forall k :: c <= k < 16 ==> Num(k) in used
  {
    if c == 16 then Infinite
    else if Num(c) !in used then Num(c)
    else LowestFreeChannelFrom(used, c + 1)
  }

  /** The channel after OK: 9 for a rhythm setting; for a track leaving
      rhythm, the lowest of channels 0 to 15 that no other track uses;
      otherwise the channel the track has. */
  function ChannelAfterOK(setting: InstrumentSetting, trackIsRhythm: bool, channel: Channel,
                          used: seq<Channel>): (r: Channel)
    ensures setting.isRhythmTrack ==> r == Num(9)
    ensures !setting.isRhythmTrack && !trackIsRhythm ==> r == channel
    ensures !setting.isRhythmTrack && trackIsRhythm ==>
      (r.Num? ==> 0 <= r.n < 16 && Num(r.n) !in used && forall k :: 0 <= k < r.n ==> Num(k) in used) &&
      (r.Infinite? <==> forall k :: 0 <= k < 16 ==> Num(k) in used) &&
      (r.Num? || r.Infinite?)
  {
    if setting.isRhythmTrack then Num(9)
    else if trackIsRhythm then LowestFreeChannelFrom(used, 0)
    else channel
  }

  class Track {
    var channel: Channel

    constructor (channel: Channel)
      ensures this.channel == channel
    {
      this.channel := channel;
    }
  }

  /** The channels of the tracks other than `track`. */
  function UsedChannels(tracks: seq<Track>, track: Track): (used: seq<Channel>)
    reads set t | t in tracks
    ensures forall t :: t in tracks && t != track ==> t.channel in used
    ensures forall c :: c in used ==> exists t :: t in tracks && t != track && t.channel == c
  {
    if tracks == [] then []
    else
      (if tracks[0] != track then [tracks[0].channel] else [])
        + UsedChannels(tracks[1..], track)
  }

  /** What the wrapper asks of the player and the application. */
  datatype Effect =
    | ProgramChange(channel: Channel, programNumber: int)
    | StartNote(noteNumber: int, velocity: int, channel: Channel)
    | StopNote(noteNumber: int, channel: Channel, delaySeconds: real)
    | SetTrackInstrument(trackId: int, programNumber: int)

  /** The piano-roll store's dialog state and the log of effects. */
  class PianoRollStore {
    var instrumentBrowserSetting: InstrumentSetting
    var openInstrumentBrowser: bool
    var effects: seq<Effect>

    constructor (setting: InstrumentSetting)
      ensures instrumentBrowserSetting == setting && !openInstrumentBrowser && effects == []
    {
      instrumentBrowserSetting := setting;
      openInstrumentBrowser := false;
      effects := [];
    }

    /** A new setting from the dialog: for a track with a channel, preview
        the program on that channel and store the setting; for a track
        without one, nothing. */
    method OnChange(track: Track, setting: InstrumentSetting)
      modifies this`instrumentBrowserSetting, this`effects
      ensures old(track.channel).Unset? ==>
        instrumentBrowserSetting == old(instrumentBrowserSetting) && effects == old(effects)
      ensures !old(track.channel).Unset? ==>
        instrumentBrowserSetting == setting &&
        effects == old(effects) + [ProgramChange(track.channel, setting.programNumber),
                                   StartNote(64, 100, track.channel),
                                   StopNote(64, track.channel, 0.5)]
    {
      var channel := track.channel;
      if channel.Unset? {
        return;
      }
      effects := effects + [ProgramChange(channel, setting.programNumber)];
      var noteNumber := 64;
      effects := effects + [StartNote(noteNumber, 100, channel)];
      effects := effects + [StopNote(noteNumber, channel, 0.5)];
      instrumentBrowserSetting := setting;
    }

    method OnClickCancel()
      modifies this`openInstrumentBrowser
      ensures !openInstrumentBrowser
    {
      openInstrumentBrowser := false;
    }

    /** OK: move the track to channel 9 with instrument 0 for a rhythm
        setting; otherwise move a rhythm track to the lowest free channel
        and set the chosen instrument. The dialog closes in every case.
        `trackIsRhythm` is whether the track is a rhythm track now. */
    method OnClickOK(track: Track, trackId: int, tracks: seq<Track>, trackIsRhythm: bool)
      modifies this`openInstrumentBrowser, this`effects, track
      ensures !openInstrumentBrowser
      ensures instrumentBrowserSetting == old(instrumentBrowserSetting)
      ensures track.channel == ChannelAfterOK(instrumentBrowserSetting, trackIsRhythm,
                                              old(track.channel), old(UsedChannels(tracks, track)))
      ensures effects == old(effects) + [SetTrackInstrument(trackId,
        if instrumentBrowserSetting.isRhythmTrack then 0 else instrumentBrowserSetting.programNumber)]
    {
      var setting := instrumentBrowserSetting;
      if setting.isRhythmTrack {
        track.channel := Num(9);
        effects := effects + [SetTrackInstrument(trackId, 0)];
      } else {
        if trackIsRhythm {
          var used := UsedChannels(tracks, track);
          track.channel := LowestFreeChannelFrom(used, 0);
        }
        effects := effects + [SetTrackInstrument(trackId, setting.programNumber)];
      }
      openInstrumentBrowser := false;
    }
  }
}
