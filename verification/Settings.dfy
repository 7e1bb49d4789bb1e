// The session settings, as they are written to a stream and read back.
module Settings {
  import opened Options
  import opened SettingsStream

  // Enumerations by their numeric values.
  const EMOJI := 0
  const STICKERS := 1
  const GIFS := 2
  const FIRST_COLUMN := 0
  const SECOND_COLUMN := 1
  const THIRD_COLUMN := 2
  const TOP_LEFT := 1
  const TOP_RIGHT := 4
  const BOTTOM_LEFT := 64
  const BOTTOM_RIGHT := 256
  const ALBUM := 0
  const PHOTOS := 1
  const FILES := 2
  const ENTER := 0
  const CTRL_ENTER := 1
  const NO_SWITCH := 0
  const SWITCH_NEXT := 1
  const SWITCH_PREVIOUS := 2
  const LEGACY_CALLS_NOBODY := 4

  // The settings, in four parts.
  datatype Tabs = Tabs(
    selectorTab: int, lastSeenWarningSeen: bool, tabbedEnabled: bool, tooltipShown: int, column: int, corner: int)

  datatype Sections = Sections(
    infoEnabled: bool, smallDialogsList: bool, ratio: real, thirdColumnWidth: int, thirdExtendedBy: int)

  datatype Ways = Ways(
    sendFilesWay: int, hadLegacyCallsNobody: bool, sendSubmitWay: int, supportSwitch: int)

  datatype Flags = Flags(
    fixChatsOrder: bool, templatesAutocomplete: bool, chatsTimeSlice: int, includeMuted: bool, countUnread: bool,
    exeLaunchWarning: bool, allSearchResults: bool)

  datatype Variables = Variables(
    tabs: Tabs, sections: Sections, ways: Ways, flags: Flags,
    soundOverrides: map<string, string>, stickersHidden: set<int>, autoDownload: seq<int>)

  // ---- The ratio ------------------------------------------------------------------------

  const MILLION := 1000000

  function Snap(n: int, low: int, high: int): int {
    if n < low then low else if high < n then high else n
  }

  function Millionths(ratio: real): (n: int)
    ensures 0 <= n <= MILLION
  {
    Snap((ratio * 1000000.0 + 0.5).Floor, 0, MILLION)
  }

  function FromMillionths(n: int): real {
    var x := n as real / 1000000.0;
    if x < 0.0 then 0.0 else if 1.0 < x then 1.0 else x
  }

  // A ratio comes back as the nearest millionth, and then stays.
  lemma RatioIsNearest(ratio: real)
    requires 0.0 <= ratio <= 1.0
    ensures -0.0000005 <= FromMillionths(Millionths(ratio)) - ratio <= 0.0000005
  {
    var x := ratio * 1000000.0 + 0.5;
    assert x - 1.0 < x.Floor as real <= x;
    assert 0 <= x.Floor <= MILLION;
  }

  lemma MillionthsStay(n: int)
    requires 0 <= n <= MILLION
    ensures Millionths(FromMillionths(n)) == n
  {
    assert (n as real / 1000000.0) * 1000000.0 == n as real;
    assert (n as real + 0.5).Floor == n;
  }

  // ---- From numbers to settings -------------------------------------------------------------

  function Bit(b: bool): int {
    if b then 1 else 0
  }

  // A value that is none of the enumeration leaves the setting as it was.
  function Among(n: int, low: int, high: int, now: int): int {
    if low <= n <= high then n else now
  }

  predicate IsCorner(n: int) {
    n == TOP_LEFT || n == TOP_RIGHT || n == BOTTOM_LEFT || n == BOTTOM_RIGHT
  }

  function AssignTabs(now: Tabs, r: Raw): Tabs
    requires |r.slots| == SLOTS
  {
    var corner := Slot(r, 5, TOP_RIGHT);
    Tabs(
      Among(Slot(r, 0, EMOJI), EMOJI, GIFS, now.selectorTab),
      Slot(r, 1, 0) == 1,
      Slot(r, 2, 1) == 1 && Slot(r, 6, 0) == 0,
      Slot(r, 3, 0),
      Among(Slot(r, 4, SECOND_COLUMN), FIRST_COLUMN, THIRD_COLUMN, now.column),
      if IsCorner(corner) then corner else now.corner)
  }

  function AssignSections(now: Sections, r: Raw): Sections
    requires |r.slots| == SLOTS
  {
    Sections(
      Slot(r, 6, 0) != 0,
      Slot(r, 7, 0) != 0,
      if r.slots[8].Some? then FromMillionths(r.slots[8].value) else now.ratio,
      Slot(r, 9, now.thirdColumnWidth),
      Slot(r, 10, now.thirdExtendedBy))
  }

  function AssignWays(now: Ways, r: Raw): Ways
    requires |r.slots| == SLOTS
  {
    Ways(
      Among(Slot(r, 11, now.sendFilesWay), ALBUM, FILES, now.sendFilesWay),
      Slot(r, 12, 0) == LEGACY_CALLS_NOBODY,
      Among(Slot(r, 13, now.sendSubmitWay), ENTER, CTRL_ENTER, now.sendSubmitWay),
      Among(Slot(r, 14, now.supportSwitch), NO_SWITCH, SWITCH_PREVIOUS, now.supportSwitch))
  }

  function AssignFlags(now: Flags, r: Raw): Flags
    requires |r.slots| == SLOTS
  {
    Flags(
      Slot(r, 15, Bit(now.fixChatsOrder)) == 1,
      Slot(r, 16, Bit(now.templatesAutocomplete)) == 1,
      Slot(r, 17, now.chatsTimeSlice),
      Slot(r, 18, Bit(now.includeMuted)) == 1,
      Slot(r, 19, Bit(now.countUnread)) == 1,
      Slot(r, 20, Bit(now.exeLaunchWarning)) == 1,
      Slot(r, 21, Bit(now.allSearchResults)) == 1)
  }

  function Assign(now: Variables, r: Raw): Variables
    requires |r.slots| == SLOTS
  {
    Variables(
      AssignTabs(now.tabs, r), AssignSections(now.sections, r), AssignWays(now.ways, r), AssignFlags(now.flags, r),
      r.sounds, r.hidden, if r.autoDownload == [] then now.autoDownload else r.autoDownload)
  }

  // `accepts` is whether the download settings can be set from these bytes.
  function Parse(now: Variables, tokens: seq<Token>, accepts: seq<int> -> bool): Variables {
    if tokens == [] then now
    else
      var p := ReadUpTo(Input(NOTHING, tokens, true), GROUPS);
      if !p.ok || (p.raw.autoDownload != [] && !accepts(p.raw.autoDownload)) then now
      else Assign(now, p.raw)
  }

  // ---- From settings to numbers ---------------------------------------------------------------

  function TabSlots(t: Tabs): (s: seq<Option<int>>)
    ensures |s| == 6 && forall i :: 0 <= i < 6 ==> s[i].Some?
  {
    [Some(t.selectorTab), Some(Bit(t.lastSeenWarningSeen)), Some(Bit(t.tabbedEnabled)), Some(t.tooltipShown),
     Some(t.column), Some(t.corner)]
  }

  function SectionSlots(s: Sections): (r: seq<Option<int>>)
    ensures |r| == 5 && forall i :: 0 <= i < 5 ==> r[i].Some?
  {
    [Some(Bit(s.infoEnabled)), Some(Bit(s.smallDialogsList)), Some(Millionths(s.ratio)), Some(s.thirdColumnWidth),
     Some(s.thirdExtendedBy)]
  }

  // The second is the value older versions read, always zero now.
  function WaySlots(w: Ways): (s: seq<Option<int>>)
    ensures |s| == 4 && forall i :: 0 <= i < 4 ==> s[i].Some?
  {
    [Some(w.sendFilesWay), Some(0), Some(w.sendSubmitWay), Some(w.supportSwitch)]
  }

  function FlagSlots(f: Flags): (s: seq<Option<int>>)
    ensures |s| == 7 && forall i :: 0 <= i < 7 ==> s[i].Some?
  {
    [Some(Bit(f.fixChatsOrder)), Some(Bit(f.templatesAutocomplete)), Some(f.chatsTimeSlice), Some(Bit(f.includeMuted)),
     Some(Bit(f.countUnread)), Some(Bit(f.exeLaunchWarning)), Some(Bit(f.allSearchResults))]
  }

  function SlotsOf(v: Variables): (s: seq<Option<int>>)
    ensures |s| == SLOTS && forall i :: 0 <= i < SLOTS ==> s[i].Some?
  {
    TabSlots(v.tabs) + SectionSlots(v.sections) + WaySlots(v.ways) + FlagSlots(v.flags)
  }

  function RawOf(v: Variables): Raw {
    Raw(SlotsOf(v), v.soundOverrides, v.stickersHidden, v.autoDownload)
  }

  // ---- What comes back --------------------------------------------------------------------------

  // The settings the format can hold: known values, and one third section at most.
  predicate Proper(v: Variables) {
    && EMOJI <= v.tabs.selectorTab <= GIFS && FIRST_COLUMN <= v.tabs.column <= THIRD_COLUMN && IsCorner(v.tabs.corner)
    && ALBUM <= v.ways.sendFilesWay <= FILES && ENTER <= v.ways.sendSubmitWay <= CTRL_ENTER
    && NO_SWITCH <= v.ways.supportSwitch <= SWITCH_PREVIOUS
    && !(v.tabs.tabbedEnabled && v.sections.infoEnabled)
  }

  // The same in the numbers of the enumerations.
  lemma ProperMeans(v: Variables)
    ensures Proper(v) <==>
              && v.tabs.selectorTab in {0, 1, 2} && v.tabs.column in {0, 1, 2} && v.tabs.corner in {1, 4, 64, 256}
              && v.ways.sendFilesWay in {0, 1, 2} && v.ways.sendSubmitWay in {0, 1}
              && v.ways.supportSwitch in {0, 1, 2}
              && (!v.tabs.tabbedEnabled || !v.sections.infoEnabled)
  {
  }

  // What a stream that ends after `n` groups gives: the settings in it, and for the others
  // their declared defaults or what they were.
  function RestoredTabs(t: Tabs, n: nat): Tabs {
    Tabs(
      t.selectorTab,
      t.lastSeenWarningSeen,
      if n > 1 then t.tabbedEnabled else true,
      if n > 3 then t.tooltipShown else 0,
      if n > 4 then t.column else SECOND_COLUMN,
      if n > 4 then t.corner else TOP_RIGHT)
  }

  function RestoredSections(now: Sections, s: Sections, n: nat): Sections {
    Sections(
      n > 6 && s.infoEnabled,
      n > 6 && s.smallDialogsList,
      if n > 7 then FromMillionths(Millionths(s.ratio)) else now.ratio,
      if n > 7 then s.thirdColumnWidth else now.thirdColumnWidth,
      if n > 7 then s.thirdExtendedBy else now.thirdExtendedBy)
  }

  function RestoredWays(now: Ways, w: Ways, n: nat): Ways {
    Ways(
      if n > 8 then w.sendFilesWay else now.sendFilesWay,
      false,
      if n > 10 then w.sendSubmitWay else now.sendSubmitWay,
      if n > 10 then w.supportSwitch else now.supportSwitch)
  }

  function RestoredFlags(now: Flags, f: Flags, n: nat): Flags {
    Flags(
      if n > 10 then f.fixChatsOrder else now.fixChatsOrder,
      if n > 11 then f.templatesAutocomplete else now.templatesAutocomplete,
      if n > 12 then f.chatsTimeSlice else now.chatsTimeSlice,
      if n > 13 then f.includeMuted else now.includeMuted,
      if n > 13 then f.countUnread else now.countUnread,
      if n > 14 then f.exeLaunchWarning else now.exeLaunchWarning,
      if n > 16 then f.allSearchResults else now.allSearchResults)
  }

  function Restored(now: Variables, v: Variables, n: nat): Variables {
    Variables(
      RestoredTabs(v.tabs, n), RestoredSections(now.sections, v.sections, n), RestoredWays(now.ways, v.ways, n),
      RestoredFlags(now.flags, v.flags, n),
      if n > 2 then v.soundOverrides else map[],
      if n > 5 then v.stickersHidden else {},
      if n > 15 then v.autoDownload else now.autoDownload)
  }

  // The stream up to the end of the n-th group; all of it for `GROUPS`.
  function Stream(v: Variables, n: nat, keys: seq<string>, peers: seq<int>): seq<Token>
    requires n <= GROUPS && forall i :: 0 <= i < |keys| ==> keys[i] in v.soundOverrides
  {
    WrittenRange(RawOf(v), 0, n, keys, peers)
  }

  ghost predicate Orders(v: Variables, keys: seq<string>, peers: seq<int>) {
    && Enumerates(keys, v.soundOverrides.Keys) && Enumerates(peers, v.stickersHidden)
    && (forall i :: 0 <= i < |keys| ==> keys[i] in v.soundOverrides)
  }

  // Each setting is in its place, unless the stream ended before it.
  predicate HoldsTabs(r: Raw, n: nat, t: Tabs) {
    && Holds(r, n, 0, t.selectorTab) && Holds(r, n, 1, Bit(t.lastSeenWarningSeen))
    && Holds(r, n, 2, Bit(t.tabbedEnabled)) && Holds(r, n, 3, t.tooltipShown)
    && Holds(r, n, 4, t.column) && Holds(r, n, 5, t.corner)
  }

  predicate HoldsSections(r: Raw, n: nat, s: Sections) {
    && Holds(r, n, 6, Bit(s.infoEnabled)) && Holds(r, n, 7, Bit(s.smallDialogsList))
    && Holds(r, n, 8, Millionths(s.ratio)) && Holds(r, n, 9, s.thirdColumnWidth) && Holds(r, n, 10, s.thirdExtendedBy)
  }

  predicate HoldsWays(r: Raw, n: nat, w: Ways) {
    && Holds(r, n, 11, w.sendFilesWay) && Holds(r, n, 12, 0)
    && Holds(r, n, 13, w.sendSubmitWay) && Holds(r, n, 14, w.supportSwitch)
  }

  predicate HoldsFlags(r: Raw, n: nat, f: Flags) {
    && Holds(r, n, 15, Bit(f.fixChatsOrder)) && Holds(r, n, 16, Bit(f.templatesAutocomplete))
    && Holds(r, n, 17, f.chatsTimeSlice) && Holds(r, n, 18, Bit(f.includeMuted)) && Holds(r, n, 19, Bit(f.countUnread))
    && Holds(r, n, 20, Bit(f.exeLaunchWarning)) && Holds(r, n, 21, Bit(f.allSearchResults))
  }

  lemma TabsWritten(v: Variables)
    ensures HoldsTabs(RawOf(v), GROUPS, v.tabs)
  {
    var s := SlotsOf(v);
    assert s[..6] == TabSlots(v.tabs);
    assert forall i :: 0 <= i < 6 ==> s[i] == s[..6][i];
  }

  lemma SectionsWritten(v: Variables)
    ensures HoldsSections(RawOf(v), GROUPS, v.sections)
  {
    var s, part := SlotsOf(v), SectionSlots(v.sections);
    assert s[6..11] == part;
    assert s[6] == part[0] && s[7] == part[1] && s[8] == part[2] && s[9] == part[3] && s[10] == part[4];
  }

  lemma WaysWritten(v: Variables)
    ensures HoldsWays(RawOf(v), GROUPS, v.ways)
  {
    var s, part := SlotsOf(v), WaySlots(v.ways);
    assert s[11..15] == part;
    assert s[11] == part[0] && s[12] == part[1] && s[13] == part[2] && s[14] == part[3];
  }

  lemma FlagsWritten(v: Variables)
    ensures HoldsFlags(RawOf(v), GROUPS, v.flags)
  {
    var s, part := SlotsOf(v), FlagSlots(v.flags);
    assert s[15..] == part;
    assert s[15] == part[0] && s[16] == part[1] && s[17] == part[2] && s[18] == part[3];
    assert s[19] == part[4] && s[20] == part[5] && s[21] == part[6];
  }

  // A place of the whole stream is that place of the cut one, unless the stream ended before it.
  lemma CutHolds(r: Raw, n: nat, i: nat, value: int)
    requires n <= GROUPS && Holds(r, GROUPS, i, value)
    ensures Holds(Cut(r, n), n, i, value)
  {
    CutSlot(r, n, i);
  }

  lemma CutTabs(r: Raw, n: nat, t: Tabs)
    requires n <= GROUPS && HoldsTabs(r, GROUPS, t)
    ensures HoldsTabs(Cut(r, n), n, t)
  {
    CutHolds(r, n, 0, t.selectorTab);
    CutHolds(r, n, 1, Bit(t.lastSeenWarningSeen));
    CutHolds(r, n, 2, Bit(t.tabbedEnabled));
    CutHolds(r, n, 3, t.tooltipShown);
    CutHolds(r, n, 4, t.column);
    CutHolds(r, n, 5, t.corner);
  }

  lemma CutSections(r: Raw, n: nat, s: Sections)
    requires n <= GROUPS && HoldsSections(r, GROUPS, s)
    ensures HoldsSections(Cut(r, n), n, s)
  {
    CutHolds(r, n, 6, Bit(s.infoEnabled));
    CutHolds(r, n, 7, Bit(s.smallDialogsList));
    CutHolds(r, n, 8, Millionths(s.ratio));
    CutHolds(r, n, 9, s.thirdColumnWidth);
    CutHolds(r, n, 10, s.thirdExtendedBy);
  }

  lemma CutWays(r: Raw, n: nat, w: Ways)
    requires n <= GROUPS && HoldsWays(r, GROUPS, w)
    ensures HoldsWays(Cut(r, n), n, w)
  {
    CutHolds(r, n, 11, w.sendFilesWay);
    CutHolds(r, n, 12, 0);
    CutHolds(r, n, 13, w.sendSubmitWay);
    CutHolds(r, n, 14, w.supportSwitch);
  }

  lemma CutFlags(r: Raw, n: nat, f: Flags)
    requires n <= GROUPS && HoldsFlags(r, GROUPS, f)
    ensures HoldsFlags(Cut(r, n), n, f)
  {
    CutHolds(r, n, 15, Bit(f.fixChatsOrder));
    CutHolds(r, n, 16, Bit(f.templatesAutocomplete));
    CutHolds(r, n, 17, f.chatsTimeSlice);
    CutHolds(r, n, 18, Bit(f.includeMuted));
    CutHolds(r, n, 19, Bit(f.countUnread));
    CutHolds(r, n, 20, Bit(f.exeLaunchWarning));
    CutHolds(r, n, 21, Bit(f.allSearchResults));
  }

  lemma TabsBack(now: Tabs, v: Variables, n: nat, r: Raw)
    requires Proper(v) && 1 <= n <= GROUPS && HoldsTabs(r, n, v.tabs) && HoldsSections(r, n, v.sections)
    ensures AssignTabs(now, r) == RestoredTabs(v.tabs, n)
  {
  }

  lemma SectionsBack(now: Sections, s: Sections, n: nat, r: Raw)
    requires 1 <= n <= GROUPS && HoldsSections(r, n, s)
    ensures AssignSections(now, r) == RestoredSections(now, s, n)
  {
  }

  lemma WaysBack(now: Ways, v: Variables, n: nat, r: Raw)
    requires Proper(v) && 1 <= n <= GROUPS && HoldsWays(r, n, v.ways)
    ensures AssignWays(now, r) == RestoredWays(now, v.ways, n)
  {
  }

  lemma FlagsBack(now: Flags, f: Flags, n: nat, r: Raw)
    requires 1 <= n <= GROUPS && HoldsFlags(r, n, f)
    ensures AssignFlags(now, r) == RestoredFlags(now, f, n)
  {
  }

  lemma AssignCut(now: Variables, v: Variables, n: nat)
    requires Proper(v) && v.autoDownload != [] && 1 <= n <= GROUPS
    ensures Assign(now, Cut(RawOf(v), n)) == Restored(now, v, n)
  {
    var whole, r := RawOf(v), Cut(RawOf(v), n);
    TabsWritten(v);
    SectionsWritten(v);
    WaysWritten(v);
    FlagsWritten(v);
    CutTabs(whole, n, v.tabs);
    CutSections(whole, n, v.sections);
    CutWays(whole, n, v.ways);
    CutFlags(whole, n, v.flags);
    TabsBack(now.tabs, v, n, r);
    SectionsBack(now.sections, v.sections, n, r);
    WaysBack(now.ways, v, n, r);
    FlagsBack(now.flags, v.flags, n, r);
    CutSounds(whole, n);
  }

  // Main result: a stream that ends after any group is read, and gives what is in it.
  lemma CutStreamParses(
      now: Variables, v: Variables, n: nat, keys: seq<string>, peers: seq<int>, accepts: seq<int> -> bool)
    requires Proper(v) && Orders(v, keys, peers) && 1 <= n <= GROUPS
    requires v.autoDownload != [] && accepts(v.autoDownload)
    ensures Parse(now, Stream(v, n, keys, peers), accepts) == Restored(now, v, n)
  {
    var r := RawOf(v);
    assert Listed(r, keys, peers);
    WrittenSome(r, 0, n, keys, peers);
    ReadCut(r, n, keys, peers);
    CutSounds(r, n);
    AssignCut(now, v, n);
  }

  // Main result: one that ends within a group changes nothing.
  lemma BrokenStreamIsIgnored(
      now: Variables, v: Variables, n: nat, m: nat, keys: seq<string>, peers: seq<int>, accepts: seq<int> -> bool)
    requires Orders(v, keys, peers) && n < GROUPS
    requires 0 < m < |Written(RawOf(v), GroupAt(n), keys, peers)|
    ensures Parse(now, Stream(v, n, keys, peers) + Written(RawOf(v), GroupAt(n), keys, peers)[..m], accepts) == now
  {
    assert Listed(RawOf(v), keys, peers);
    CutWithinFails(RawOf(v), n, m, keys, peers);
  }

  lemma AssignIsProper(now: Variables, r: Raw)
    requires Proper(now) && |r.slots| == SLOTS
    ensures Proper(Assign(now, r))
  {
  }

  // Whatever the stream, what it leaves is proper if what was there was.
  lemma ParseKeepsProper(now: Variables, tokens: seq<Token>, accepts: seq<int> -> bool)
    requires Proper(now)
    ensures Proper(Parse(now, tokens, accepts))
  {
    if tokens != [] {
      AssignIsProper(now, ReadUpTo(Input(NOTHING, tokens, true), GROUPS).raw);
    }
  }

  // The settings with the ratio to the nearest millionth and without the old calls value.
  function Kept(v: Variables): Variables {
    v.(sections := v.sections.(ratio := FromMillionths(Millionths(v.sections.ratio))),
       ways := v.ways.(hadLegacyCallsNobody := false))
  }

  lemma RestoredIsKept(now: Variables, v: Variables)
    ensures Restored(now, v, GROUPS) == Kept(v)
  {
  }

  // Main result: read over proper settings, the whole stream gives back every setting if
  // and only if the settings written were proper.
  lemma RoundTripIff(
      now: Variables, v: Variables, keys: seq<string>, peers: seq<int>, accepts: seq<int> -> bool)
    requires Proper(now) && Orders(v, keys, peers) && v.autoDownload != [] && accepts(v.autoDownload)
    ensures Parse(now, Stream(v, GROUPS, keys, peers), accepts) == Kept(v) <==> Proper(v)
  {
    if Proper(v) {
      CutStreamParses(now, v, GROUPS, keys, peers, accepts);
      RestoredIsKept(now, v);
    } else {
      ParseKeepsProper(now, Stream(v, GROUPS, keys, peers), accepts);
      assert !Proper(Kept(v));
    }
  }

  lemma SameNumbers(v: Variables)
    ensures RawOf(Kept(v)) == RawOf(v)
  {
    MillionthsStay(Millionths(v.sections.ratio));
    assert SectionSlots(Kept(v).sections) == SectionSlots(v.sections) && WaySlots(Kept(v).ways) == WaySlots(v.ways);
  }

  // Writing again what was read gives the same stream.
  lemma RewriteIsSame(now: Variables, v: Variables, keys: seq<string>, peers: seq<int>, accepts: seq<int> -> bool)
    requires Proper(v) && Orders(v, keys, peers) && v.autoDownload != [] && accepts(v.autoDownload)
    ensures var back := Parse(now, Stream(v, GROUPS, keys, peers), accepts);
            && back.soundOverrides == v.soundOverrides
            && Stream(back, GROUPS, keys, peers) == Stream(v, GROUPS, keys, peers)
  {
    CutStreamParses(now, v, GROUPS, keys, peers, accepts);
    RestoredIsKept(now, v);
    SameNumbers(v);
  }

  // ---- The settings the client can have ----------------------------------------------------------

  // Everything that changes settings. `Others` stands for the setters that take any value:
  // it changes what no condition is on.
  datatype Change =
    | SelectorTab(n: int) | Column(n: int) | Corner(n: int)
    | FilesWay(n: int) | SubmitWay(n: int) | SupportSwitch(n: int)
    | Tabbed(enabled: bool) | Info(enabled: bool)
    | Others(w: Variables)
    | ReadFrom(tokens: seq<Token>)

  // What the callers of the setters pass: values of the enumerations, for the submit way
  // one of the two that are offered, and download settings that can be read back.
  predicate Known(c: Change, accepts: seq<int> -> bool) {
    match c
    case SelectorTab(n) => EMOJI <= n <= GIFS
    case Column(n) => FIRST_COLUMN <= n <= THIRD_COLUMN
    case Corner(n) => IsCorner(n)
    case FilesWay(n) => ALBUM <= n <= FILES
    case SubmitWay(n) => ENTER <= n <= CTRL_ENTER
    case SupportSwitch(n) => NO_SWITCH <= n <= SWITCH_PREVIOUS
    case Others(w) => Downloads(w, accepts)
    case _ => true
  }

  predicate Downloads(v: Variables, accepts: seq<int> -> bool) {
    v.autoDownload != [] && accepts(v.autoDownload)
  }

  function WithTabbed(v: Variables, enabled: bool): Variables {
    v.(tabs := v.tabs.(tabbedEnabled := enabled),
       sections := v.sections.(infoEnabled := v.sections.infoEnabled && !enabled))
  }

  function WithInfo(v: Variables, enabled: bool): Variables {
    v.(tabs := v.tabs.(tabbedEnabled := v.tabs.tabbedEnabled && !(enabled && !v.sections.infoEnabled)),
       sections := v.sections.(infoEnabled := enabled))
  }

  // `w`, but for what a condition is on.
  function WithOthers(v: Variables, w: Variables): Variables {
    w.(tabs := w.tabs.(selectorTab := v.tabs.selectorTab, column := v.tabs.column, corner := v.tabs.corner,
                       tabbedEnabled := v.tabs.tabbedEnabled),
       sections := w.sections.(infoEnabled := v.sections.infoEnabled),
       ways := v.ways)
  }

  function Changed(v: Variables, c: Change, accepts: seq<int> -> bool): Variables {
    match c
    case SelectorTab(n) => v.(tabs := v.tabs.(selectorTab := n))
    case Column(n) => v.(tabs := v.tabs.(column := n))
    case Corner(n) => v.(tabs := v.tabs.(corner := n))
    case FilesWay(n) => v.(ways := v.ways.(sendFilesWay := n))
    case SubmitWay(n) => v.(ways := v.ways.(sendSubmitWay := n))
    case SupportSwitch(n) => v.(ways := v.ways.(supportSwitch := n))
    case Tabbed(enabled) => WithTabbed(v, enabled)
    case Info(enabled) => WithInfo(v, enabled)
    case Others(w) => WithOthers(v, w)
    case ReadFrom(tokens) => Parse(v, tokens, accepts)
  }

  function Defaults(autoDownload: seq<int>): Variables {
    Variables(
      Tabs(EMOJI, false, false, 0, SECOND_COLUMN, TOP_RIGHT),
      Sections(true, false, 5.0 / 14.0, 0, -1),
      Ways(ALBUM, false, ENTER, SWITCH_NEXT),
      Flags(true, true, 604800, true, true, true, false),
      map[], {}, autoDownload)
  }

  function After(autoDownload: seq<int>, changes: seq<Change>, accepts: seq<int> -> bool): Variables {
    if changes == [] then Defaults(autoDownload)
    else Changed(After(autoDownload, changes[..|changes| - 1], accepts), changes[|changes| - 1], accepts)
  }

  // What each setter sets, and that it leaves the rest alone.
  lemma SettersSet(v: Variables, enabled: bool)
    ensures var t := WithTabbed(v, enabled);
            && t.tabs.tabbedEnabled == enabled && (enabled ==> !t.sections.infoEnabled)
            && (!enabled ==> t.sections == v.sections)
            && t.tabs.(tabbedEnabled := false) == v.tabs.(tabbedEnabled := false)
            && t.sections.(infoEnabled := false) == v.sections.(infoEnabled := false)
            && t.ways == v.ways && t.flags == v.flags
    ensures var t := WithInfo(v, enabled);
            && t.sections.infoEnabled == enabled && (enabled && !v.sections.infoEnabled ==> !t.tabs.tabbedEnabled)
            && (!enabled ==> t.tabs == v.tabs)
            && t.tabs.(tabbedEnabled := false) == v.tabs.(tabbedEnabled := false)
            && t.sections.(infoEnabled := false) == v.sections.(infoEnabled := false)
            && t.ways == v.ways && t.flags == v.flags
  {
  }

  lemma ChangeKeepsProper(v: Variables, c: Change, accepts: seq<int> -> bool)
    requires Proper(v) && Downloads(v, accepts) && Known(c, accepts)
    ensures Proper(Changed(v, c, accepts)) && Downloads(Changed(v, c, accepts), accepts)
  {
    if c.ReadFrom? { ParseKeepsProper(v, c.tokens, accepts); }
  }

  ghost predicate AllKnown(changes: seq<Change>, accepts: seq<int> -> bool) {
    forall i :: 0 <= i < |changes| ==> Known(changes[i], accepts)
  }

  lemma {:induction false} ReachableProper(autoDownload: seq<int>, changes: seq<Change>, accepts: seq<int> -> bool)
    requires autoDownload != [] && accepts(autoDownload) && AllKnown(changes, accepts)
    ensures Proper(After(autoDownload, changes, accepts)) && Downloads(After(autoDownload, changes, accepts), accepts)
  {
    if changes != [] {
      var n := |changes| - 1;
      ReachableProper(autoDownload, changes[..n], accepts);
      ChangeKeepsProper(After(autoDownload, changes[..n], accepts), changes[n], accepts);
    }
  }

  // Main result: whatever was set in one session and in another, the settings of the first
  // come back when the second reads them.
  lemma ReachableRoundTrip(
      auto: seq<int>, changes: seq<Change>, other: seq<int>, before: seq<Change>, accepts: seq<int> -> bool,
      keys: seq<string>, peers: seq<int>)
    requires auto != [] && accepts(auto) && AllKnown(changes, accepts)
    requires other != [] && accepts(other) && AllKnown(before, accepts)
    requires Orders(After(auto, changes, accepts), keys, peers)
    ensures var v := After(auto, changes, accepts);
            Parse(After(other, before, accepts), Stream(v, GROUPS, keys, peers), accepts) == Kept(v)
  {
    ReachableProper(auto, changes, accepts);
    ReachableProper(other, before, accepts);
    RoundTripIff(After(other, before, accepts), After(auto, changes, accepts), keys, peers, accepts);
  }

  // ---- The stream, value by value -------------------------------------------------------------------

  ghost predicate FirstParts(
      ps: seq<seq<Token>>, t: Tabs, s: Sections, sounds: map<string, string>, keys: seq<string>, peers: seq<int>)
    requires |ps| == GROUPS && forall i :: 0 <= i < |keys| ==> keys[i] in sounds
  {
    && ps[0] == AsTokens([t.selectorTab, Bit(t.lastSeenWarningSeen)]) && ps[1] == AsTokens([Bit(t.tabbedEnabled)])
    && ps[2] == [Int(|keys|)] + Pairs(keys, sounds) && ps[3] == AsTokens([t.tooltipShown])
    && ps[4] == AsTokens([t.column, t.corner]) && ps[5] == [Int(|peers|)] + Ids(peers)
    && ps[6] == AsTokens([Bit(s.infoEnabled), Bit(s.smallDialogsList)])
  }

  ghost predicate MiddleParts(ps: seq<seq<Token>>, s: Sections, w: Ways, f: Flags)
    requires |ps| == GROUPS
  {
    && ps[7] == AsTokens([Millionths(s.ratio), s.thirdColumnWidth, s.thirdExtendedBy])
    && ps[8] == AsTokens([w.sendFilesWay]) && ps[9] == AsTokens([0])
    && ps[10] == AsTokens([w.sendSubmitWay, w.supportSwitch, Bit(f.fixChatsOrder)])
  }

  ghost predicate LastParts(ps: seq<seq<Token>>, f: Flags, autoDownload: seq<int>)
    requires |ps| == GROUPS
  {
    && ps[11] == AsTokens([Bit(f.templatesAutocomplete)]) && ps[12] == AsTokens([f.chatsTimeSlice])
    && ps[13] == AsTokens([Bit(f.includeMuted), Bit(f.countUnread)]) && ps[14] == AsTokens([Bit(f.exeLaunchWarning)])
    && ps[15] == [Bytes(autoDownload)] && ps[16] == AsTokens([Bit(f.allSearchResults)])
  }

  lemma FirstWritten(r: Raw, t: Tabs, s: Sections, keys: seq<string>, peers: seq<int>)
    requires HoldsTabs(r, GROUPS, t) && HoldsSections(r, GROUPS, s)
    requires forall i :: 0 <= i < |keys| ==> keys[i] in r.sounds
    ensures FirstParts(Parts(r, keys, peers), t, s, r.sounds, keys, peers)
  {
    NumbersPart(r, 0, 0, [t.selectorTab, Bit(t.lastSeenWarningSeen)], keys, peers);
    NumbersPart(r, 1, 2, [Bit(t.tabbedEnabled)], keys, peers);
    PartAt(r, 2, keys, peers);
    NumbersPart(r, 3, 3, [t.tooltipShown], keys, peers);
    NumbersPart(r, 4, 4, [t.column, t.corner], keys, peers);
    PartAt(r, 5, keys, peers);
    NumbersPart(r, 6, 6, [Bit(s.infoEnabled), Bit(s.smallDialogsList)], keys, peers);
  }

  lemma MiddleWritten(r: Raw, s: Sections, w: Ways, f: Flags, keys: seq<string>, peers: seq<int>)
    requires HoldsSections(r, GROUPS, s) && HoldsWays(r, GROUPS, w) && HoldsFlags(r, GROUPS, f)
    requires forall i :: 0 <= i < |keys| ==> keys[i] in r.sounds
    ensures MiddleParts(Parts(r, keys, peers), s, w, f)
  {
    NumbersPart(r, 7, 8, [Millionths(s.ratio), s.thirdColumnWidth, s.thirdExtendedBy], keys, peers);
    NumbersPart(r, 8, 11, [w.sendFilesWay], keys, peers);
    NumbersPart(r, 9, 12, [0], keys, peers);
    NumbersPart(r, 10, 13, [w.sendSubmitWay, w.supportSwitch, Bit(f.fixChatsOrder)], keys, peers);
  }

  lemma LastWritten(r: Raw, f: Flags, keys: seq<string>, peers: seq<int>)
    requires HoldsFlags(r, GROUPS, f)
    requires forall i :: 0 <= i < |keys| ==> keys[i] in r.sounds
    ensures LastParts(Parts(r, keys, peers), f, r.autoDownload)
  {
    NumbersPart(r, 11, 16, [Bit(f.templatesAutocomplete)], keys, peers);
    NumbersPart(r, 12, 17, [f.chatsTimeSlice], keys, peers);
    NumbersPart(r, 13, 18, [Bit(f.includeMuted), Bit(f.countUnread)], keys, peers);
    NumbersPart(r, 14, 20, [Bit(f.exeLaunchWarning)], keys, peers);
    PartAt(r, 15, keys, peers);
    NumbersPart(r, 16, 21, [Bit(f.allSearchResults)], keys, peers);
  }

  lemma SettingsParts(v: Variables, keys: seq<string>, peers: seq<int>)
    requires Orders(v, keys, peers)
    ensures var ps := Parts(RawOf(v), keys, peers);
            && FirstParts(ps, v.tabs, v.sections, v.soundOverrides, keys, peers)
            && MiddleParts(ps, v.sections, v.ways, v.flags) && LastParts(ps, v.flags, v.autoDownload)
  {
    TabsWritten(v);
    SectionsWritten(v);
    WaysWritten(v);
    FlagsWritten(v);
    FirstWritten(RawOf(v), v.tabs, v.sections, keys, peers);
    MiddleWritten(RawOf(v), v.sections, v.ways, v.flags, keys, peers);
    LastWritten(RawOf(v), v.flags, keys, peers);
  }

  // ---- The class ---------------------------------------------------------------------------------

  class AuthSessionSettings {
    var tabs: Tabs
    var sections: Sections
    var ways: Ways
    var flags: Flags
    var soundOverrides: map<string, string>
    var stickersHidden: set<int>
    var autoDownload: seq<int>
    var tabbedReplacedWithInfo: bool

    function View(): Variables
      reads this
    {
      Variables(tabs, sections, ways, flags, soundOverrides, stickersHidden, autoDownload)
    }

    constructor (autoDownload: seq<int>)
      ensures View() == Defaults(autoDownload)
    {
      tabs := Tabs(EMOJI, false, false, 0, SECOND_COLUMN, TOP_RIGHT);
      sections := Sections(true, false, 5.0 / 14.0, 0, -1);
      ways := Ways(ALBUM, false, ENTER, SWITCH_NEXT);
      flags := Flags(true, true, 604800, true, true, true, false);
      soundOverrides, stickersHidden, this.autoDownload := map[], {}, autoDownload;
      tabbedReplacedWithInfo := false;
    }

    // `keys` and `peers` are the orders in which the map and the set are gone through.
    method Serialize(keys: seq<string>, peers: seq<int>) returns (result: seq<Token>)
      requires Orders(View(), keys, peers)
      ensures result == Stream(View(), GROUPS, keys, peers)
    {
      ghost var v := View();
      ghost var parts := Parts(RawOf(v), keys, peers);
      SettingsParts(v, keys, peers);
      var stream := new Writer(parts);
      WriteFirst(stream, keys, peers);
      WriteMiddle(stream);
      WriteLast(stream);
      result := stream.tokens;
    }

    method WriteFirst(stream: Writer, keys: seq<string>, peers: seq<int>)
      requires stream.Valid() && stream.done == 0 && |stream.parts| == GROUPS
      requires forall i :: 0 <= i < |keys| ==> keys[i] in soundOverrides
      requires FirstParts(stream.parts, tabs, sections, soundOverrides, keys, peers)
      modifies stream
      ensures stream.Valid() && stream.done == 7
    {
      stream.Numbers([tabs.selectorTab, Bit(tabs.lastSeenWarningSeen)]);
      stream.Numbers([Bit(tabs.tabbedEnabled)]);
      stream.SoundOverrides(keys, soundOverrides);
      stream.Numbers([tabs.tooltipShown]);
      stream.Numbers([tabs.column, tabs.corner]);
      stream.StickersHidden(peers);
      stream.Numbers([Bit(sections.infoEnabled), Bit(sections.smallDialogsList)]);
    }

    method WriteMiddle(stream: Writer)
      requires stream.Valid() && stream.done == 7 && |stream.parts| == GROUPS
      requires MiddleParts(stream.parts, sections, ways, flags)
      modifies stream
      ensures stream.Valid() && stream.done == 11
    {
      stream.Numbers([Millionths(sections.ratio), sections.thirdColumnWidth, sections.thirdExtendedBy]);
      stream.Numbers([ways.sendFilesWay]);
      stream.Numbers([0]);
      stream.Numbers([ways.sendSubmitWay, ways.supportSwitch, Bit(flags.fixChatsOrder)]);
    }

    method WriteLast(stream: Writer)
      requires stream.Valid() && stream.done == 11 && |stream.parts| == GROUPS
      requires LastParts(stream.parts, flags, autoDownload)
      modifies stream
      ensures stream.Valid() && stream.done == GROUPS
    {
      stream.Numbers([Bit(flags.templatesAutocomplete)]);
      stream.Numbers([flags.chatsTimeSlice]);
      stream.Numbers([Bit(flags.includeMuted), Bit(flags.countUnread)]);
      stream.Numbers([Bit(flags.exeLaunchWarning)]);
      stream.Put([Bytes(autoDownload)]);
      stream.Numbers([Bit(flags.allSearchResults)]);
    }

    method ConstructFromSerialized(tokens: seq<Token>, accepts: seq<int> -> bool)
      modifies this
      ensures View() == Parse(old(View()), tokens, accepts)
    {
      if tokens == [] { return; }
      var stream := new Reader(tokens);
      stream.All();
      if !stream.ok { return; }
      if stream.raw.autoDownload != [] {
        if !accepts(stream.raw.autoDownload) { return; }
        autoDownload := stream.raw.autoDownload;
      }
      SetTabs(stream.raw);
      SetSections(stream.raw);
      SetWays(stream.raw);
      SetFlags(stream.raw);
      soundOverrides, stickersHidden := stream.raw.sounds, stream.raw.hidden;
    }

    // What was read, or its default, goes into the settings one by one.
    method SetTabs(r: Raw)
      requires |r.slots| == SLOTS
      modifies `tabs
      ensures tabs == AssignTabs(old(tabs), r).(tabbedEnabled := Slot(r, 2, 1) == 1)
    {
      var uncheckedTab := Slot(r, 0, EMOJI);
      if uncheckedTab == EMOJI || uncheckedTab == STICKERS || uncheckedTab == GIFS {
        tabs := tabs.(selectorTab := uncheckedTab);
      }
      tabs := tabs.(lastSeenWarningSeen := Slot(r, 1, 0) == 1);
      tabs := tabs.(tabbedEnabled := Slot(r, 2, 1) == 1);
      tabs := tabs.(tooltipShown := Slot(r, 3, 0));
      var uncheckedColumn := Slot(r, 4, SECOND_COLUMN);
      if uncheckedColumn == FIRST_COLUMN || uncheckedColumn == SECOND_COLUMN || uncheckedColumn == THIRD_COLUMN {
        tabs := tabs.(column := uncheckedColumn);
      }
      var uncheckedCorner := Slot(r, 5, TOP_RIGHT);
      if uncheckedCorner == TOP_LEFT || uncheckedCorner == TOP_RIGHT
         || uncheckedCorner == BOTTOM_LEFT || uncheckedCorner == BOTTOM_RIGHT
      {
        tabs := tabs.(corner := uncheckedCorner);
      }
    }

    method SetSections(r: Raw)
      requires |r.slots| == SLOTS
      modifies `sections, `tabs
      ensures sections == AssignSections(old(sections), r)
      ensures tabs == old(tabs).(tabbedEnabled := old(tabs.tabbedEnabled) && !sections.infoEnabled)
    {
      sections := sections.(infoEnabled := Slot(r, 6, 0) != 0);
      sections := sections.(smallDialogsList := Slot(r, 7, 0) != 0);
      if r.slots[8].Some? { sections := sections.(ratio := FromMillionths(r.slots[8].value)); }
      sections := sections.(thirdColumnWidth := Slot(r, 9, sections.thirdColumnWidth));
      sections := sections.(thirdExtendedBy := Slot(r, 10, sections.thirdExtendedBy));
      if sections.infoEnabled { tabs := tabs.(tabbedEnabled := false); }
    }

    method SetWays(r: Raw)
      requires |r.slots| == SLOTS
      modifies `ways
      ensures ways == AssignWays(old(ways), r)
    {
      var uncheckedWay := Slot(r, 11, ways.sendFilesWay);
      if uncheckedWay == ALBUM || uncheckedWay == PHOTOS || uncheckedWay == FILES {
        ways := ways.(sendFilesWay := uncheckedWay);
      }
      var uncheckedSubmit := Slot(r, 13, ways.sendSubmitWay);
      if uncheckedSubmit == ENTER || uncheckedSubmit == CTRL_ENTER {
        ways := ways.(sendSubmitWay := uncheckedSubmit);
      }
      var uncheckedSwitch := Slot(r, 14, ways.supportSwitch);
      if uncheckedSwitch == NO_SWITCH || uncheckedSwitch == SWITCH_NEXT || uncheckedSwitch == SWITCH_PREVIOUS {
        ways := ways.(supportSwitch := uncheckedSwitch);
      }
      ways := ways.(hadLegacyCallsNobody := Slot(r, 12, 0) == LEGACY_CALLS_NOBODY);
    }

    method SetFlags(r: Raw)
      requires |r.slots| == SLOTS
      modifies `flags
      ensures flags == AssignFlags(old(flags), r)
    {
      SetSupportFlags(r);
      flags := flags.(includeMuted := Slot(r, 18, Bit(flags.includeMuted)) == 1);
      flags := flags.(countUnread := Slot(r, 19, Bit(flags.countUnread)) == 1);
      flags := flags.(exeLaunchWarning := Slot(r, 20, Bit(flags.exeLaunchWarning)) == 1);
      flags := flags.(allSearchResults := Slot(r, 21, Bit(flags.allSearchResults)) == 1);
    }

    method SetSupportFlags(r: Raw)
      requires |r.slots| == SLOTS
      modifies `flags
      ensures var was := old(flags);
              flags == was.(fixChatsOrder := Slot(r, 15, Bit(was.fixChatsOrder)) == 1,
                            templatesAutocomplete := Slot(r, 16, Bit(was.templatesAutocomplete)) == 1,
                            chatsTimeSlice := Slot(r, 17, was.chatsTimeSlice))
    {
      flags := flags.(fixChatsOrder := Slot(r, 15, Bit(flags.fixChatsOrder)) == 1);
      flags := flags.(templatesAutocomplete := Slot(r, 16, Bit(flags.templatesAutocomplete)) == 1);
      flags := flags.(chatsTimeSlice := Slot(r, 17, flags.chatsTimeSlice));
    }

    // The two setters that call each other; every other setter assigns one field.
    method SetTabbedSelectorSectionEnabled(enabled: bool)
      modifies this
      ensures View() == WithTabbed(old(View()), enabled) && !tabbedReplacedWithInfo
      ensures tabs.tabbedEnabled == enabled && sections.infoEnabled == (old(sections.infoEnabled) && !enabled)
      decreases enabled
    {
      tabs := tabs.(tabbedEnabled := enabled);
      if enabled { SetThirdSectionInfoEnabled(false); }
      tabbedReplacedWithInfo := false;
    }

    method SetThirdSectionInfoEnabled(enabled: bool)
      modifies this
      ensures View() == WithInfo(old(View()), enabled)
      ensures sections.infoEnabled == enabled
      ensures tabs.tabbedEnabled == (old(tabs.tabbedEnabled) && !(enabled && !old(sections.infoEnabled)))
      ensures old(sections.infoEnabled) != enabled ==> !tabbedReplacedWithInfo
      ensures old(sections.infoEnabled) == enabled ==> tabbedReplacedWithInfo == old(tabbedReplacedWithInfo)
      decreases enabled
    {
      if sections.infoEnabled != enabled {
        sections := sections.(infoEnabled := enabled);
        if enabled { SetTabbedSelectorSectionEnabled(false); }
        tabbedReplacedWithInfo := false;
      }
    }
  }
}
