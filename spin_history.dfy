/**
 * The spin-history card's pure logic: the label and badge colour of a segment result, and the
 * selection of the spins it lists, the most recent first, at most `maxSpins` of them, with
 * the placeholder history used when no data is given.
 */
module SpinHistory {
  import opened Wrappers
  import DisplayUtils

  /** One listed spin; `timestampMs` is its creation instant in milliseconds. */
  datatype SpinHistoryItem = SpinHistoryItem(
    id: int,
    sessionId: int,
    result: string,
    betAmount: real,
    pl: real,
    timestampMs: int,
    displayResult: string,
    spinNumber: int)

  /** The card's input; an absent `maxSpins` or `showSpinNumbers` takes its default. */
  datatype SpinHistoryData = SpinHistoryData(
    spins: seq<SpinHistoryItem>,
    maxSpins: Option<int>,
    showSpinNumbers: Option<bool>)

  const DefaultMaxSpins := 10
  const EmptyStateMessage := "No spins recorded yet"
  const EmptyStateDescription := "Spin results will appear here as you play"

  // ---------------------------------------------------------------------------------------
  // Segment labels and badge colours

  /** "Chance" and "4 Rolls" are shown as they are; any other result as "Segment <result>". */
  function FormatDisplayResult(result: string): (text: string)
    ensures result == "Chance" || result == "4 Rolls" ==> text == result
    ensures result != "Chance" && result != "4 Rolls" ==> text == "Segment " + result
  {
    if result == "Chance" || result == "4 Rolls" then result else "Segment " + result
  }

  /** Distinct results get distinct labels. */
  lemma FormatDisplayResultInjective(a: string, b: string)
    requires FormatDisplayResult(a) == FormatDisplayResult(b)
    ensures a == b
  {
    var special := ["Chance", "4 Rolls"];
    if a !in special && b !in special {
      assert ("Segment " + a)[8..] == a && ("Segment " + b)[8..] == b;
    }
  }

  /**
   * The badge classes of one palette colour: light background and text, and their dark-mode
   * counterparts ("bg-blue-100 text-blue-700 dark:bg-blue-900 dark:text-blue-300").
   */
  function BadgeClasses(colour: string): string {
    "bg-" + colour + "-100 text-" + colour + "-700 dark:bg-" + colour + "-900 dark:text-" + colour + "-300"
  }

  /** The badge colours of the six wheel segments. */
  const SegmentColors: map<string, string> := map[
    "1" := BadgeClasses("blue"),
    "2" := BadgeClasses("green"),
    "5" := BadgeClasses("purple"),
    "10" := BadgeClasses("orange"),
    "Chance" := BadgeClasses("yellow"),
    "4 Rolls" := BadgeClasses("red")]

  /** The badge colour of any other result. */
  const DefaultSegmentColor := BadgeClasses("gray")

  /**
   * The members every object literal inherits from Object.prototype. The table is a plain
   * object, so looking up one of these names finds the inherited member.
   */
  const ObjectPrototypeKeys: set<string> := {
    "constructor", "hasOwnProperty", "isPrototypeOf", "propertyIsEnumerable",
    "toLocaleString", "toString", "valueOf", "__proto__",
    "__defineGetter__", "__defineSetter__", "__lookupGetter__", "__lookupSetter__"}

  /**
   * An inherited member as the class string reads it: Object.prototype itself is
   * "[object Object]"; the others are native functions, written as V8 writes them
   * ("constructor" is the Object function).
   */
  function InheritedMemberText(key: string): string
    requires key in ObjectPrototypeKeys
  {
    if key == "__proto__" then "[object Object]"
    else "function " + NativeFunctionName(key) + "() { [native code] }"
  }

  function NativeFunctionName(key: string): string {
    if key == "constructor" then "Object" else key
  }

  /**
   * The table lookup, falling back to gray when it finds nothing: a segment's own colour, the
   * inherited member for an Object.prototype name, and the gray default for anything else.
   */
  function GetResultBadgeColor(result: string): (colorClass: string)
    ensures result in SegmentColors ==> colorClass == SegmentColors[result]
    ensures result !in SegmentColors && result in ObjectPrototypeKeys ==>
      colorClass == InheritedMemberText(result)
    ensures result !in SegmentColors && result !in ObjectPrototypeKeys ==>
      colorClass == DefaultSegmentColor
  {
    if result in SegmentColors then SegmentColors[result]
    else if result in ObjectPrototypeKeys then InheritedMemberText(result)
    else DefaultSegmentColor
  }

  /** The table covers exactly the six segments of the wheel, none an inherited name. */
  lemma SegmentTableKeys()
    ensures SegmentColors.Keys == {"1", "2", "5", "10", "Chance", "4 Rolls"}
    ensures SegmentColors.Keys * ObjectPrototypeKeys == {}
  {
  }

  /** Different colour names give different classes. */
  lemma BadgeClassesInjective(a: string, b: string)
    requires BadgeClasses(a) == BadgeClasses(b)
    ensures a == b
  {
    var s := BadgeClasses(a);
    assert |s| == 45 + 4 * |a|;
    assert |BadgeClasses(b)| == 45 + 4 * |b|;
    assert s[3..3 + |a|] == a;
    assert BadgeClasses(b)[3..3 + |b|] == b;
  }

  /** Different inherited names read differently. */
  lemma InheritedMemberTextInjective(a: string, b: string)
    requires a in ObjectPrototypeKeys && b in ObjectPrototypeKeys
    requires InheritedMemberText(a) == InheritedMemberText(b)
    ensures a == b
  {
    var t := InheritedMemberText(a);
    if a != "__proto__" && b != "__proto__" {
      var na, nb := NativeFunctionName(a), NativeFunctionName(b);
      var suffix := "() { [native code] }";
      assert |suffix| == 20;
      assert t == "function " + na + suffix;
      assert t == "function " + nb + suffix;
      assert |na| == |t| - 29 == |nb|;
      assert t[9..9 + |na|] == na;
      assert t[9..9 + |nb|] == nb;
      assert "Object" !in ObjectPrototypeKeys;
    }
  }

  /** A badge's classes never read like an inherited member. */
  lemma BadgeIsNotInherited(colour: string, key: string)
    requires key in ObjectPrototypeKeys
    ensures BadgeClasses(colour) != InheritedMemberText(key)
  {
    assert BadgeClasses(colour)[0] == 'b';
    assert InheritedMemberText(key)[0] == 'f' || InheritedMemberText(key)[0] == '[';
  }

  /**
   * The colour identifies the segment: two results share a colour only if they are equal or
   * both are ordinary non-segment results shown in gray.
   */
  lemma BadgeColorIdentifiesSegment(a: string, b: string)
    requires GetResultBadgeColor(a) == GetResultBadgeColor(b)
    ensures a == b || (a !in SegmentColors && a !in ObjectPrototypeKeys &&
                       b !in SegmentColors && b !in ObjectPrototypeKeys)
  {
    SegmentTableKeys();
    var names := map["1" := "blue", "2" := "green", "5" := "purple", "10" := "orange",
                     "Chance" := "yellow", "4 Rolls" := "red"];
    var inheritedA := a !in SegmentColors && a in ObjectPrototypeKeys;
    var inheritedB := b !in SegmentColors && b in ObjectPrototypeKeys;
    var nameA := if a in names then names[a] else "gray";
    var nameB := if b in names then names[b] else "gray";
    if inheritedA && inheritedB {
      InheritedMemberTextInjective(a, b);
    } else if inheritedA {
      assert GetResultBadgeColor(b) == BadgeClasses(nameB);
      BadgeIsNotInherited(nameB, a);
    } else if inheritedB {
      assert GetResultBadgeColor(a) == BadgeClasses(nameA);
      BadgeIsNotInherited(nameA, b);
    } else {
      assert GetResultBadgeColor(a) == BadgeClasses(nameA);
      assert GetResultBadgeColor(b) == BadgeClasses(nameB);
      BadgeClassesInjective(nameA, nameB);
    }
  }

  // ---------------------------------------------------------------------------------------
  // Newest-first selection

  predicate NewestFirst(s: seq<SpinHistoryItem>) {
    forall i, j :: 0 <= i < j < |s| ==> s[i].timestampMs >= s[j].timestampMs
  }

  /** Places `x` after every spin at least as recent, so equal timestamps keep their input order. */
  function InsertByTime(x: SpinHistoryItem, s: seq<SpinHistoryItem>): (r: seq<SpinHistoryItem>)
    requires NewestFirst(s)
    ensures |r| == |s| + 1
    ensures multiset(r) == multiset(s) + multiset{x}
    ensures forall e :: e in r <==> e == x || e in s
    ensures NewestFirst(r)
  {
    if |s| == 0 then [x]
    else if s[0].timestampMs < x.timestampMs then [x] + s
    else
      var rest := InsertByTime(x, s[1..]);
      assert s == [s[0]] + s[1..];
      HeadIsNewest(s);
      PrependNewest(s[0], rest);
      [s[0]] + rest
  }

  lemma HeadIsNewest(s: seq<SpinHistoryItem>)
    requires NewestFirst(s) && |s| > 0
    ensures forall e :: e in s[1..] ==> e.timestampMs <= s[0].timestampMs
  {
    forall e | e in s[1..]
      ensures e.timestampMs <= s[0].timestampMs
    {
      var k :| 0 <= k < |s[1..]| && s[1..][k] == e;
      assert s[k + 1] == e;
    }
  }

  lemma PrependNewest(h: SpinHistoryItem, t: seq<SpinHistoryItem>)
    requires NewestFirst(t)
    requires forall e :: e in t ==> e.timestampMs <= h.timestampMs
    ensures NewestFirst([h] + t)
  {
    var r := [h] + t;
    forall i, j | 0 <= i < j < |r|
      ensures r[i].timestampMs >= r[j].timestampMs
    {
      assert r[j] == t[j - 1];
      if i > 0 {
        assert r[i] == t[i - 1];
      } else {
        assert t[j - 1] in t;
      }
    }
  }

  /** The spins ordered by timestamp, newest first; a stable sort of a copy of the input. */
  function SortNewestFirst(s: seq<SpinHistoryItem>): (r: seq<SpinHistoryItem>)
    ensures |r| == |s|
    ensures multiset(r) == multiset(s)
    ensures NewestFirst(r)
  {
    if |s| == 0 then []
    else
      assert s == s[..|s| - 1] + [s[|s| - 1]];
      InsertByTime(s[|s| - 1], SortNewestFirst(s[..|s| - 1]))
  }

  /** Where JavaScript's slice(0, n) ends: a negative n counts back from the length. */
  function SliceEnd(len: nat, n: int): (e: nat)
    ensures e <= len
    ensures n >= 0 ==> e == if n < len then n else len
    ensures n < 0 ==> e == if len + n < 0 then 0 else len + n
  {
    if n < 0 then (if len + n < 0 then 0 else len + n)
    else if n < len then n
    else len
  }

  function EffectiveMaxSpins(data: SpinHistoryData): int {
    if data.maxSpins.Some? then data.maxSpins.value else DefaultMaxSpins
  }

  /** The listed spins: the sorted copy, cut after `maxSpins` entries. */
  function DisplayedSpins(data: SpinHistoryData): (shown: seq<SpinHistoryItem>)
    ensures NewestFirst(shown)
    ensures multiset(shown) <= multiset(data.spins)
  {
    var sorted := SortNewestFirst(data.spins);
    var end := SliceEnd(|sorted|, EffectiveMaxSpins(data));
    assert sorted == sorted[..end] + sorted[end..];
    sorted[..end]
  }

  /** The spins the card leaves out. */
  function HiddenSpins(data: SpinHistoryData): seq<SpinHistoryItem> {
    var sorted := SortNewestFirst(data.spins);
    sorted[SliceEnd(|sorted|, EffectiveMaxSpins(data))..]
  }

  /** The listed spins are newest first, and there are min(|spins|, maxSpins) of them. */
  lemma DisplayedShape(data: SpinHistoryData)
    ensures NewestFirst(DisplayedSpins(data))
    ensures EffectiveMaxSpins(data) >= 0 ==>
      |DisplayedSpins(data)| == if |data.spins| < EffectiveMaxSpins(data) then |data.spins| else EffectiveMaxSpins(data)
    ensures data.maxSpins.None? ==> |DisplayedSpins(data)| == if |data.spins| < 10 then |data.spins| else 10
  {
  }

  /**
   * The listed spins are the most recent ones: together with the hidden ones they are the
   * input spins, and none of the hidden ones is newer than a listed one.
   */
  lemma DisplayedAreMostRecent(data: SpinHistoryData)
    ensures multiset(DisplayedSpins(data)) + multiset(HiddenSpins(data)) == multiset(data.spins)
    ensures forall i, j :: 0 <= i < |DisplayedSpins(data)| && 0 <= j < |HiddenSpins(data)| ==>
      DisplayedSpins(data)[i].timestampMs >= HiddenSpins(data)[j].timestampMs
  {
    var sorted := SortNewestFirst(data.spins);
    var k := SliceEnd(|sorted|, EffectiveMaxSpins(data));
    assert sorted == sorted[..k] + sorted[k..];
    forall i, j | 0 <= i < k && 0 <= j < |sorted| - k
      ensures sorted[..k][i].timestampMs >= sorted[k..][j].timestampMs
    {
      assert sorted[..k][i] == sorted[i] && sorted[k..][j] == sorted[k + j];
    }
  }

  /** The empty state shows exactly when nothing is listed: no spins, or a limit of zero. */
  lemma EmptyStateIff(data: SpinHistoryData)
    requires EffectiveMaxSpins(data) >= 0
    ensures DisplayedSpins(data) == [] <==> |data.spins| == 0 || EffectiveMaxSpins(data) == 0
  {
  }

  // ---------------------------------------------------------------------------------------
  // Placeholder history

  function MockSpin(id: int, result: string, pl: real, nowMs: int, minutesAgo: int): SpinHistoryItem {
    SpinHistoryItem(id, 1, result, 10.0, pl, DisplayUtils.GenerateMockTimestamp(nowMs, minutesAgo),
      FormatDisplayResult(result), id)
  }

  /** The mixed scenario: a win on 2, a loss on Chance and an even spin on 1, 2, 5 and 8 minutes ago. */
  function MixedScenario(nowMs: int): SpinHistoryData {
    SpinHistoryData(
      [MockSpin(3, "2", 15.0, nowMs, 2), MockSpin(2, "Chance", -10.0, nowMs, 5), MockSpin(1, "1", 0.0, nowMs, 8)],
      Some(DefaultMaxSpins), Some(false))
  }

  /** The data shown: the given history, or the mixed scenario when there is none. */
  function HistoryOrDefault(data: Option<SpinHistoryData>, nowMs: int): (shown: SpinHistoryData)
    ensures data.Some? ==> shown == data.value
    ensures data.None? ==> shown == MixedScenario(nowMs)
  {
    if data.Some? then data.value else MixedScenario(nowMs)
  }

  /** Without data the card lists the three mock spins as given, already newest first. */
  lemma DefaultHistoryListed(nowMs: int)
    ensures DisplayedSpins(HistoryOrDefault(None, nowMs)) == MixedScenario(nowMs).spins
  {
    var s := MixedScenario(nowMs).spins;
    assert s[0].timestampMs > s[1].timestampMs > s[2].timestampMs;
    SortKeepsNewestFirst(s);
  }

  /** Sorting a list that is already newest first leaves it as it is, ties included. */
  lemma {:induction false} SortKeepsNewestFirst(s: seq<SpinHistoryItem>)
    requires NewestFirst(s)
    ensures SortNewestFirst(s) == s
  {
    if |s| > 0 {
      var p, x := s[..|s| - 1], s[|s| - 1];
      assert s == p + [x];
      InsertAtEnd(p, x);
      SortKeepsNewestFirst(p);
      assert SortNewestFirst(s) == InsertByTime(x, SortNewestFirst(p));
    }
  }

  /** A spin no newer than any in a newest-first list goes to its end. */
  lemma {:induction false} InsertAtEnd(p: seq<SpinHistoryItem>, x: SpinHistoryItem)
    requires NewestFirst(p + [x])
    ensures NewestFirst(p) && InsertByTime(x, p) == p + [x]
  {
    NewestFirstDropLast(p, x);
    if |p| > 0 {
      var s := p + [x];
      assert s[1..] == p[1..] + [x];
      NewestFirstTail(s);
      InsertAtEnd(p[1..], x);
      assert p == [p[0]] + p[1..];
    }
  }

  lemma NewestFirstDropLast(p: seq<SpinHistoryItem>, x: SpinHistoryItem)
    requires NewestFirst(p + [x])
    ensures NewestFirst(p)
    ensures |p| > 0 ==> p[0].timestampMs >= x.timestampMs
  {
    var s := p + [x];
    forall i, j | 0 <= i < j < |p|
      ensures p[i].timestampMs >= p[j].timestampMs
    {
      assert p[i] == s[i] && p[j] == s[j];
    }
    if |p| > 0 {
      assert s[0] == p[0] && s[|p|] == x;
    }
  }

  lemma NewestFirstTail(s: seq<SpinHistoryItem>)
    requires NewestFirst(s) && |s| > 0
    ensures NewestFirst(s[1..])
  {
    var t := s[1..];
    forall i, j | 0 <= i < j < |t|
      ensures t[i].timestampMs >= t[j].timestampMs
    {
      assert t[i] == s[i + 1] && t[j] == s[j + 1];
    }
  }
}
