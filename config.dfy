// LogicaConfig: the configuration values the core reads, the debug-log
// switches, and the `event_id = duration` list parser with its cache.

module Config {
  import opened Types

  /** The configuration values the modelled logic reads.  Distances and
      speeds are doubles in the configuration and are left out; the two chain
      radii are given as the whole-block values the finder uses. */
  datatype Settings = Settings(
    investigationDurationTicks: int,
    eventInvestigationDurations: seq<string>,
    lookAroundInterval: int,
    patrolWaypointSearchRadius: nat,
    sentriesWaypointSearchRadius: nat,
    stuckDetectionThreshold: int,
    sentriesBellCount: int,
    sentriesBellInterval: int,
    sentriesAlertAllTypes: bool,
    maxTrackingDurationTicks: int,
    ignoreCreativePlayers: bool,
    enableDebugLogs: bool,
    logGoalLifecycle: bool,
    logStateTransitions: bool,
    logNavigation: bool,
    logPerceptionEvents: bool,
    logWaypointSearch: bool,
    logStrategyApplication: bool)

  /** The ranges each value is declared with (enforced by the configuration
      library when the file is loaded). */
  predicate InRange(c: Settings)
    ensures InRange(c) ==> c.lookAroundInterval > 0 && c.sentriesBellInterval > 0 && c.sentriesBellCount > 0
    ensures InRange(c) ==> c.patrolWaypointSearchRadius > c.sentriesWaypointSearchRadius
  {
    0 <= c.investigationDurationTicks <= 1200 &&
    10 <= c.lookAroundInterval <= 200 &&
    8 <= c.patrolWaypointSearchRadius <= 64 &&
    1 <= c.sentriesWaypointSearchRadius <= 5 &&
    20 <= c.stuckDetectionThreshold <= 200 &&
    1 <= c.sentriesBellCount <= 10 &&
    5 <= c.sentriesBellInterval <= 40 &&
    100 <= c.maxTrackingDurationTicks <= 2400
  }

  /** The nine default per-event durations. */
  const DefaultEventDurations: seq<string> := [
    "minecraft:explode = 600",
    "minecraft:projectile_land = 200",
    "minecraft:projectile_shoot = 200",
    "minecraft:hit_ground = 150",
    "minecraft:step = 100",
    "minecraft:swim = 80",
    "minecraft:block_place = 150",
    "minecraft:block_destroy = 150",
    "minecraft:item_interact_finish = 100"]

  /** The values a new configuration file holds. */
  function Defaults(): (c: Settings)
    ensures InRange(c)
    ensures !c.enableDebugLogs && !c.logNavigation
    ensures c.sentriesAlertAllTypes && c.ignoreCreativePlayers
  {
    Settings(200, DefaultEventDurations, 40, 16, 1, 60, 3, 10, true, 600, true,
             false, true, true, false, true, true, true)
  }

  // ---------------------------------------------------------------------
  // Log switches

  datatype LogCategory =
    | GoalLifecycle | StateTransitions | Navigation | PerceptionEvents | WaypointSearch | StrategyApplication

  /** The switch of one category. */
  function CategorySwitch(c: Settings, cat: LogCategory): bool
  {
    match cat
    case GoalLifecycle => c.logGoalLifecycle
    case StateTransitions => c.logStateTransitions
    case Navigation => c.logNavigation
    case PerceptionEvents => c.logPerceptionEvents
    case WaypointSearch => c.logWaypointSearch
    case StrategyApplication => c.logStrategyApplication
  }

  /** `shouldLogGoalLifecycle` ... `shouldLogStrategyApplication`. */
  predicate ShouldLog(c: Settings, cat: LogCategory)
    ensures ShouldLog(c, cat) ==> c.enableDebugLogs
    ensures !CategorySwitch(c, cat) ==> !ShouldLog(c, cat)
  {
    c.enableDebugLogs && CategorySwitch(c, cat)
  }

  /** The master switch gates every category: with it off nothing is logged,
      with it on exactly the enabled categories are.  The defaults log
      nothing. */
  lemma LogSwitches(c: Settings, cat: LogCategory)
    ensures !c.enableDebugLogs ==> !ShouldLog(c, cat)
    ensures c.enableDebugLogs ==> (ShouldLog(c, cat) <==> CategorySwitch(c, cat))
    ensures !ShouldLog(Defaults(), cat)
  {
  }

  // ---------------------------------------------------------------------
  // String.split("="), trim() and Integer.parseInt

  /** Splits at every '=' and keeps every part, empty ones included. */
  function SplitAll(s: string): (parts: seq<string>)
    ensures |parts| >= 1
    ensures forall i :: 0 <= i < |parts| ==> '=' !in parts[i]
  {
    if s == [] then [""]
    else
      var rest := SplitAll(s[1..]);
      if s[0] == '=' then [""] + rest else [[s[0]] + rest[0]] + rest[1..]
  }

  /** Joins parts with '=' between them. */
  function Join(parts: seq<string>): string
    requires |parts| >= 1
  {
    if |parts| == 1 then parts[0] else parts[0] + "=" + Join(parts[1..])
  }

  /** Splitting loses nothing: joining the parts gives back the string. */
  lemma {:induction false} SplitAllJoin(s: string)
    ensures Join(SplitAll(s)) == s
  {
    if s != [] {
      SplitAllJoin(s[1..]);
      var rest := SplitAll(s[1..]);
      if s[0] == '=' {
        assert Join(SplitAll(s)) == "" + "=" + Join(rest);
      } else if |rest| == 1 {
        assert Join(SplitAll(s)) == [s[0]] + rest[0];
      } else {
        assert SplitAll(s)[1..] == rest[1..];
        assert Join(SplitAll(s)) == [s[0]] + rest[0] + "=" + Join(rest[1..]);
      }
      assert s == [s[0]] + s[1..];
    }
  }

  function DropTrailingEmpty(parts: seq<string>): (r: seq<string>)
    ensures |r| <= |parts| && r == parts[..|r|]
    ensures r == [] || r[|r| - 1] != ""
    ensures forall i :: |r| <= i < |parts| ==> parts[i] == ""
  {
    if parts == [] then []
    else if parts[|parts| - 1] == "" then DropTrailingEmpty(parts[..|parts| - 1])
    else parts
  }

  /** `String.split("=")`: all parts with trailing empty ones removed, or the
      whole string when it holds no '='. */
  function JavaSplit(s: string): (parts: seq<string>)
    ensures |parts| <= |SplitAll(s)| && parts == SplitAll(s)[..|parts|]
    ensures forall i :: 0 <= i < |parts| ==> '=' !in parts[i]
    ensures '=' in s ==> parts == [] || parts[|parts| - 1] != ""
    ensures forall i :: |parts| <= i < |SplitAll(s)| ==> SplitAll(s)[i] == ""
    ensures '=' !in s ==> parts == [s]
  {
    if '=' !in s then SplitAllNoSeparator(s); [s] else DropTrailingEmpty(SplitAll(s))
  }

  /** `trim()`: drops leading and trailing characters up to U+0020. */
  function TrimLeft(s: string): (r: string)
    ensures |r| <= |s| && r == s[|s| - |r|..]
    ensures r == [] || r[0] > ' '
    ensures forall i :: 0 <= i < |s| - |r| ==> s[i] <= ' '
  {
    if s != [] && s[0] <= ' ' then TrimLeft(s[1..]) else s
  }

  function TrimRight(s: string): (r: string)
    ensures |r| <= |s| && r == s[..|r|]
    ensures r == [] || r[|r| - 1] > ' '
    ensures forall i :: |r| <= i < |s| ==> s[i] <= ' '
  {
    if s != [] && s[|s| - 1] <= ' ' then TrimRight(s[..|s| - 1]) else s
  }

  function Trim(s: string): (t: string)
    ensures |t| <= |s|
    ensures t == [] || (t[0] > ' ' && t[|t| - 1] > ' ')
  {
    TrimRight(TrimLeft(s))
  }

  /** Trimming keeps a middle slice whose ends are not blank and removes only
      blanks around it. */
  lemma TrimShape(s: string)
    ensures var t := Trim(s);
      t == [] || (t[0] > ' ' && t[|t| - 1] > ' ')
    ensures exists i, j ::
      0 <= i <= j <= |s| && Trim(s) == s[i..j] &&
      (forall k :: 0 <= k < i ==> s[k] <= ' ') && (forall k :: j <= k < |s| ==> s[k] <= ' ')
  {
    var l := TrimLeft(s);
    var i := |s| - |l|;
    var t := TrimRight(l);
    assert t == s[i..i + |t|];
    forall k | i + |t| <= k < |s|
      ensures s[k] <= ' '
    {
      assert s[k] == l[k - i];
    }
  }

  /** Trimming twice is trimming once. */
  lemma TrimIdempotent(s: string)
    ensures Trim(Trim(s)) == Trim(s)
  {
    var t := Trim(s);
    if t != [] {
      assert TrimLeft(t) == t;
      assert TrimRight(t) == t;
    } else {
      assert TrimLeft(t) == t;
    }
  }

  predicate IsDigit(c: char) { '0' <= c <= '9' }

  predicate AllDigits(d: string)
  {
    forall i :: 0 <= i < |d| ==> IsDigit(d[i])
  }

  function DigitValue(c: char): (v: nat)
    requires IsDigit(c)
    ensures v <= 9
  {
    c as int - '0' as int
  }

  /** The value of a string of decimal digits. */
  function DigitsValue(d: string): nat
    requires AllDigits(d)
  {
    if d == [] then 0 else DigitsValue(d[..|d| - 1]) * 10 + DigitValue(d[|d| - 1])
  }

  /** `Integer.parseInt`, restricted to ASCII digits: an optional sign, at
      least one digit 0-9, and a value that fits an `int`; anything else is
      treated as a NumberFormatException. */
  function ParseInt(s: string): (r: Option<int>)
    ensures r.Some? ==> IsInt32(r.value)
  {
    if s == [] then None
    else
      var start := if s[0] == '-' || s[0] == '+' then 1 else 0;
      var digits := s[start..];
      if digits == [] || !AllDigits(digits) then None
      else
        var v: int := DigitsValue(digits);
        var n := if s[0] == '-' then -v else v;
        if IsInt32(n) then Some(n) else None
  }

  /** The decimal digits of a natural number, as `Integer.toString` writes them. */
  function NatToDigits(v: nat): (d: string)
    ensures |d| >= 1 && AllDigits(d)
  {
    if v < 10 then [('0' as int + v) as char] else NatToDigits(v / 10) + [('0' as int + v % 10) as char]
  }

  /** `Integer.toString`. */
  function IntToString(n: int): string
  {
    if n < 0 then "-" + NatToDigits(-n) else NatToDigits(n)
  }

  lemma {:induction false} DigitsRoundTrip(v: nat)
    ensures DigitsValue(NatToDigits(v)) == v
  {
    if v >= 10 {
      DigitsRoundTrip(v / 10);
      var d := NatToDigits(v);
      assert d[..|d| - 1] == NatToDigits(v / 10);
    }
  }

  /** Every `int` printed in decimal parses back to itself. */
  lemma ParseIntRoundTrip(n: int)
    requires IsInt32(n)
    ensures ParseInt(IntToString(n)) == Some(n)
  {
    var v: nat := if n < 0 then -n else n;
    DigitsRoundTrip(v);
    var s := IntToString(n);
    if n < 0 {
      assert s[1..] == NatToDigits(v);
    } else {
      assert s[0] != '-' && s[0] != '+';
    }
  }

  // ---------------------------------------------------------------------
  // parseEventInvestigationDurations

  /** One list entry: `event_id = duration` with exactly two parts after the
      split and an int on the right; the key is the trimmed left part. */
  function Entry(e: string): (r: Option<(string, int)>)
    ensures r.Some? ==> |JavaSplit(e)| == 2 && r.value.0 == Trim(JavaSplit(e)[0]) &&
                        ParseInt(Trim(JavaSplit(e)[1])) == Some(r.value.1)
    ensures |JavaSplit(e)| != 2 ==> r.None?
  {
    var parts := JavaSplit(e);
    if |parts| == 2 then
      var n := ParseInt(Trim(parts[1]));
      if n.Some? then Some((Trim(parts[0]), n.value)) else None
    else None
  }

  /** Each entry, parsed on its own. */
  function Entries(entries: seq<string>): (es: seq<Option<(string, int)>>)
    ensures |es| == |entries| && forall i :: 0 <= i < |entries| ==> es[i] == Entry(entries[i])
  {
    seq(|entries|, i requires 0 <= i < |entries| => Entry(entries[i]))
  }

  /** The map the loop builds from parsed entries, in list order: a
      contributing entry overwrites any earlier one with the same key, and a
      malformed one is skipped. */
  function Fold(es: seq<Option<(string, int)>>): map<string, int>
  {
    if es == [] then map[]
    else
      var m := Fold(es[..|es| - 1]);
      var e := es[|es| - 1];
      if e.Some? then m[e.value.0 := e.value.1] else m
  }

  function ParseAll(entries: seq<string>): (m: map<string, int>)
    ensures forall k :: k in m ==> IsInt32(m[k]) && exists i :: 0 <= i < |entries| && Entry(entries[i]) == Some((k, m[k]))
  {
    FoldSources(Entries(entries));
    Fold(Entries(entries))
  }

  /** Key `k` is mapped exactly when some entry contributes it, and then to
      the value of the last such entry. */
  lemma FoldLastWins(es: seq<Option<(string, int)>>, k: string)
    ensures k in Fold(es) <==> exists i :: 0 <= i < |es| && es[i].Some? && es[i].value.0 == k
    ensures k in Fold(es) ==>
      exists i :: 0 <= i < |es| && es[i] == Some((k, Fold(es)[k])) &&
        (forall j :: i < j < |es| ==> es[j].None? || es[j].value.0 != k)
  {
    FoldHasKey(es, k);
    if k in Fold(es) {
      FoldLastEntry(es, k);
    }
  }

  lemma {:induction false} FoldHasKey(es: seq<Option<(string, int)>>, k: string)
    ensures k in Fold(es) <==> exists i :: 0 <= i < |es| && es[i].Some? && es[i].value.0 == k
  {
    if es != [] {
      var init := es[..|es| - 1];
      FoldHasKey(init, k);
      FoldLast(es, k);
      if !(es[|es| - 1].Some? && es[|es| - 1].value.0 == k) {
        if k in Fold(es) {
          var i :| 0 <= i < |init| && init[i].Some? && init[i].value.0 == k;
          assert es[i] == init[i];
        } else {
          forall i | 0 <= i < |es|
            ensures es[i].None? || es[i].value.0 != k
          {
            if i < |init| {
              assert es[i] == init[i];
            }
          }
        }
      }
    }
  }

  lemma {:induction false} FoldLastEntry(es: seq<Option<(string, int)>>, k: string)
    requires k in Fold(es)
    ensures exists i ::
      0 <= i < |es| && es[i] == Some((k, Fold(es)[k])) &&
      (forall j :: i < j < |es| ==> es[j].None? || es[j].value.0 != k)
  {
    var last := |es| - 1;
    FoldLast(es, k);
    if es[last].Some? && es[last].value.0 == k {
      assert es[last] == Some((k, Fold(es)[k]));
    } else {
      var init := es[..last];
      FoldLastEntry(init, k);
      var i :| 0 <= i < |init| && init[i] == Some((k, Fold(init)[k])) &&
        (forall j :: i < j < |init| ==> init[j].None? || init[j].value.0 != k);
      assert es[i] == init[i];
      forall j | i < j < |es|
        ensures es[j].None? || es[j].value.0 != k
      {
        if j < last {
          assert es[j] == init[j];
        }
      }
    }
  }

  /** Every key and value of the built map come from one parsed entry. */
  lemma FoldSources(es: seq<Option<(string, int)>>)
    ensures forall k :: k in Fold(es) ==> Some((k, Fold(es)[k])) in es
  {
    forall k | k in Fold(es)
      ensures Some((k, Fold(es)[k])) in es
    {
      FoldLastWins(es, k);
    }
  }

  /** What the last entry does to key `k`. */
  lemma FoldLast(es: seq<Option<(string, int)>>, k: string)
    requires es != []
    ensures var e := es[|es| - 1];
            var before := Fold(es[..|es| - 1]);
            if e.Some? && e.value.0 == k then k in Fold(es) && Fold(es)[k] == e.value.1
            else (k in Fold(es) <==> k in before) && (k in before ==> Fold(es)[k] == before[k])
  {
  }

  /** The event with id `k` is mapped exactly when some entry of the list
      contributes it, and then to the duration of the last such entry. */
  lemma ParseAllLastWins(entries: seq<string>, k: string)
    ensures k in ParseAll(entries) <==> exists i :: 0 <= i < |entries| && Entry(entries[i]).Some? && Entry(entries[i]).value.0 == k
    ensures k in ParseAll(entries) ==>
      exists i :: 0 <= i < |entries| && Entry(entries[i]) == Some((k, ParseAll(entries)[k])) &&
        (forall j :: i < j < |entries| ==> Entry(entries[j]).None? || Entry(entries[j]).value.0 != k)
  {
    FoldLastWins(Entries(entries), k);
  }

  lemma {:induction false} FoldSkipsNone(before: seq<Option<(string, int)>>, after: seq<Option<(string, int)>>)
    ensures Fold(before + [None] + after) == Fold(before + after)
    decreases |after|
  {
    if after == [] {
      assert (before + [None])[..|before|] == before;
      assert before + [None] + after == before + [None];
      assert before + after == before;
    } else {
      var init := after[..|after| - 1];
      FoldSkipsNone(before, init);
      var x := after[|after| - 1];
      assert (before + [None] + after)[..|before + [None] + after| - 1] == before + [None] + init;
      assert (before + after)[..|before + after| - 1] == before + init;
      assert (before + [None] + after)[|before + [None] + after| - 1] == x;
      assert (before + after)[|before + after| - 1] == x;
    }
  }

  lemma EntriesAppend(a: seq<string>, b: seq<string>)
    ensures Entries(a + b) == Entries(a) + Entries(b)
  {
  }

  /** A malformed entry is skipped without affecting the others: the result
      is as if it were not in the list. */
  lemma ParseAllSkipsMalformed(before: seq<string>, bad: string, after: seq<string>)
    requires Entry(bad).None?
    ensures ParseAll(before + [bad] + after) == ParseAll(before + after)
  {
    FoldSkipsNone(Entries(before), Entries(after));
    EntriesAppend(before + [bad], after);
    EntriesAppend(before, [bad]);
    EntriesAppend(before, after);
    assert Entries([bad]) == [None];
  }

  /** A string without '=' is one part. */
  lemma {:induction false} SplitAllNoSeparator(s: string)
    requires '=' !in s
    ensures SplitAll(s) == [s]
  {
    if s != [] {
      SplitAllNoSeparator(s[1..]);
      assert [s[0]] + s[1..] == s;
    }
  }

  /** A part without '=' followed by a separator splits off as one part. */
  lemma {:induction false} SplitAllPrefix(a: string, b: string)
    requires '=' !in a
    ensures SplitAll(a + "=" + b) == [a] + SplitAll(b)
  {
    if a == [] {
      assert a + "=" + b == "=" + b;
      assert ("=" + b)[1..] == b;
    } else {
      SplitAllPrefix(a[1..], b);
      assert (a + "=" + b)[1..] == a[1..] + "=" + b;
      assert [a[0]] + a[1..] == a;
    }
  }

  /** A trailing '=' still gives two parts, so "a=5=" contributes a -> 5. */
  lemma TrailingSeparatorCounts()
    ensures Entry("a=5=") == Some(("a", 5))
  {
    SplitAllNoSeparator("a");
    SplitAllPrefix("5", "");
    SplitAllPrefix("a", "5=");
    assert "a" + "=" + "5=" == "a=5=";
    assert SplitAll("a=5=") == ["a", "5", ""];
    assert ["a", "5", ""][..2] == ["a", "5"];
    assert JavaSplit("a=5=") == ["a", "5"];
    assert TrimLeft("5") == "5" && TrimRight("5") == "5";
    assert TrimLeft("a") == "a" && TrimRight("a") == "a";
    ParseIntRoundTrip(5);
    assert IntToString(5) == "5";
  }

  /** A third non-empty part makes the entry malformed. */
  lemma ThreePartsSkipped()
    ensures Entry("a=5=6").None?
  {
    SplitAllNoSeparator("a");
    SplitAllNoSeparator("6");
    SplitAllPrefix("5", "6");
    SplitAllPrefix("a", "5=6");
    assert "a" + "=" + "5=6" == "a=5=6";
    assert "5" + "=" + "6" == "5=6";
    assert SplitAll("a=5=6") == ["a", "5", "6"];
  }

  /** An entry written as the defaults write them: the event id, " = ", and
      the duration in decimal. */
  function FormatEntry(eventId: string, ticks: int): string
  {
    eventId + " = " + IntToString(ticks)
  }

  lemma {:induction false} TrimLeftPadded(left: string, s: string)
    requires s != [] && s[0] > ' '
    requires forall i :: 0 <= i < |left| ==> left[i] <= ' '
    ensures TrimLeft(left + s) == s
  {
    if left != [] {
      assert (left + s)[1..] == left[1..] + s;
      TrimLeftPadded(left[1..], s);
    }
  }

  lemma {:induction false} TrimRightPadded(s: string, right: string)
    requires s != [] && s[|s| - 1] > ' '
    requires forall i :: 0 <= i < |right| ==> right[i] <= ' '
    ensures TrimRight(s + right) == s
  {
    if right != [] {
      assert (s + right)[..|s + right| - 1] == s + right[..|right| - 1];
      TrimRightPadded(s, right[..|right| - 1]);
    } else {
      assert s + right == s;
    }
  }

  /** The decimal form of an int is non-empty, has no blank ends and no '='. */
  lemma IntToStringShape(n: int)
    ensures var d := IntToString(n);
      d != [] && d[0] > ' ' && d[|d| - 1] > ' ' && '=' !in d
  {
    var v: nat := if n < 0 then -n else n;
    var digits := NatToDigits(v);
    assert AllDigits(digits);
    if n < 0 {
      assert IntToString(n) == "-" + digits;
      assert forall i :: 1 <= i < |IntToString(n)| ==> IntToString(n)[i] == digits[i - 1];
    }
  }

  /** An entry in the defaults' format splits into the padded id and the
      padded number. */
  lemma FormatEntrySplit(eventId: string, d: string)
    requires '=' !in eventId && '=' !in d && d != []
    ensures JavaSplit(eventId + " = " + d) == [eventId + " ", " " + d]
  {
    var s := eventId + " = " + d;
    assert s == (eventId + " ") + "=" + (" " + d);
    assert '=' !in eventId + " ";
    SplitAllPrefix(eventId + " ", " " + d);
    SplitAllNoSeparator(" " + d);
    assert s[|eventId| + 1] == '=';
  }

  /** An entry whose two parts trim to an id and a number parses to them. */
  lemma EntryOfParts(e: string, id: string, ticks: int)
    requires |JavaSplit(e)| == 2
    requires Trim(JavaSplit(e)[0]) == id && ParseInt(Trim(JavaSplit(e)[1])) == Some(ticks)
    ensures Entry(e) == Some((id, ticks))
  {
  }

  /** The padded id and the padded number of a formatted entry trim back to
      the id and the number. */
  lemma FormatEntryTrims(eventId: string, d: string)
    requires eventId != [] && eventId[0] > ' ' && eventId[|eventId| - 1] > ' '
    requires d != [] && d[0] > ' ' && d[|d| - 1] > ' '
    ensures Trim(eventId + " ") == eventId && Trim(" " + d) == d
  {
    var padded := eventId + " ";
    assert padded[0] == eventId[0];
    assert TrimLeft(padded) == padded;
    TrimRightPadded(eventId, " ");
    TrimLeftPadded(" ", d);
    assert d + "" == d;
    TrimRightPadded(d, "");
  }

  /** An entry in the defaults' format parses back to its event id and
      duration, whatever the duration. */
  lemma FormatEntryRoundTrip(eventId: string, ticks: int)
    requires eventId != [] && eventId[0] > ' ' && eventId[|eventId| - 1] > ' ' && '=' !in eventId
    requires IsInt32(ticks)
    ensures Entry(FormatEntry(eventId, ticks)) == Some((eventId, ticks))
  {
    var d := IntToString(ticks);
    IntToStringShape(ticks);
    FormatEntrySplit(eventId, d);
    FormatEntryTrims(eventId, d);
    ParseIntRoundTrip(ticks);
    EntryOfParts(FormatEntry(eventId, ticks), eventId, ticks);
  }

  /** The parsed form of each default entry. */
  const DefaultEntries: seq<Option<(string, int)>> := [Some(("minecraft:explode", 600)), Some(("minecraft:projectile_land", 200)), Some(("minecraft:projectile_shoot", 200)), Some(("minecraft:hit_ground", 150)), Some(("minecraft:step", 100)), Some(("minecraft:swim", 80)), Some(("minecraft:block_place", 150)), Some(("minecraft:block_destroy", 150)), Some(("minecraft:item_interact_finish", 100))]

  /** Each default entry is an event id, " = ", and a number. */
  lemma DefaultStrings()
    ensures DefaultEventDurations[0] == "minecraft:explode" + " = " + "600"
    ensures DefaultEventDurations[1] == "minecraft:projectile_land" + " = " + "200"
    ensures DefaultEventDurations[2] == "minecraft:projectile_shoot" + " = " + "200"
    ensures DefaultEventDurations[3] == "minecraft:hit_ground" + " = " + "150"
    ensures DefaultEventDurations[4] == "minecraft:step" + " = " + "100"
    ensures DefaultEventDurations[5] == "minecraft:swim" + " = " + "80"
    ensures DefaultEventDurations[6] == "minecraft:block_place" + " = " + "150"
    ensures DefaultEventDurations[7] == "minecraft:block_destroy" + " = " + "150"
    ensures DefaultEventDurations[8] == "minecraft:item_interact_finish" + " = " + "100"
  {
  }

  /** Each default entry is in the round-trip format (first five). */
  lemma DefaultEntryParsedFirst(k: nat)
    requires k < 5
    ensures Entry(DefaultEventDurations[k]) == DefaultEntries[k]
  {
    DefaultStrings();
    match k
    case 0 => assert IntToString(600) == "600"; FormatEntryRoundTrip("minecraft:explode", 600);
    case 1 => assert IntToString(200) == "200"; FormatEntryRoundTrip("minecraft:projectile_land", 200);
    case 2 => assert IntToString(200) == "200"; FormatEntryRoundTrip("minecraft:projectile_shoot", 200);
    case 3 => assert IntToString(150) == "150"; FormatEntryRoundTrip("minecraft:hit_ground", 150);
    case 4 => assert IntToString(100) == "100"; FormatEntryRoundTrip("minecraft:step", 100);
  }

  /** Each default entry is in the round-trip format (last four). */
  lemma DefaultEntryParsedLast(k: nat)
    requires 5 <= k < 9
    ensures Entry(DefaultEventDurations[k]) == DefaultEntries[k]
  {
    DefaultStrings();
    match k
    case 5 => assert IntToString(80) == "80"; FormatEntryRoundTrip("minecraft:swim", 80);
    case 6 => assert IntToString(150) == "150"; FormatEntryRoundTrip("minecraft:block_place", 150);
    case 7 => assert IntToString(150) == "150"; FormatEntryRoundTrip("minecraft:block_destroy", 150);
    case 8 => assert IntToString(100) == "100"; FormatEntryRoundTrip("minecraft:item_interact_finish", 100);
  }

  lemma DefaultEntriesParsed()
    ensures Entries(DefaultEventDurations) == DefaultEntries
  {
    forall k | 0 <= k < |DefaultEventDurations|
      ensures Entries(DefaultEventDurations)[k] == DefaultEntries[k]
    {
      if k < 5 {
        DefaultEntryParsedFirst(k);
      } else {
        DefaultEntryParsedLast(k);
      }
    }
  }

  /** One more entry of a list updates the map of the shorter list. */
  lemma FoldPrefixStep(es: seq<Option<(string, int)>>, k: nat)
    requires k < |es|
    ensures Fold(es[..k + 1]) ==
      if es[k].Some? then Fold(es[..k])[es[k].value.0 := es[k].value.1] else Fold(es[..k])
  {
    assert es[..k + 1][..k] == es[..k];
  }

  /** A list of nine contributing entries folds to the updates in list order. */
  lemma FoldNine(es: seq<Option<(string, int)>>)
    requires |es| == 9 && forall i :: 0 <= i < 9 ==> es[i].Some?
    ensures Fold(es) ==
      map[][es[0].value.0 := es[0].value.1][es[1].value.0 := es[1].value.1]
        [es[2].value.0 := es[2].value.1][es[3].value.0 := es[3].value.1]
        [es[4].value.0 := es[4].value.1][es[5].value.0 := es[5].value.1]
        [es[6].value.0 := es[6].value.1][es[7].value.0 := es[7].value.1]
        [es[8].value.0 := es[8].value.1]
  {
    assert es[..0] == [];
    FoldPrefixStep(es, 0);
    FoldPrefixStep(es, 1);
    FoldPrefixStep(es, 2);
    FoldPrefixStep(es, 3);
    FoldPrefixStep(es, 4);
    FoldPrefixStep(es, 5);
    FoldPrefixStep(es, 6);
    FoldPrefixStep(es, 7);
    FoldPrefixStep(es, 8);
    assert es[..9] == es;
  }

  /** The nine default entries parse to the nine intended durations. */
  lemma DefaultDurationsParsed()
    ensures ParseAll(DefaultEventDurations) ==
      map[]["minecraft:explode" := 600]["minecraft:projectile_land" := 200]
        ["minecraft:projectile_shoot" := 200]["minecraft:hit_ground" := 150]
        ["minecraft:step" := 100]["minecraft:swim" := 80]
        ["minecraft:block_place" := 150]["minecraft:block_destroy" := 150]
        ["minecraft:item_interact_finish" := 100]
  {
    DefaultEntriesParsed();
    FoldNine(DefaultEntries);
  }

  /** The body of `parseEventInvestigationDurations`' loop for one entry:
      the key and value of a well-formed `id = ticks`, or None for an entry
      the loop skips. */
  method ParseEntry(entry: string) returns (e: Option<(string, int)>)
    ensures e == Entry(entry)
  {
    var parts := JavaSplit(entry);
    if |parts| != 2 {
      return None;
    }
    var eventId := Trim(parts[0]);
    var duration := ParseInt(Trim(parts[1]));
    if duration.None? {
      return None;
    }
    return Some((eventId, duration.value));
  }

  /** `parseEventInvestigationDurations`: the loop that fills the map. */
  method ParseEventInvestigationDurations(entries: seq<string>) returns (durations: map<string, int>)
    ensures durations == ParseAll(entries)
  {
    ghost var es := Entries(entries);
    durations := map[];
    var i := 0;
    while i < |entries|
      invariant 0 <= i <= |entries|
      invariant durations == Fold(es[..i])
    {
      FoldPrefixStep(es, i);
      var e := ParseEntry(entries[i]);
      if e.Some? {
        durations := durations[e.value.0 := e.value.1];
      }
      i := i + 1;
    }
    assert es[..i] == es;
  }

  /** The parsed map, computed on first use and kept from then on. */
  class DurationCache {
    var cached: Option<map<string, int>>

    constructor()
      ensures cached.None?
    {
      cached := None;
    }

    /** `getEventInvestigationDurations`: parses the current list on the
        first call; later calls return the stored map unchanged. */
    method GetEventInvestigationDurations(entries: seq<string>) returns (m: map<string, int>)
      modifies this
      ensures old(cached).Some? ==> m == old(cached).value && cached == old(cached)
      ensures old(cached).None? ==> m == ParseAll(entries) && cached == Some(m)
    {
      if cached.None? {
        var parsed := ParseEventInvestigationDurations(entries);
        cached := Some(parsed);
      }
      m := cached.value;
    }

    /** `getInvestigationDurationForEvent`: the cached duration of the event,
        or the default duration when it has none. */
    method GetInvestigationDurationForEvent(eventId: string, entries: seq<string>, defaultTicks: int)
      returns (ticks: int)
      modifies this
      ensures var m := if old(cached).Some? then old(cached).value else ParseAll(entries);
        cached == Some(m) && ticks == (if eventId in m then m[eventId] else defaultTicks)
    {
      var m := GetEventInvestigationDurations(entries);
      ticks := if eventId in m then m[eventId] else defaultTicks;
    }
  }

  /** `getOrDefault` on the parsed map. */
  function DurationFor(entries: seq<string>, eventId: string, defaultTicks: int): (ticks: int)
    ensures ticks == defaultTicks || exists i :: 0 <= i < |entries| && Entry(entries[i]) == Some((eventId, ticks))
  {
    var m := ParseAll(entries);
    ParseAllLastWins(entries, eventId);
    if eventId in m then m[eventId] else defaultTicks
  }
}
