// The alert pane: the text of every alert line the inventory produces, and
// the list transformations behind remove_alert, check_low_stock_alert,
// check_greenhouse_alert and the greenhouse flag change of update_plant.
module Alerts {
  import opened Text

  /** The month number of the current date. */
  type Month = m: int | 1 <= m <= 12 witness 1

  /** Greenhouse season: October through May. */
  predicate InSeason(month: Month)
  {
    month >= 10 || month <= 5
  }

  const GreenhousePrefix: string := "GREENHOUSE ALERT:"

  /** The single fleet-wide greenhouse line (written in pieces so that the
      verifier can read its characters). */
  const FleetLine: string :=
    GreenhousePrefix + " Some plants require" + " greenhouse." + " Consider moving" + " them in."

  /** The text remove_alert looks for: Plant '<name>'. */
  function PlantKey(name: string): string
  {
    "Plant '" + name + "'"
  }

  function CriticalLine(name: string, quantity: int): string
  {
    "CRITICAL ALERT: Plant '" + name + "' is out of stock (Quantity: " + Decimal(quantity) + ")"
  }

  function LowLine(name: string, quantity: int): string
  {
    "Alert: Plant '" + name + "' is low on stock (Quantity: " + Decimal(quantity) + ")"
  }

  function NoSupplierLine(name: string): string
  {
    "Alert: Plant '" + name + "' has no supplier assigned."
  }

  function PlantGreenhouseLine(name: string): string
  {
    GreenhousePrefix + " " + PlantKey(name) + " now requires a greenhouse. Consider moving it in."
  }

  /** The test remove_alert applies to each line. */
  predicate IsGreenhouseLineFor(line: string, name: string)
  {
    StartsWith(line, GreenhousePrefix) && Contains(line, PlantKey(name))
  }

  // ---------- remove_alert ----------

  /** The alert list after remove_alert(name): the lines that fail the test,
      in their original order. */
  function Without(lines: seq<string>, name: string): seq<string>
    decreases |lines|
  {
    if lines == [] then []
    else (if IsGreenhouseLineFor(lines[0], name) then [] else [lines[0]]) + Without(lines[1..], name)
  }

  /** remove_alert deletes every copy of a matching line and keeps every copy
      of any other line. */
  lemma {:induction false} WithoutCount(lines: seq<string>, name: string, x: string)
    ensures multiset(Without(lines, name))[x]
         == if IsGreenhouseLineFor(x, name) then 0 else multiset(lines)[x]
    decreases |lines|
  {
    if lines != [] {
      WithoutCount(lines[1..], name, x);
      assert lines == [lines[0]] + lines[1..];
    }
  }

  lemma WithoutMembership(lines: seq<string>, name: string, x: string)
    ensures x in Without(lines, name) <==> x in lines && !IsGreenhouseLineFor(x, name)
  {
    WithoutCount(lines, name, x);
    assert x in Without(lines, name) <==> x in multiset(Without(lines, name));
    assert x in lines <==> x in multiset(lines);
  }

  /** remove_alert works line by line: it keeps the relative order of what
      survives. */
  lemma {:induction false} WithoutConcat(a: seq<string>, b: seq<string>, name: string)
    ensures Without(a + b, name) == Without(a, name) + Without(b, name)
    decreases |a|
  {
    if a == [] {
      assert a + b == b;
    } else {
      assert (a + b)[0] == a[0];
      assert (a + b)[1..] == a[1..] + b;
      WithoutConcat(a[1..], b, name);
    }
  }

  /** One step of remove_alert's backward loop: with the lines after i
      already filtered, deleting line i when it matches (and keeping it
      otherwise) leaves the lines from i on filtered. */
  lemma WithoutStep(lines: seq<string>, k: nat, name: string, current: seq<string>)
    requires 0 < k <= |lines| && current == lines[..k] + Without(lines[k..], name)
    ensures k <= |current| && current[k - 1] == lines[k - 1]
    ensures lines[..k - 1] + Without(lines[k - 1..], name)
      == if IsGreenhouseLineFor(lines[k - 1], name) then current[..k - 1] + current[k..] else current
  {
    var i := k - 1;
    assert lines[i..][0] == lines[i];
    assert lines[i..][1..] == lines[k..];
    assert lines[..k] == lines[..i] + [lines[i]];
    assert current[..i] == lines[..i];
    assert current[k..] == Without(lines[k..], name);
  }

  /** A list with no matching line is left as it is. */
  lemma {:induction false} WithoutNoMatch(lines: seq<string>, name: string)
    requires forall i :: 0 <= i < |lines| ==> !IsGreenhouseLineFor(lines[i], name)
    ensures Without(lines, name) == lines
    decreases |lines|
  {
    if lines != [] {
      WithoutNoMatch(lines[1..], name);
    }
  }

  /** Running remove_alert twice with the same name equals running it once. */
  lemma {:induction false} WithoutIdempotent(lines: seq<string>, name: string)
    ensures Without(Without(lines, name), name) == Without(lines, name)
    decreases |lines|
  {
    if lines != [] {
      WithoutIdempotent(lines[1..], name);
      var w := Without(lines[1..], name);
      if !IsGreenhouseLineFor(lines[0], name) {
        assert Without(lines, name) == [lines[0]] + w;
        assert ([lines[0]] + w)[0] == lines[0];
        assert ([lines[0]] + w)[1..] == w;
      } else {
        assert Without(lines, name) == w;
      }
    }
  }

  /** The fleet line names no plant, so remove_alert never deletes it. */
  lemma FleetNeverMatches(name: string)
    ensures !IsGreenhouseLineFor(FleetLine, name)
  {
    var key := PlantKey(name);
    assert key[6] == '\'';
    NotContainsWithoutChar(FleetLine, key, '\'');
  }

  /** A plant's own greenhouse line is one that remove_alert removes for it. */
  lemma PlantGreenhouseLineMatches(name: string)
    ensures IsGreenhouseLineFor(PlantGreenhouseLine(name), name)
  {
    var line := PlantGreenhouseLine(name);
    var key := PlantKey(name);
    var head := GreenhousePrefix + " ";
    var tail := " now requires a greenhouse. Consider moving it in.";
    assert line == head + key + tail;
    assert line[..|GreenhousePrefix|] == GreenhousePrefix;
    assert |head| == 18;
    assert line[18..18 + |key|] == key;
    ContainsAt(line, key, 18);
  }

  /** Stock and supplier lines never start with "GREENHOUSE ALERT:", so
      remove_alert leaves them in place whatever the name. */
  lemma StockLinesAreNotGreenhouseLines(plant: string, quantity: int, name: string)
    ensures !IsGreenhouseLineFor(CriticalLine(plant, quantity), name)
    ensures !IsGreenhouseLineFor(LowLine(plant, quantity), name)
    ensures !IsGreenhouseLineFor(NoSupplierLine(plant), name)
  {
    NotGreenhousePrefixed(CriticalLine(plant, quantity), name);
    NotGreenhousePrefixed(LowLine(plant, quantity), name);
    NotGreenhousePrefixed(NoSupplierLine(plant), name);
  }

  /** A line that does not begin with 'G' is never a greenhouse line. */
  lemma NotGreenhousePrefixed(line: string, name: string)
    requires |line| > 0 && line[0] != 'G'
    ensures !IsGreenhouseLineFor(line, name)
  {
    assert GreenhousePrefix[0] == 'G';
  }

  lemma LinesDifferFromFleetLine(plant: string, quantity: int)
    ensures CriticalLine(plant, quantity) != FleetLine
    ensures LowLine(plant, quantity) != FleetLine
    ensures NoSupplierLine(plant) != FleetLine
    ensures PlantGreenhouseLine(plant) != FleetLine
  {
    assert CriticalLine(plant, quantity)[0] == 'C';
    assert LowLine(plant, quantity)[0] == 'A';
    assert NoSupplierLine(plant)[0] == 'A';
    assert PlantGreenhouseLine(plant)[18] == 'P' != FleetLine[18];
  }

  lemma FleetCountAppend(lines: seq<string>, line: string)
    requires line != FleetLine
    ensures multiset(lines + [line])[FleetLine] == multiset(lines)[FleetLine]
  {
  }

  lemma FleetCountWithout(lines: seq<string>, name: string)
    ensures multiset(Without(lines, name))[FleetLine] == multiset(lines)[FleetLine]
  {
    FleetNeverMatches(name);
    WithoutCount(lines, name, FleetLine);
  }

  // ---------- check_low_stock_alert ----------

  /** The alert list after check_low_stock_alert for a plant: a CRITICAL line
      at 0, a low-stock line below 5, otherwise remove_alert(name). */
  function StockCheck(lines: seq<string>, name: string, quantity: int): seq<string>
  {
    if quantity == 0 then lines + [CriticalLine(name, quantity)]
    else if quantity < 5 then lines + [LowLine(name, quantity)]
    else Without(lines, name)
  }

  /** What the stock rule does, by quantity: below 5 it appends exactly one
      line after the untouched old ones (even when that line is already
      present); from 5 on it appends nothing and deletes only the plant's
      greenhouse lines, so no stock line is ever withdrawn. */
  lemma StockCheckOutcome(lines: seq<string>, name: string, quantity: int)
    ensures var r := StockCheck(lines, name, quantity);
      && (quantity == 0 ==> r == lines + [CriticalLine(name, 0)])
      && (quantity != 0 && quantity < 5 ==> r == lines + [LowLine(name, quantity)])
      && (quantity < 5 ==> |r| == |lines| + 1 && r[..|lines|] == lines)
      && (quantity >= 5 ==>
            && (forall x :: x in r ==> x in lines && !IsGreenhouseLineFor(x, name))
            && (forall x :: !IsGreenhouseLineFor(x, name) ==> multiset(r)[x] == multiset(lines)[x]))
  {
    var r := StockCheck(lines, name, quantity);
    if quantity < 5 {
      assert r[..|lines|] == lines;
    } else {
      forall x ensures x in r ==> x in lines && !IsGreenhouseLineFor(x, name) {
        WithoutMembership(lines, name, x);
      }
      forall x | !IsGreenhouseLineFor(x, name) ensures multiset(r)[x] == multiset(lines)[x] {
        WithoutCount(lines, name, x);
      }
    }
  }

  /** A restock does not withdraw an earlier out-of-stock line: after
      remove_alert and the stock rule with any quantity, it is still there. */
  lemma StaleCriticalLineSurvives(lines: seq<string>, name: string, quantity: int)
    requires CriticalLine(name, 0) in lines
    ensures CriticalLine(name, 0) in StockCheck(Without(lines, name), name, quantity)
  {
    StockLinesAreNotGreenhouseLines(name, 0, name);
    WithoutMembership(lines, name, CriticalLine(name, 0));
    WithoutMembership(Without(lines, name), name, CriticalLine(name, 0));
  }

  lemma FleetCountStockCheck(lines: seq<string>, name: string, quantity: int)
    ensures multiset(StockCheck(lines, name, quantity))[FleetLine] == multiset(lines)[FleetLine]
  {
    LinesDifferFromFleetLine(name, quantity);
    FleetCountWithout(lines, name);
  }

  // ---------- check_greenhouse_alert ----------

  /** alerts.index(x): the first position of x. */
  function FirstIndex(lines: seq<string>, x: string): (k: nat)
    requires x in lines
    ensures k < |lines| && lines[k] == x && x !in lines[..k]
    decreases |lines|
  {
    if lines[0] == x then 0
    else
      assert x in lines[1..];
      var k' := FirstIndex(lines[1..], x);
      assert lines[..k' + 1] == [lines[0]] + lines[1..][..k'];
      k' + 1
  }

  /** The alert list after check_greenhouse_alert, given whether the season
      is on and some plant needs a greenhouse: the first fleet line is
      deleted when none is needed, one is appended when needed and absent. */
  function FleetToggled(lines: seq<string>, needed: bool): seq<string>
  {
    if FleetLine in lines && !needed then
      var k := FirstIndex(lines, FleetLine);
      lines[..k] + lines[k + 1..]
    else if needed && FleetLine !in lines then lines + [FleetLine]
    else lines
  }

  /** Starting from at most one copy, the fleet line is present afterwards
      exactly when it is needed, and there is still at most one. */
  lemma FleetToggledPresence(lines: seq<string>, needed: bool)
    requires multiset(lines)[FleetLine] <= 1
    ensures FleetLine in FleetToggled(lines, needed) <==> needed
    ensures multiset(FleetToggled(lines, needed))[FleetLine] <= 1
  {
    if FleetLine in lines && !needed {
      var k := FirstIndex(lines, FleetLine);
      assert lines == lines[..k] + [FleetLine] + lines[k + 1..];
      assert multiset(lines)[FleetLine]
          == multiset(lines[..k])[FleetLine] + 1 + multiset(lines[k + 1..])[FleetLine];
      assert FleetLine !in multiset(lines[..k] + lines[k + 1..]);
    } else if needed && FleetLine !in lines {
      assert multiset(lines)[FleetLine] == 0;
    }
  }

  /** The lines other than the fleet line, in order. */
  function NonFleetLines(lines: seq<string>): seq<string>
    decreases |lines|
  {
    if lines == [] then []
    else (if lines[0] == FleetLine then [] else [lines[0]]) + NonFleetLines(lines[1..])
  }

  lemma {:induction false} NonFleetConcat(a: seq<string>, b: seq<string>)
    ensures NonFleetLines(a + b) == NonFleetLines(a) + NonFleetLines(b)
    decreases |a|
  {
    if a == [] {
      assert a + b == b;
    } else {
      assert (a + b)[0] == a[0];
      assert (a + b)[1..] == a[1..] + b;
      NonFleetConcat(a[1..], b);
    }
  }

  /** check_greenhouse_alert touches no other line and keeps their order. */
  lemma FleetToggledKeepsOthers(lines: seq<string>, needed: bool)
    ensures NonFleetLines(FleetToggled(lines, needed)) == NonFleetLines(lines)
  {
    if FleetLine in lines && !needed {
      var k := FirstIndex(lines, FleetLine);
      assert lines == lines[..k] + ([FleetLine] + lines[k + 1..]);
      NonFleetConcat(lines[..k], [FleetLine] + lines[k + 1..]);
      NonFleetConcat([FleetLine], lines[k + 1..]);
      NonFleetConcat(lines[..k], lines[k + 1..]);
    } else if needed && FleetLine !in lines {
      NonFleetConcat(lines, [FleetLine]);
    }
  }

  /** A second check with the same plants and month changes nothing. */
  lemma FleetToggledIdempotent(lines: seq<string>, needed: bool)
    requires multiset(lines)[FleetLine] <= 1
    ensures FleetToggled(FleetToggled(lines, needed), needed) == FleetToggled(lines, needed)
  {
    FleetToggledPresence(lines, needed);
  }

  // ---------- the greenhouse flag change of update_plant ----------

  /** The alert list after the Greenhouse Required column of the plant named
      name changes from oldFlag to newFlag. */
  function GreenhouseFlip(lines: seq<string>, oldFlag: string, newFlag: string, name: string, month: Month): seq<string>
  {
    if Lower(oldFlag) == "yes" && Lower(newFlag) == "no" then Without(lines, name)
    else if Lower(oldFlag) == "no" && Lower(newFlag) == "yes" && InSeason(month) then
      lines + [PlantGreenhouseLine(name)]
    else lines
  }

  /** yes to no leaves no greenhouse line for the plant and every other line;
      no to yes in season appends exactly one line, keyed to the plant;
      every other change (including no to yes out of season) leaves the
      list as it is. */
  lemma GreenhouseFlipOutcome(lines: seq<string>, oldFlag: string, newFlag: string, name: string, month: Month)
    ensures var r := GreenhouseFlip(lines, oldFlag, newFlag, name, month);
      && (Lower(oldFlag) == "yes" && Lower(newFlag) == "no" ==>
            && (forall x :: x in r ==> !IsGreenhouseLineFor(x, name))
            && (forall x :: !IsGreenhouseLineFor(x, name) ==> multiset(r)[x] == multiset(lines)[x]))
      && (Lower(oldFlag) == "no" && Lower(newFlag) == "yes" && InSeason(month) ==>
            && r[..|lines|] == lines
            && |r| == |lines| + 1
            && IsGreenhouseLineFor(r[|lines|], name))
      && ((!(Lower(oldFlag) == "yes" && Lower(newFlag) == "no")
           && !(Lower(oldFlag) == "no" && Lower(newFlag) == "yes" && InSeason(month))) ==> r == lines)
  {
    var r := GreenhouseFlip(lines, oldFlag, newFlag, name, month);
    if Lower(oldFlag) == "yes" && Lower(newFlag) == "no" {
      forall x ensures x in r ==> !IsGreenhouseLineFor(x, name) {
        WithoutMembership(lines, name, x);
      }
      forall x | !IsGreenhouseLineFor(x, name) ensures multiset(r)[x] == multiset(lines)[x] {
        WithoutCount(lines, name, x);
      }
    } else if Lower(oldFlag) == "no" && Lower(newFlag) == "yes" && InSeason(month) {
      PlantGreenhouseLineMatches(name);
      assert r[..|lines|] == lines;
    }
  }

  /** Switching a plant's flag from no to yes in season and back again leaves
      what a single remove_alert for it would have left. */
  lemma GreenhouseFlipRoundTrip(lines: seq<string>, name: string, month: Month)
    requires InSeason(month)
    ensures GreenhouseFlip(GreenhouseFlip(lines, "no", "yes", name, month), "yes", "no", name, month)
         == Without(lines, name)
  {
    assert Lower("no") == "no" && Lower("yes") == "yes";
    PlantGreenhouseLineMatches(name);
    WithoutConcat(lines, [PlantGreenhouseLine(name)], name);
  }

  lemma FleetCountGreenhouseFlip(lines: seq<string>, oldFlag: string, newFlag: string, name: string, month: Month)
    ensures multiset(GreenhouseFlip(lines, oldFlag, newFlag, name, month))[FleetLine] == multiset(lines)[FleetLine]
  {
    LinesDifferFromFleetLine(name, 0);
    FleetCountWithout(lines, name);
  }
}
