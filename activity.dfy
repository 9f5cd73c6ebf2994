/**
 * The activity log (AwarenessChatbot/ActivityLog.cs): a list of timestamped
 * entries, capped at MaxLogEntries by dropping the oldest, with a query for the
 * most recent ones.
 *
 * The clock is not modelled: RecordAction receives the formatted timestamp
 * ("yyyy-MM-dd HH:mm:ss" in the source) as a parameter.
 */
module Activity {

  const MaxLogEntries: nat := 100

  /** The entry RecordAction stores: "[timestamp] action". */
  function Stamp(timestamp: string, action: string): (r: string)
    ensures |r| == |timestamp| + |action| + 3
    ensures r[0] == '[' && r[|timestamp| + 1..|timestamp| + 3] == "] " && r[|timestamp| + 3..] == action
  {
    "[" + timestamp + "] " + action
  }

  /** The last n entries of a list (all of it when it is shorter), oldest first. */
  function LastN(s: seq<string>, n: nat): (r: seq<string>)
    ensures |r| == (if n < |s| then n else |s|)
    ensures r == s[|s| - |r|..]
  {
    if n < |s| then s[|s| - n..] else s
  }

  /** The list after one RecordAction: the entry is appended and, past the cap, the oldest is dropped. */
  function Appended(log: seq<string>, entry: string): seq<string>
  {
    var grown := log + [entry];
    if |grown| > MaxLogEntries then grown[1..] else grown
  }

  /** The list after recording the entries one after another, earliest first. */
  function RecordAll(log: seq<string>, entries: seq<string>): seq<string>
  {
    if entries == [] then log
    else Appended(RecordAll(log, entries[..|entries| - 1]), entries[|entries| - 1])
  }

  /**
   * One RecordAction on a list within the cap: the new entry is last, the list
   * stays within the cap, below the cap nothing is lost, at the cap exactly the
   * oldest entry is dropped, and the result is the last MaxLogEntries of old
   * list plus entry.
   */
  lemma AppendedWithinCap(log: seq<string>, entry: string)
    requires |log| <= MaxLogEntries
    ensures var r := Appended(log, entry);
      |r| <= MaxLogEntries && r[|r| - 1] == entry &&
      (|log| < MaxLogEntries ==> r == log + [entry]) &&
      (|log| == MaxLogEntries ==> r == log[1..] + [entry]) &&
      r == LastN(log + [entry], MaxLogEntries)
  {
    var grown := log + [entry];
    if |grown| > MaxLogEntries {
      assert grown[1..] == log[1..] + [entry];
    }
  }

  /** The last n of a list with one more element are the last n - 1 of the list, then that element. */
  lemma LastNSnoc(s: seq<string>, e: string, n: nat)
    requires n >= 1
    ensures LastN(s + [e], n) == LastN(s, n - 1) + [e]
  {
    var r := LastN(s + [e], n);
    assert r[..|r| - 1] == LastN(s, n - 1);
  }

  /** Taking the last m of the last n is taking the last m, when m <= n. */
  lemma LastNLastN(s: seq<string>, n: nat, m: nat)
    requires m <= n
    ensures LastN(LastN(s, n), m) == LastN(s, m)
  {
  }

  /**
   * However many entries are recorded into a list within the cap, the result is
   * exactly the last MaxLogEntries entries of everything, in chronological order.
   */
  lemma {:induction false} RecordAllKeepsLast(log: seq<string>, entries: seq<string>)
    requires |log| <= MaxLogEntries
    ensures RecordAll(log, entries) == LastN(log + entries, MaxLogEntries)
  {
    if entries != [] {
      var front := entries[..|entries| - 1];
      var e := entries[|entries| - 1];
      var all := log + front;
      RecordAllKeepsLast(log, front);
      var before := RecordAll(log, front);
      assert before == LastN(all, MaxLogEntries);
      calc {
        RecordAll(log, entries);
        Appended(before, e);
        { AppendedWithinCap(before, e); }
        LastN(before + [e], MaxLogEntries);
        { LastNSnoc(before, e, MaxLogEntries); }
        LastN(before, MaxLogEntries - 1) + [e];
        { LastNLastN(all, MaxLogEntries, MaxLogEntries - 1); }
        LastN(all, MaxLogEntries - 1) + [e];
        { LastNSnoc(all, e, MaxLogEntries); }
        LastN(all + [e], MaxLogEntries);
        { assert log + entries == all + [e]; }
        LastN(log + entries, MaxLogEntries);
      }
    }
  }

  /** LINQ Skip: drops the first n elements (all of them when n is past the end). */
  function Skip(s: seq<string>, n: int): seq<string>
  {
    if n <= 0 then s else if n >= |s| then [] else s[n..]
  }

  /** LINQ Take: keeps the first n elements (none when n is not positive). */
  function Take(s: seq<string>, n: int): seq<string>
  {
    if n <= 0 then [] else if n >= |s| then s else s[..n]
  }

  class ActivityLog {
    var logEntries: seq<string>

    ghost predicate Valid()
      reads this
    {
      |logEntries| <= MaxLogEntries
    }

    constructor()
      ensures Valid() && logEntries == []
    {
      logEntries := [];
    }

    /** Appends "[timestamp] action", dropping the oldest entry once the cap is exceeded. */
    method RecordAction(action: string, timestamp: string)
      requires Valid()
      modifies this
      ensures Valid()
      ensures logEntries == Appended(old(logEntries), Stamp(timestamp, action))
      ensures logEntries == LastN(old(logEntries) + [Stamp(timestamp, action)], MaxLogEntries)
    {
      AppendedWithinCap(logEntries, Stamp(timestamp, action));
      logEntries := logEntries + [Stamp(timestamp, action)];
      if |logEntries| > MaxLogEntries {
        logEntries := logEntries[1..];
      }
    }

    /**
     * The count most recent entries, oldest first: the whole log when it is
     * shorter, nothing for a negative count.
     */
    function GetRecentActions(count: int): (r: seq<string>)
      reads this
      ensures count <= 0 ==> r == []
      ensures count >= 0 ==> r == LastN(logEntries, count)
    {
      var startIndex := if |logEntries| - count > 0 then |logEntries| - count else 0;
      Take(Skip(logEntries, startIndex), count)
    }

    /** A copy of every entry, oldest first. */
    function GetAllActions(): (r: seq<string>)
      reads this
      ensures r == logEntries
      ensures Valid() ==> |r| <= MaxLogEntries
    {
      logEntries
    }
  }
}
