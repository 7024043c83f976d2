/**
 The rotation-bounded lifecycle log (tools/incus_sandbox/events.py). Records are ASCII, so a
 character is a byte. A write trims whole oldest lines until the new record fits.
 */
module EventLog {

  predicate IsLine(s: string) {
    s != [] && s[|s| - 1] == '\n' && forall i :: 0 <= i < |s| - 1 ==> s[i] != '\n'
  }

  /** What follows the first newline; nothing when there is none. */
  function DropLine(s: string): string {
    if s == [] then [] else if s[0] == '\n' then s[1..] else DropLine(s[1..])
  }

  lemma {:induction false} DropLineShrinks(s: string)
    requires s != []
    ensures |DropLine(s)| < |s|
  {
    if s[0] != '\n' && |s| > 1 {
      DropLineShrinks(s[1..]);
    }
  }

  /** The trimming loop's result. */
  function Retained(previous: string, remaining: nat): string
    decreases |previous|
  {
    if |previous| <= remaining then previous
    else
      DropLineShrinks(previous);
      Retained(DropLine(previous), remaining)
  }

  /** The log after one write; a record over the bound is refused and changes nothing. */
  function Written(log: string, record: string, maxBytes: nat): string {
    if |record| > maxBytes then log else Retained(log, maxBytes - |record|) + record
  }

  class EventWriter {
    const maxBytes: nat
    var log: string

    constructor (maxBytes: nat)
      ensures this.maxBytes == maxBytes && log == ""
    {
      this.maxBytes := maxBytes;
      log := "";
    }

    method Write(record: string) returns (accepted: bool)
      modifies this
      ensures accepted <==> |record| <= maxBytes
      ensures log == Written(old(log), record, maxBytes)
    {
      if |record| > maxBytes {
        return false;
      }
      var previous := log;
      var remaining := maxBytes - |record|;
      while previous != "" && |previous| > remaining
        invariant log == old(log)
        invariant Retained(previous, remaining) == Retained(log, remaining)
        decreases |previous|
      {
        DropLineShrinks(previous);
        previous := DropLine(previous);
      }
      log := previous + record;
      accepted := true;
    }
  }

  // ---- the global specification ------------------------------------------------------

  function Join(lines: seq<string>): string {
    if lines == [] then "" else lines[0] + Join(lines[1..])
  }

  ghost predicate AllLines(lines: seq<string>) {
    forall i :: 0 <= i < |lines| ==> IsLine(lines[i])
  }

  /** The events the log accepted, oldest first. */
  function Accepted(records: seq<string>, maxBytes: nat): seq<string> {
    if records == [] then []
    else
      var last := |records| - 1;
      Accepted(records[..last], maxBytes) + if |records[last]| <= maxBytes then [records[last]] else []
  }

  function WriteAll(records: seq<string>, maxBytes: nat): string {
    if records == [] then ""
    else
      var last := |records| - 1;
      Written(WriteAll(records[..last], maxBytes), records[last], maxBytes)
  }

  /** The suffix from `from` on is the longest one that fits: one line more would not. */
  ghost predicate LongestFittingSuffix(history: seq<string>, from: nat, maxBytes: nat) {
    && from <= |history|
    && |Join(history[from..])| <= maxBytes
    && forall k :: 0 <= k < from ==> Overflows(history, k, maxBytes)
  }

  ghost predicate Overflows(history: seq<string>, k: nat, maxBytes: nat)
    requires k <= |history|
  {
    |Join(history[k..])| > maxBytes
  }

  lemma {:induction false} JoinAppend(a: seq<string>, b: seq<string>)
    ensures Join(a + b) == Join(a) + Join(b)
  {
    if a == [] {
      assert a + b == b;
    } else {
      assert (a + b)[1..] == a[1..] + b;
      JoinAppend(a[1..], b);
    }
  }

  lemma {:induction false} DropFirstLine(line: string, rest: string)
    requires IsLine(line)
    ensures DropLine(line + rest) == rest
  {
    assert (line + rest)[1..] == line[1..] + rest;
    if line[0] != '\n' {
      DropFirstLine(line[1..], rest);
    }
  }

  /** The first line of the longest suffix that fits. */
  function Start(history: seq<string>, maxBytes: nat): (from: nat)
    ensures from <= |history|
  {
    if |Join(history)| <= maxBytes then 0 else 1 + Start(history[1..], maxBytes)
  }

  lemma {:induction false} StartIsLongest(history: seq<string>, maxBytes: nat)
    ensures LongestFittingSuffix(history, Start(history, maxBytes), maxBytes)
  {
    var from := Start(history, maxBytes);
    if |Join(history)| <= maxBytes {
      assert history[0..] == history;
    } else {
      StartIsLongest(history[1..], maxBytes);
      assert history[from..] == history[1..][from - 1..];
      forall k | 0 <= k < from ensures Overflows(history, k, maxBytes) {
        if k == 0 {
          assert history[0..] == history;
        } else {
          assert Overflows(history[1..], k - 1, maxBytes);
          assert history[k..] == history[1..][k - 1..];
        }
      }
    }
  }

  lemma LongestIsUnique(history: seq<string>, a: nat, b: nat, maxBytes: nat)
    requires LongestFittingSuffix(history, a, maxBytes) && LongestFittingSuffix(history, b, maxBytes)
    ensures a == b
  {
    assert !Overflows(history, a, maxBytes) && !Overflows(history, b, maxBytes);
  }

  /** Trimming whole lines one at a time finds the longest suffix that fits. */
  lemma {:induction false} TrimmingFindsLongest(lines: seq<string>, remaining: nat)
    requires AllLines(lines)
    ensures Retained(Join(lines), remaining) == Join(lines[Start(lines, remaining)..])
  {
    if |Join(lines)| <= remaining {
      assert lines[0..] == lines;
    } else {
      DropFirstLine(lines[0], Join(lines[1..]));
      DropLineShrinks(Join(lines));
      TrimmingFindsLongest(lines[1..], remaining);
      StartIsLongest(lines[1..], remaining);
      assert lines[1..][Start(lines[1..], remaining)..] == lines[Start(lines, remaining)..];
    }
  }

  /**
   After any sequence of writes the log is exactly the longest suffix of the whole accepted history
   that fits the bound, in whole lines: trimming at each write loses nothing it could have kept.
   */
  lemma LogIsLongestSuffix(records: seq<string>, maxBytes: nat)
    requires AllLines(records)
    ensures var history := Accepted(records, maxBytes);
      && AllLines(history)
      && LongestFittingSuffix(history, Start(history, maxBytes), maxBytes)
      && WriteAll(records, maxBytes) == Join(history[Start(history, maxBytes)..])
      && |WriteAll(records, maxBytes)| <= maxBytes
  {
    LogFollowsHistory(records, maxBytes);
    StartIsLongest(Accepted(records, maxBytes), maxBytes);
  }

  lemma {:induction false} LogFollowsHistory(records: seq<string>, maxBytes: nat)
    requires AllLines(records)
    ensures var history := Accepted(records, maxBytes);
      AllLines(history) && WriteAll(records, maxBytes) == Join(history[Start(history, maxBytes)..])
  {
    if records != [] {
      var last := |records| - 1;
      LogFollowsHistory(records[..last], maxBytes);
      var before := Accepted(records[..last], maxBytes);
      if |records[last]| <= maxBytes {
        AppendToHistory(before, records[last], maxBytes);
      } else {
        assert before + [] == before;
      }
    }
  }

  /** One write over a log that is the longest suffix leaves the longest suffix of the longer history. */
  lemma AppendToHistory(before: seq<string>, record: string, maxBytes: nat)
    requires AllLines(before) && |record| <= maxBytes
    ensures var after := before + [record];
      Written(Join(before[Start(before, maxBytes)..]), record, maxBytes) == Join(after[Start(after, maxBytes)..])
  {
    var start := Start(before, maxBytes);
    var kept, after := before[start..], before + [record];
    TrimmingFindsLongest(kept, maxBytes - |record|);
    StartAfterAppend(before, record, maxBytes);
    var from := Start(after, maxBytes);
    assert kept[Start(kept, maxBytes - |record|)..] == before[from..];
    assert after[from..] == before[from..] + [record];
    JoinAppend(before[from..], [record]);
    JoinOne(record);
  }

  lemma JoinOne(record: string)
    ensures Join([record]) == record
  {
    assert [record][1..] == [];
    assert record + "" == record;
  }

  lemma StartIsTheLongest(history: seq<string>, from: nat, maxBytes: nat)
    requires LongestFittingSuffix(history, from, maxBytes)
    ensures Start(history, maxBytes) == from
  {
    StartIsLongest(history, maxBytes);
    LongestIsUnique(history, from, Start(history, maxBytes), maxBytes);
  }

  lemma StartAfterAppend(before: seq<string>, record: string, maxBytes: nat)
    requires |record| <= maxBytes
    ensures var start := Start(before, maxBytes);
      Start(before + [record], maxBytes) == start + Start(before[start..], maxBytes - |record|)
  {
    var start := Start(before, maxBytes);
    var more := Start(before[start..], maxBytes - |record|);
    StartIsLongest(before, maxBytes);
    StartIsLongest(before[start..], maxBytes - |record|);
    SuffixAfterAppend(before, record, start, more, maxBytes);
    StartIsTheLongest(before + [record], start + more, maxBytes);
  }

  lemma JoinSuffixAppended(before: seq<string>, record: string, k: nat)
    requires k <= |before|
    ensures Join((before + [record])[k..]) == Join(before[k..]) + record
  {
    assert (before + [record])[k..] == before[k..] + [record];
    JoinAppend(before[k..], [record]);
    JoinOne(record);
  }

  lemma SuffixAfterAppend(before: seq<string>, record: string, start: nat, more: nat, maxBytes: nat)
    requires |record| <= maxBytes && start + more <= |before|
    requires LongestFittingSuffix(before, start, maxBytes)
    requires LongestFittingSuffix(before[start..], more, maxBytes - |record|)
    ensures LongestFittingSuffix(before + [record], start + more, maxBytes)
  {
    assert before[start..][more..] == before[start + more..];
    JoinSuffixAppended(before, record, start + more);
    forall k | 0 <= k < start + more ensures Overflows(before + [record], k, maxBytes) {
      JoinSuffixAppended(before, record, k);
      if k >= start {
        assert Overflows(before[start..], k - start, maxBytes - |record|);
        assert before[start..][k - start..] == before[k..];
      } else {
        assert Overflows(before, k, maxBytes);
      }
    }
  }
}
