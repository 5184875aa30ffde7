/**
 * The daily intake log (app.js:279-340, 445-461). The persisted store holds
 * a daily target and a log that maps a date string to its entries; every
 * operation loads the log, changes it and saves it back. The store is the
 * class `Store` below, and each change it makes is specified by a pure
 * transition on the log (`Added`, `Removed`, `Cleared`).
 */
module DailyLog {
  import opened Numeric
  import opened Seqs

  /** One logged intake: a random id, a timestamp in epoch milliseconds, whole kilocalories. */
  datatype Entry = Entry(id: string, at: int, kcal: nat)

  /** The persisted log: date string to entries, oldest first. */
  type Log = map<string, seq<Entry>>

  /** What `getTotals` derives for one date. */
  datatype Totals = Totals(target: real, consumed: nat, pct: int, remaining: real, over: real, entries: seq<Entry>)

  /** The entries of a date, or none when the date has no record (`data[dateISO]?.entries || []`). */
  function EntriesOf(log: Log, date: string): (r: seq<Entry>)
    ensures date in log ==> r == log[date]
    ensures date !in log ==> r == []
  {
    if date in log then log[date] else []
  }

  /**
   * The kilocalories `addEntry` stores for `value` typed in `unit`: kilojoules
   * are divided by 4.184 when the unit is exactly "kJ", negatives become 0,
   * and the result is rounded half up.
   */
  function EntryKcal(value: real, unit: string): (k: nat)
    ensures var v := if unit == "kJ" then value / KJ_PER_KCAL else value;
            if v <= 0.0 then k == 0 else v - 0.5 < k as real <= v + 0.5
  {
    Round(Max(0.0, if unit == "kJ" then value / KJ_PER_KCAL else value))
  }

  /** The log after `e` is pushed onto the entries of `date` (created empty if absent). */
  function Added(log: Log, date: string, e: Entry): (r: Log)
    ensures r.Keys == log.Keys + {date}
    ensures r[date] == EntriesOf(log, date) + [e]
    ensures forall d :: d in log && d != date ==> r[d] == log[d]
  {
    log[date := EntriesOf(log, date) + [e]]
  }

  /** Keeps the entries whose id is not `id`. */
  function NotEntryId(id: string): Entry -> bool {
    (e: Entry) => e.id != id
  }

  /**
   * The log after the entries of `date` with id `id` are dropped; an absent
   * date is left alone and a present one stays present, even when emptied.
   */
  function Removed(log: Log, date: string, id: string): (r: Log)
    ensures r.Keys == log.Keys
    ensures date !in log ==> r == log
    ensures forall d :: d in log && d != date ==> r[d] == log[d]
    ensures date in log ==> r[date] == Filter(log[date], NotEntryId(id))
    ensures date in log ==> forall i :: 0 <= i < |r[date]| ==> r[date][i].id != id && r[date][i] in log[date]
    ensures date in log ==> forall i :: 0 <= i < |log[date]| && log[date][i].id != id ==> log[date][i] in r[date]
  {
    if date !in log then log
    else log[date := Filter(log[date], NotEntryId(id))]
  }

  /** The log after the record of `date` is deleted. */
  function Cleared(log: Log, date: string): (r: Log)
    ensures r.Keys == log.Keys - {date}
    ensures forall d :: d in r ==> r[d] == log[d]
  {
    log - {date}
  }

  /** Sum of the entries' kilocalories (the `reduce` in `getTotals`). */
  function Sum(entries: seq<Entry>): (r: nat)
    ensures |entries| == 0 ==> r == 0
    ensures forall i :: 0 <= i < |entries| ==> entries[i].kcal <= r
    decreases |entries|
  {
    if |entries| == 0 then 0 else Sum(entries[..|entries| - 1]) + entries[|entries| - 1].kcal
  }

  /**
   * `getTotals` for a target and a date's entries. `pct` is the rounded
   * percentage capped at 100, or 0 for a zero target; remaining and over
   * are the two one-sided differences.
   */
  function ComputeTotals(target: real, entries: seq<Entry>): (t: Totals)
    ensures t.target == target && t.entries == entries && t.consumed == Sum(entries)
    ensures target == 0.0 ==> t.pct == 0
    ensures target != 0.0 ==>
      var x := t.consumed as real / target * 100.0;
      (RoundsTo(t.pct, x) && t.pct <= 100) || (t.pct == 100 && x >= 100.5)
    ensures target >= 0.0 ==> 0 <= t.pct <= 100
    ensures target > 0.0 && t.consumed as real >= target ==> t.pct == 100
    ensures t.remaining >= 0.0 && t.over >= 0.0
    ensures !(t.remaining > 0.0 && t.over > 0.0)
    ensures t.remaining - t.over == target - t.consumed as real
    ensures (t.remaining == 0.0 && t.over == 0.0) <==> t.consumed as real == target
  {
    var consumed := Sum(entries);
    var pct := if target != 0.0 then
                 (var p := Round(consumed as real / target * 100.0); if p <= 100 then p else 100)
               else 0;
    QuotientBounds(consumed as real, target);
    Totals(target, consumed, pct, Max(0.0, target - consumed as real), Max(0.0, consumed as real - target), entries)
  }

  /** `getProgressBarColor`: below 70 success, up to 100 warning, above that danger. */
  function ProgressBarColor(pct: int): (c: string)
    ensures c == "bg-success" <==> pct < 70
    ensures c == "bg-warning" <==> 70 <= pct <= 100
    ensures c == "bg-danger" <==> pct > 100
  {
    if pct < 70 then "bg-success"
    else if pct <= 100 then "bg-warning"
    else "bg-danger"
  }

  /** Because the percentage is capped, the bar never shows the danger colour. */
  lemma NeverDanger(target: real, entries: seq<Entry>)
    requires target >= 0.0
    ensures ProgressBarColor(ComputeTotals(target, entries).pct) != "bg-danger"
  {
  }

  /** The sum over a concatenation is the sum of the parts. */
  lemma {:induction false} SumConcat(a: seq<Entry>, b: seq<Entry>)
    ensures Sum(a + b) == Sum(a) + Sum(b)
    decreases |b|
  {
    if |b| == 0 {
      assert a + b == a;
    } else {
      var b' := b[..|b| - 1];
      assert (a + b)[..|a + b| - 1] == a + b';
      SumConcat(a, b');
    }
  }

  /** Removing entries never raises the total. */
  lemma {:induction false} SumFilterAtMost(s: seq<Entry>, p: Entry -> bool)
    ensures Sum(Filter(s, p)) <= Sum(s)
    decreases |s|
  {
    if |s| > 0 {
      SumFilterAtMost(s[1..], p);
      assert s == [s[0]] + s[1..];
      SumConcat([s[0]], s[1..]);
      if p(s[0]) {
        SumConcat([s[0]], Filter(s[1..], p));
      }
    }
  }

  /** Adding an entry raises that date's consumption by exactly its kilocalories. */
  lemma AddedConsumed(log: Log, date: string, e: Entry)
    ensures Sum(EntriesOf(Added(log, date, e), date)) == Sum(EntriesOf(log, date)) + e.kcal
  {
    SumConcat(EntriesOf(log, date), [e]);
  }

  /** Removing an entry never raises that date's consumption. */
  lemma RemovedConsumed(log: Log, date: string, id: string)
    ensures Sum(EntriesOf(Removed(log, date, id), date)) <= Sum(EntriesOf(log, date))
  {
    if date in log {
      SumFilterAtMost(log[date], NotEntryId(id));
    }
  }

  /** The entries already there keep their place ahead of the new one. */
  lemma AddedKeepsOrder(log: Log, date: string, e: Entry)
    ensures |EntriesOf(Added(log, date, e), date)| == |EntriesOf(log, date)| + 1
    ensures EntriesOf(Added(log, date, e), date)[..|EntriesOf(log, date)|] == EntriesOf(log, date)
  {
  }

  /** The kept entries of a date stay in their order (filtering splits over a concatenation). */
  lemma RemovedKeepsOrder(log: Log, date: string, id: string, before: seq<Entry>, after: seq<Entry>)
    requires date in log && log[date] == before + after
    ensures Removed(log, date, id)[date] == Filter(before, NotEntryId(id)) + Filter(after, NotEntryId(id))
  {
    FilterConcat(before, after, NotEntryId(id));
  }

  /** A second `removeEntry` with the same date and id changes nothing. */
  lemma RemovedIdempotent(log: Log, date: string, id: string)
    ensures Removed(Removed(log, date, id), date, id) == Removed(log, date, id)
  {
    if date in log {
      FilterIdempotent(log[date], NotEntryId(id));
    }
  }

  /** A second `clearDay` of the same date changes nothing. */
  lemma ClearedIdempotent(log: Log, date: string)
    ensures Cleared(Cleared(log, date), date) == Cleared(log, date)
  {
  }

  /** The persisted target and log, with the defaults `loadLS` falls back to. */
  class Store {
    var log: Log
    var target: real

    /** Only `updateTarget` writes the target, and only a non-negative one. */
    ghost predicate Valid()
      reads this
    {
      target >= 0.0
    }

    /** An empty store: `loadLog` gives `{}` and `loadTarget` gives 2000 kcal. */
    constructor ()
      ensures Valid()
      ensures log == map[] && target == 2000.0
    {
      log := map[];
      target := 2000.0;
    }

    /** `addEntry(dateISO, value, unit)`, with `crypto.randomUUID()` and `Date.now()` passed in. */
    method AddEntry(date: string, value: real, unit: string, id: string, at: int)
      modifies this`log
      ensures log == Added(old(log), date, Entry(id, at, EntryKcal(value, unit)))
    {
      var entry := Entry(id, at, EntryKcal(value, unit));
      if date !in log {
        log := log[date := []];
      }
      log := log[date := log[date] + [entry]];
    }

    /** `removeEntry(dateISO, id)`. */
    method RemoveEntry(date: string, id: string)
      modifies this`log
      ensures log == Removed(old(log), date, id)
    {
      if date !in log {
        return;
      }
      log := log[date := Filter(log[date], NotEntryId(id))];
    }

    /** `clearDay(dateISO)`. */
    method ClearDay(date: string)
      modifies this`log
      ensures log == Cleared(old(log), date)
    {
      log := log - {date};
    }

    /** `getTotals(dateISO)` against the stored target. */
    function GetTotals(date: string): (t: Totals)
      reads this
      requires Valid()
      ensures 0 <= t.pct <= 100
      ensures t.entries == EntriesOf(log, date) && t.consumed == Sum(t.entries)
    {
      ComputeTotals(target, EntriesOf(log, date))
    }

    /** `updateTarget`: the parsed target is saved only when it is not negative. */
    method UpdateTarget(value: real)
      requires Valid()
      modifies this`target
      ensures Valid()
      ensures target == if value >= 0.0 then value else old(target)
    {
      if value >= 0.0 {
        target := value;
      }
    }

    /** `handleAddEntry`: only a positive parsed value is added. */
    method HandleAddEntry(date: string, value: real, unit: string, id: string, at: int)
      modifies this`log
      ensures log == if value > 0.0 then Added(old(log), date, Entry(id, at, EntryKcal(value, unit))) else old(log)
      ensures value > 0.0 ==> old(log) != log
    {
      if value > 0.0 {
        AddEntry(date, value, unit, id, at);
      }
    }
  }

  /** Target 2000 and entries of 500, 700 and 900 kcal: 2100 consumed, 100 over, bar full. */
  lemma ScenarioOverTarget()
    ensures var t := ComputeTotals(2000.0, [Entry("a", 0, 500), Entry("b", 0, 700), Entry("c", 0, 900)]);
            t.consumed == 2100 && t.pct == 100 && t.over == 100.0 && t.remaining == 0.0
  {
    var es := [Entry("a", 0, 500), Entry("b", 0, 700), Entry("c", 0, 900)];
    assert es[..2] == [Entry("a", 0, 500), Entry("b", 0, 700)];
    assert es[..2][..1] == [Entry("a", 0, 500)];
    assert [Entry("a", 0, 500)][..0] == [];
    assert Sum(es) == 2100;
  }

  /** 836.8 kJ is stored as 200 kcal. */
  lemma ScenarioKilojouleEntry()
    ensures EntryKcal(836.8, "kJ") == 200
  {
  }
}
