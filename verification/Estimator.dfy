/**
  The burn-rate estimator: a bounded window of quota samples with a learning
  cursor, shown to be a view of an unbounded change log, and the exponential
  average learned from it.
 */
module Estimator {
  import opened GuardTypes

  const DEFAULT_RATE := 0.15
  const MIN_RATE := 0.08
  const MAX_RATE := 0.30
  const MIN_DELTA := 0.05
  const MIN_REPLENISHMENT := 5
  const ALPHA := 0.3
  const DEFAULT_CAPACITY := 6
  const MIN_CAPACITY := 2
  const MAX_CAPACITY := 30

  datatype Sample = Sample(sequence: nat, observedAt: Time, shortResetAt: Time, shortRem: int, longRem: int, round: string)
  datatype Probe = Probe(observedAt: Time, shortReset: Time, shortRem: Option<int>, longRem: Option<int>, round: string)
  /** What is stored per credential and group; a rate of zero stands for a missing entry. */
  datatype History = History(rate: real, samples: seq<Sample>, cursor: nat)

  const EMPTY := History(0.0, [], 0)

  function Last(samples: seq<Sample>): Sample
    requires samples != []
  {
    samples[|samples| - 1]
  }

  predicate SameQuota(a: Sample, b: Sample) {
    a.shortRem == b.shortRem && a.longRem == b.longRem
  }

  function Refreshed(samples: seq<Sample>, observedAt: Time, shortResetAt: Time): seq<Sample>
    requires samples != []
  {
    samples[|samples| - 1 := Last(samples).(observedAt := observedAt, shortResetAt := shortResetAt)]
  }

  /** The first sample with this sequence number. */
  function Find(samples: seq<Sample>, sequence: nat): Option<Sample> {
    if samples == [] then None
    else
      match Find(samples[..|samples| - 1], sequence)
      case Some(s) => Some(s)
      case None => if Last(samples).sequence == sequence then Some(Last(samples)) else None
  }

  predicate Names(samples: seq<Sample>, sequence: nat) {
    exists i :: 0 <= i < |samples| && samples[i].sequence == sequence
  }

  lemma {:induction false} FindNamed(samples: seq<Sample>, sequence: nat)
    ensures Find(samples, sequence).Some? <==> Names(samples, sequence)
    ensures Find(samples, sequence).Some? ==> Find(samples, sequence).value in samples && Find(samples, sequence).value.sequence == sequence
  {
    if samples != [] {
      var n := |samples| - 1;
      FindNamed(samples[..n], sequence);
      assert samples == samples[..n] + [samples[n]];
      if i :| 0 <= i < |samples| && samples[i].sequence == sequence && i < n {
        assert samples[..n][i] == samples[i];
      }
      if i :| 0 <= i < n && samples[..n][i].sequence == sequence {
        assert samples[i].sequence == sequence;
      }
    }
  }

  // -------------------------------------------------------------- normalisation

  datatype Pass = Pass(kept: seq<Sample>, previous: nat, baseline: nat)

  function Renumbered(p: Pass, s: Sample): Sample {
    if s.sequence <= p.previous then s.(sequence := p.previous + 1) else s
  }

  function Keep(p: Pass, raw: Sample): Pass {
    var s := Renumbered(p, raw);
    if p.kept != [] && SameQuota(s, Last(p.kept)) then
      Pass(Refreshed(p.kept, s.observedAt, s.shortResetAt), s.sequence,
           if p.baseline == s.sequence then Last(p.kept).sequence else p.baseline)
    else Pass(p.kept + [s], s.sequence, p.baseline)
  }

  function KeepAll(samples: seq<Sample>, baseline: nat): Pass {
    if samples == [] then Pass([], 0, baseline) else Keep(KeepAll(samples[..|samples| - 1], baseline), Last(samples))
  }

  function Normalized(samples: seq<Sample>, baseline: nat): (seq<Sample>, nat) {
    var p := KeepAll(samples, baseline);
    if p.kept == [] then ([], 0)
    else (p.kept, if p.baseline != 0 && Names(p.kept, p.baseline) then p.baseline else p.kept[0].sequence)
  }

  /** Strictly increasing positive sequence numbers, and no two neighbours with the same quota. */
  predicate Numbered(samples: seq<Sample>) {
    && (forall i :: 0 <= i < |samples| ==> samples[i].sequence > 0)
    && (forall i, j :: 0 <= i < j < |samples| ==> samples[i].sequence < samples[j].sequence)
    && (forall i :: 0 < i < |samples| ==> !SameQuota(samples[i], samples[i - 1]))
  }

  predicate Regular(samples: seq<Sample>, cursor: nat) {
    Numbered(samples) && if samples == [] then cursor == 0 else Names(samples, cursor)
  }

  lemma {:induction false} KeepAllIsNumbered(samples: seq<Sample>, baseline: nat)
    ensures var p := KeepAll(samples, baseline);
            && Numbered(p.kept)
            && (samples != [] <==> p.kept != [])
            && (p.kept != [] ==> Last(p.kept).sequence <= p.previous)
  {
    hide Keep, Numbered;
    if samples == [] {
      NothingNumbered();
    } else {
      KeepAllIsNumbered(samples[..|samples| - 1], baseline);
      KeepIsNumbered(KeepAll(samples[..|samples| - 1], baseline), Last(samples));
    }
  }

  lemma NothingNumbered()
    ensures Numbered([])
  {
  }

  lemma KeepIsNumbered(p: Pass, raw: Sample)
    requires Numbered(p.kept) && (p.kept != [] ==> Last(p.kept).sequence <= p.previous)
    ensures var n := Keep(p, raw); n.kept != [] && Numbered(n.kept) && Last(n.kept).sequence <= n.previous
  {
  }

  lemma {:induction false} KeepAllOfNumbered(samples: seq<Sample>, baseline: nat)
    requires Numbered(samples)
    ensures KeepAll(samples, baseline) == Pass(samples, if samples == [] then 0 else Last(samples).sequence, baseline)
  {
    if samples != [] {
      var n := |samples| - 1;
      assert forall i :: 0 <= i < n ==> samples[..n][i] == samples[i];
      assert Numbered(samples[..n]);
      KeepAllOfNumbered(samples[..n], baseline);
      assert Last(samples) == samples[n];
      hide Numbered, Keep;
      KeepNext(samples, baseline);
    }
  }

  lemma KeepNext(samples: seq<Sample>, baseline: nat)
    requires Numbered(samples) && samples != []
    ensures var n := |samples| - 1;
            Keep(Pass(samples[..n], if n == 0 then 0 else samples[n - 1].sequence, baseline), samples[n])
            == Pass(samples, samples[n].sequence, baseline)
  {
    var n := |samples| - 1;
    assert n > 0 ==> !SameQuota(samples[n], samples[n - 1]) && samples[n - 1].sequence < samples[n].sequence;
    assert samples == samples[..n] + [samples[n]];
  }

  /** Normalising any stored history yields a regular one, which normalising again leaves alone. */
  lemma NormalizeIsIdempotent(samples: seq<Sample>, baseline: nat)
    ensures var (once, cursor) := Normalized(samples, baseline);
            Regular(once, cursor) && Normalized(once, cursor) == (once, cursor)
  {
    KeepAllIsNumbered(samples, baseline);
    var (once, cursor) := Normalized(samples, baseline);
    RegularIsFixed(once, cursor);
  }

  /** The quotas of some samples, each run of equal ones once. */
  function Quotas(samples: seq<Sample>): seq<(int, int)> {
    if samples == [] then []
    else
      var rest := Quotas(samples[..|samples| - 1]);
      var quota := (Last(samples).shortRem, Last(samples).longRem);
      if rest != [] && rest[|rest| - 1] == quota then rest else rest + [quota]
  }

  lemma {:induction false} KeepAllKeepsQuotas(samples: seq<Sample>, baseline: nat)
    ensures var kept := KeepAll(samples, baseline).kept;
            && |kept| == |Quotas(samples)|
            && (forall i :: 0 <= i < |kept| ==> (kept[i].shortRem, kept[i].longRem) == Quotas(samples)[i])
            && (samples != [] ==>
                  && kept != [] && Last(kept).observedAt == Last(samples).observedAt
                  && Last(kept).shortResetAt == Last(samples).shortResetAt)
  {
    if samples != [] {
      KeepAllKeepsQuotas(samples[..|samples| - 1], baseline);
      KeepAllIsNumbered(samples[..|samples| - 1], baseline);
      hide KeepAll, Numbered;
      assert KeepAll(samples, baseline) == Keep(KeepAll(samples[..|samples| - 1], baseline), Last(samples)) by { KeepAllNext(samples, baseline); }
    }
  }

  lemma KeepAllNext(samples: seq<Sample>, baseline: nat)
    requires samples != []
    ensures KeepAll(samples, baseline) == Keep(KeepAll(samples[..|samples| - 1], baseline), Last(samples))
  {
    hide Keep;
  }

  /** Normalising keeps every change of quota, in order, and the newest time and reset. */
  lemma NormalizeKeepsQuotas(samples: seq<Sample>, baseline: nat)
    ensures var (once, _) := Normalized(samples, baseline);
            && |once| == |Quotas(samples)|
            && (forall i :: 0 <= i < |once| ==> (once[i].shortRem, once[i].longRem) == Quotas(samples)[i])
            && (samples != [] ==>
                  && once != [] && Last(once).observedAt == Last(samples).observedAt
                  && Last(once).shortResetAt == Last(samples).shortResetAt)
  {
    KeepAllKeepsQuotas(samples, baseline);
    hide KeepAll, Quotas;
  }

  lemma RegularIsFixed(samples: seq<Sample>, cursor: nat)
    requires Regular(samples, cursor)
    ensures Normalized(samples, cursor) == (samples, cursor)
  {
    KeepAllOfNumbered(samples, cursor);
  }

  method NormalizeSampleHistory(samples: seq<Sample>, baseline: nat) returns (normalized: seq<Sample>, cursor: nat)
    ensures (normalized, cursor) == Normalized(samples, baseline)
  {
    if |samples| == 0 {
      return [], 0;
    }
    normalized := [];
    cursor := baseline;
    var previous := 0;
    for i := 0 to |samples|
      invariant Pass(normalized, previous, cursor) == KeepAll(samples[..i], baseline)
      invariant i > 0 ==> normalized != []
    {
      var sample := samples[i];
      assert samples[..i + 1][..i] == samples[..i];
      if sample.sequence == 0 || sample.sequence <= previous {
        sample := sample.(sequence := previous + 1);
      }
      previous := sample.sequence;
      if |normalized| > 0 {
        var last := normalized[|normalized| - 1];
        if sample.shortRem == last.shortRem && sample.longRem == last.longRem {
          last := last.(observedAt := sample.observedAt);
          last := last.(shortResetAt := sample.shortResetAt);
          normalized := normalized[|normalized| - 1 := last];
          if cursor == sample.sequence {
            cursor := last.sequence;
          }
          continue;
        }
      }
      normalized := normalized + [sample];
    }
    assert samples[..|samples|] == samples;
    if cursor == 0 {
      cursor := normalized[0].sequence;
    } else {
      var _, found := SampleBySequence(normalized, cursor);
      if !found {
        cursor := normalized[0].sequence;
      }
    }
  }

  method SampleBySequence(samples: seq<Sample>, sequence: nat) returns (sample: Sample, found: bool)
    ensures Find(samples, sequence) == if found then Some(sample) else None
    ensures found <==> Names(samples, sequence)
  {
    FindNamed(samples, sequence);
    for i := 0 to |samples|
      invariant Find(samples[..i], sequence).None?
    {
      assert samples[..i + 1][..i] == samples[..i];
      if samples[i].sequence == sequence {
        FoundInPrefix(samples, i + 1, sequence);
        return samples[i], true;
      }
    }
    assert samples[..|samples|] == samples;
    return Sample(0, 0, 0, 0, 0, ""), false;
  }

  lemma {:induction false} FoundInPrefix(samples: seq<Sample>, n: nat, sequence: nat)
    requires n <= |samples| && Find(samples[..n], sequence).Some?
    ensures Find(samples, sequence) == Find(samples[..n], sequence)
    decreases |samples|
  {
    if n == |samples| {
      assert samples[..n] == samples;
    } else {
      assert samples[..|samples| - 1][..n] == samples[..n];
      FoundInPrefix(samples[..|samples| - 1], n, sequence);
    }
  }

  // --------------------------------------------------------------------- update

  function Capacity(requested: int): nat {
    if requested < MIN_CAPACITY || requested > MAX_CAPACITY then DEFAULT_CAPACITY else requested
  }

  function Newest(samples: seq<Sample>, n: nat): seq<Sample> {
    if |samples| > n then samples[|samples| - n..] else samples
  }

  function SampleOf(samples: seq<Sample>, p: Probe): Sample
    requires p.shortRem.Some? && p.longRem.Some?
  {
    Sample(if samples == [] then 1 else Last(samples).sequence + 1, p.observedAt, p.shortReset, p.shortRem.value, p.longRem.value, "")
  }

  predicate Complete(p: Probe) {
    p.shortRem.Some? && p.longRem.Some? && p.shortReset != 0
  }

  /** The sample the cursor names, or the oldest one retained if it has been rotated out. */
  function Base(samples: seq<Sample>, cursor: nat): Sample
    requires samples != []
  {
    match Find(samples, cursor)
    case Some(s) => s
    case None => samples[0]
  }

  /** The span of samples a learning update averages, and the clamped ratio it learns from it. */
  datatype Span = Span(from: nat, to: nat, ratio: real)

  function Burned(base: Sample, current: Sample): Option<Span> {
    var delta5h := (base.shortRem - current.shortRem) as real / 100.0;
    var delta7d := (base.longRem - current.longRem) as real / 100.0;
    if delta5h < MIN_DELTA || delta7d <= 0.0 then None
    else Some(Span(base.sequence, current.sequence, Clamp(delta7d / delta5h, MIN_RATE, MAX_RATE)))
  }

  predicate StartsSpan(last: Sample, current: Sample) {
    current.shortResetAt != last.shortResetAt || current.shortRem - last.shortRem >= MIN_REPLENISHMENT
  }

  function StartingRate(rate: real): real {
    if rate <= 0.0 then DEFAULT_RATE else rate
  }

  /** The update on a regular history, and the span it learned from, if any. */
  function Step(h: History, p: Probe, capacity: nat): (History, Option<Span>)
    requires capacity > 0
  {
    var rate := StartingRate(h.rate);
    if !Complete(p) then (h.(rate := rate), None)
    else
      var current := SampleOf(h.samples, p);
      if h.samples == [] then (History(rate, [current], current.sequence), None)
      else if SameQuota(current, Last(h.samples)) then
        (History(rate, Refreshed(h.samples, current.observedAt, current.shortResetAt), h.cursor), None)
      else
        Extended(History(rate, h.samples, h.cursor), current, capacity)
  }

  /** The update when the quota changed: a longer window, and perhaps a lesson. */
  function Extended(h: History, current: Sample, capacity: nat): (History, Option<Span>)
    requires capacity > 0 && h.samples != []
  {
    var samples := Newest(h.samples + [current], capacity);
    if StartsSpan(Last(h.samples), current) then (History(h.rate, samples, current.sequence), None)
    else
      var base := Base(samples, h.cursor);
      match Burned(base, current)
      case None => (History(h.rate, samples, base.sequence), None)
      case Some(span) =>
        (History(ALPHA * span.ratio + (1.0 - ALPHA) * h.rate, samples, current.sequence), Some(span))
  }

  method UpdateSamplesAndCycleBurnRate(h: History, p: Probe, requested: int) returns (updated: History)
    ensures var (samples, cursor) := Normalized(h.samples, h.cursor);
            updated == Step(History(h.rate, samples, cursor), p, Capacity(requested)).0
  {
    hide Normalized, Extended;
    var rate := h.rate;
    if rate <= 0.0 {
      rate := DEFAULT_RATE;
    }
    var capacity := requested;
    if capacity < MIN_CAPACITY || capacity > MAX_CAPACITY {
      capacity := DEFAULT_CAPACITY;
    }
    var samples, cursor := NormalizeSampleHistory(h.samples, h.cursor);
    if p.shortRem.None? || p.longRem.None? || p.shortReset == 0 {
      return History(rate, samples, cursor);
    }
    var current := SampleOf(samples, p);
    if |samples| == 0 {
      return History(rate, [current], current.sequence);
    }
    var last := samples[|samples| - 1];
    if current.shortRem == last.shortRem && current.longRem == last.longRem {
      var refreshed := samples;
      refreshed := refreshed[|refreshed| - 1 := refreshed[|refreshed| - 1].(observedAt := current.observedAt)];
      refreshed := refreshed[|refreshed| - 1 := refreshed[|refreshed| - 1].(shortResetAt := current.shortResetAt)];
      return History(rate, refreshed, cursor);
    }
    updated := ExtendHistory(History(rate, samples, cursor), current, capacity);
  }

  method ExtendHistory(h: History, current: Sample, capacity: nat) returns (updated: History)
    requires capacity > 0 && h.samples != []
    ensures updated == Extended(h, current, capacity).0
  {
    hide Find, Burned;
    var grown := h.samples + [current];
    if |grown| > capacity {
      grown := grown[|grown| - capacity..];
    }
    var last := h.samples[|h.samples| - 1];
    if current.shortResetAt != last.shortResetAt || current.shortRem - last.shortRem >= MIN_REPLENISHMENT {
      return History(h.rate, grown, current.sequence);
    }
    FindNamed(grown, h.cursor);
    var cursor := h.cursor;
    var base, found := SampleBySequence(grown, cursor);
    if !found {
      base := grown[0];
      cursor := base.sequence;
    }
    var newRate, learned := LearnRate(h.rate, base, current);
    if !learned {
      return History(h.rate, grown, cursor);
    }
    updated := History(newRate, grown, current.sequence);
  }

  method LearnRate(rate: real, base: Sample, current: Sample) returns (newRate: real, learned: bool)
    ensures learned <==> Burned(base, current).Some?
    ensures newRate == if learned then ALPHA * Burned(base, current).value.ratio + (1.0 - ALPHA) * rate else rate
  {
    var delta5h := (base.shortRem - current.shortRem) as real / 100.0;
    var delta7d := (base.longRem - current.longRem) as real / 100.0;
    if delta5h < MIN_DELTA || delta7d <= 0.0 {
      return rate, false;
    }
    var clamped := Clamp(delta7d / delta5h, MIN_RATE, MAX_RATE);
    return ALPHA * clamped + (1.0 - ALPHA) * rate, true;
  }

  // ----------------------------------------------------- runs from an empty entry

  /** A successful probe of an entry; the round is recorded on the sample it appended. */
  function Marked(h: History, p: Probe, requested: int): History {
    var (samples, cursor) := Normalized(h.samples, h.cursor);
    var n := Step(History(h.rate, samples, cursor), p, Capacity(requested)).0;
    if Appended(h.samples, n.samples) && p.round != "" then
      n.(samples := n.samples[|n.samples| - 1 := Last(n.samples).(round := p.round)])
    else n
  }

  predicate Appended(previous: seq<Sample>, current: seq<Sample>) {
    current != [] && (previous == [] || Last(current).sequence > Last(previous).sequence)
  }

  function LearnedRate(entries: map<Key, History>, k: Key): real {
    if k in entries then StartingRate(entries[k].rate) else DEFAULT_RATE
  }

  /** The quota cache, one history per credential and group. */
  class QuotaStore {
    var entries: map<Key, History>
    var configuredCapacity: Option<int>

    constructor (configuredCapacity: Option<int>)
      ensures entries == map[] && this.configuredCapacity == configuredCapacity
    {
      entries := map[];
      this.configuredCapacity := configuredCapacity;
    }

    function Stored(k: Key): History
      reads this
    {
      if k in entries then entries[k] else EMPTY
    }

    /** The learned rate of a credential and group, or the cold-start rate. */
    function GetCycleBurnRate(k: Key): real
      reads this
    {
      LearnedRate(entries, k)
    }

    method MarkProbeSuccess(k: Key, p: Probe, capacity: int, cancelled: bool) returns (ok: bool)
      modifies this`entries
      ensures ok == !cancelled
      ensures var requested := if capacity > 0 then capacity
                               else if configuredCapacity.Some? && configuredCapacity.value > 0 then configuredCapacity.value
                               else 6;
              entries == if cancelled then old(entries) else old(entries)[k := Marked(old(Stored(k)), p, requested)]
    {
      hide Normalized, Step;
      if cancelled {
        return false;
      }
      var prev := if k in entries then entries[k] else EMPTY;
      var requested := capacity;
      if requested <= 0 {
        if configuredCapacity.Some? && configuredCapacity.value > 0 {
          requested := configuredCapacity.value;
        } else {
          requested := DEFAULT_CAPACITY;
        }
      }
      var updated := UpdateSamplesAndCycleBurnRate(prev, p, requested);
      if Appended(prev.samples, updated.samples) && p.round != "" {
        var n := |updated.samples| - 1;
        updated := updated.(samples := updated.samples[n := updated.samples[n].(round := p.round)]);
      }
      entries := entries[k := updated];
      ok := true;
    }
  }

  function After(probes: seq<Probe>, requested: int): History {
    if probes == [] then EMPTY else Marked(After(probes[..|probes| - 1], requested), probes[|probes| - 1], requested)
  }

  /** One more probe in the unbounded log: a changed quota is a new record, an unchanged one refreshes the last. */
  function Logged(log: seq<Sample>, p: Probe): seq<Sample> {
    if !Complete(p) then log
    else
      var record := Sample(|log| + 1, p.observedAt, p.shortReset, p.shortRem.value, p.longRem.value, p.round);
      if log != [] && SameQuota(record, Last(log)) then Refreshed(log, p.observedAt, p.shortReset)
      else log + [record]
  }

  function Log(probes: seq<Probe>): seq<Sample> {
    if probes == [] then [] else Logged(Log(probes[..|probes| - 1]), probes[|probes| - 1])
  }

  predicate Counted(log: seq<Sample>) {
    && (forall i :: 0 <= i < |log| ==> log[i].sequence == i + 1)
    && (forall i :: 0 < i < |log| ==> !SameQuota(log[i], log[i - 1]))
  }

  lemma {:induction false} LogIsCounted(probes: seq<Probe>)
    ensures Counted(Log(probes))
  {
    if probes != [] {
      LogIsCounted(probes[..|probes| - 1]);
    }
  }

  /** Everything the runs below rely on, at any point of a run. */
  predicate InStep(h: History, log: seq<Sample>, capacity: nat) {
    && capacity > 0
    && h.samples == Newest(log, capacity)
    && (if log == [] then h.cursor == 0 else h.samples[0].sequence <= h.cursor <= |log|)
  }

  lemma WindowIsRegular(log: seq<Sample>, capacity: nat, cursor: nat)
    requires Counted(log) && capacity > 0
    requires if log == [] then cursor == 0 else Newest(log, capacity)[0].sequence <= cursor <= |log|
    ensures Regular(Newest(log, capacity), cursor)
  {
    hide SameQuota;
    var w := Newest(log, capacity);
    var d := |log| - |w|;
    assert w == log[d..];
    hide Newest;
    TailIsNumbered(log, d);
    hide Numbered;
    if log != [] {
      assert w[0] == log[d];
      assert w[cursor - d - 1] == log[cursor - 1];
    }
  }

  lemma TailIsNumbered(log: seq<Sample>, d: nat)
    requires Counted(log) && d <= |log|
    ensures Numbered(log[d..])
  {
    hide SameQuota;
    var w := log[d..];
    forall i | 0 < i < |w| ensures !SameQuota(w[i], w[i - 1]) {
      assert w[i] == log[d + i] && w[i - 1] == log[d + i - 1];
    }
  }

  lemma NewestGrows(log: seq<Sample>, record: Sample, capacity: nat)
    requires capacity > 0
    ensures Newest(Newest(log, capacity) + [record], capacity) == Newest(log + [record], capacity)
  {
    if |log| >= capacity {
      assert Newest(log, capacity) == log[|log| - capacity..];
      assert (log + [record])[|log| + 1 - capacity..] == log[|log| + 1 - capacity..] + [record];
      assert (log[|log| - capacity..] + [record])[1..] == log[|log| + 1 - capacity..] + [record];
    }
  }

  lemma NewestRefreshes(log: seq<Sample>, capacity: nat, observedAt: Time, shortResetAt: Time)
    requires capacity > 0 && log != []
    ensures Newest(log, capacity) != [] && Last(Newest(log, capacity)) == Last(log)
    ensures Refreshed(Newest(log, capacity), observedAt, shortResetAt) == Newest(Refreshed(log, observedAt, shortResetAt), capacity)
  {
  }

  /** What an appending probe does to the window and the cursor. */
  lemma AppendShape(h: History, p: Probe, capacity: nat)
    requires capacity > 0 && Complete(p) && (h.samples == [] || !SameQuota(SampleOf(h.samples, p), Last(h.samples)))
    ensures var current := SampleOf(h.samples, p);
            var grown := Newest(h.samples + [current], capacity);
            var n := Step(h, p, capacity).0;
            && n.samples == grown
            && (n.cursor == current.sequence || (h.samples != [] && n.cursor == Base(grown, h.cursor).sequence))
  {
    hide Find, Burned;
  }

  lemma BaseNotBehind(w: seq<Sample>, first: nat, cursor: nat)
    requires w != [] && forall i :: 0 <= i < |w| ==> w[i].sequence == first + i
    requires cursor <= Last(w).sequence
    ensures cursor <= Base(w, cursor).sequence <= Last(w).sequence && first <= Base(w, cursor).sequence
  {
    FindNamed(w, cursor);
    if first <= cursor {
      assert w[cursor - first].sequence == cursor;
    }
  }

  lemma MarkedAppend(h: History, p: Probe, requested: int)
    requires Regular(h.samples, h.cursor) && Complete(p)
    requires h.samples == [] || !SameQuota(SampleOf(h.samples, p), Last(h.samples))
    ensures var current := SampleOf(h.samples, p);
            var grown := Newest(h.samples + [current], Capacity(requested));
            var m := Marked(h, p, requested);
            && grown != [] && Last(grown) == current
            && m.samples == grown[|grown| - 1 := current.(round := p.round)]
            && (m.cursor == current.sequence || (h.samples != [] && m.cursor == Base(grown, h.cursor).sequence))
  {
    hide Normalized, Find, Step, Base;
    RegularIsFixed(h.samples, h.cursor);
    AppendShape(h, p, Capacity(requested));
  }

  lemma WindowSequences(log: seq<Sample>, record: Sample, capacity: nat)
    requires Counted(log) && capacity > 0 && record.sequence == |log| + 1
    ensures var w := Newest(log + [record], capacity);
            w != [] && Last(w) == record && forall i :: 0 <= i < |w| ==> w[i].sequence == |log| + 2 - |w| + i
  {
    var all := log + [record];
    assert forall i :: 0 <= i < |all| ==> all[i].sequence == i + 1;
  }

  lemma NewestOfRenamed(log: seq<Sample>, a: Sample, b: Sample, capacity: nat)
    requires capacity > 0
    ensures var w := Newest(log + [a], capacity);
            w != [] && Newest(log + [b], capacity) == w[|w| - 1 := b] && Newest(log + [b], capacity)[0].sequence == (if |w| == 1 then b else w[0]).sequence
  {
  }

  lemma SameEnd(h: History, log: seq<Sample>, p: Probe, capacity: nat)
    requires capacity > 0 && Complete(p) && h.samples == Newest(log, capacity)
    ensures h.samples == [] <==> log == []
    ensures log != [] ==> Last(h.samples) == Last(log)
    ensures SampleOf(log, p) == SampleOf(h.samples, p)
  {
  }

  lemma LoggedChange(log: seq<Sample>, p: Probe)
    requires Counted(log) && Complete(p) && (log == [] || !SameQuota(SampleOf(log, p), Last(log)))
    ensures SampleOf(log, p).sequence == |log| + 1
    ensures Logged(log, p) == log + [SampleOf(log, p).(round := p.round)]
  {
  }

  lemma AppendKeepsWindow(h: History, log: seq<Sample>, p: Probe, requested: int)
    requires InStep(h, log, Capacity(requested)) && Regular(h.samples, h.cursor) && Counted(log)
    requires Complete(p) && (log == [] || !SameQuota(SampleOf(log, p), Last(log)))
    ensures Marked(h, p, requested).samples == Newest(Logged(log, p), Capacity(requested))
  {
    hide Marked, Base, Regular, Counted, SampleOf;
    var current := SampleOf(log, p);
    SameEnd(h, log, p, Capacity(requested));
    MarkedAppend(h, p, requested);
    NewestGrows(log, current, Capacity(requested));
    NewestOfRenamed(log, current, current.(round := p.round), Capacity(requested));
    LoggedChange(log, p);
  }

  lemma AppendKeepsCursor(h: History, log: seq<Sample>, p: Probe, requested: int)
    requires InStep(h, log, Capacity(requested)) && Regular(h.samples, h.cursor) && Counted(log)
    requires Complete(p) && (log == [] || !SameQuota(SampleOf(log, p), Last(log)))
    ensures var grown := Newest(log + [SampleOf(log, p)], Capacity(requested));
            grown != [] && grown[0].sequence <= Marked(h, p, requested).cursor <= |log| + 1 && Marked(h, p, requested).cursor >= h.cursor
  {
    hide Marked, Base, Regular;
    var current := SampleOf(log, p);
    SameEnd(h, log, p, Capacity(requested));
    LoggedChange(log, p);
    MarkedAppend(h, p, requested);
    NewestGrows(log, current, Capacity(requested));
    WindowSequences(log, current, Capacity(requested));
    var grown := Newest(log + [current], Capacity(requested));
    hide Regular, Counted, Newest;
    BaseNotBehind(grown, |log| + 2 - |grown|, h.cursor);
  }

  lemma AppendKeepsStep(h: History, log: seq<Sample>, p: Probe, requested: int)
    requires InStep(h, log, Capacity(requested)) && Regular(h.samples, h.cursor) && Counted(log)
    requires Complete(p) && (log == [] || !SameQuota(SampleOf(log, p), Last(log)))
    ensures InStep(Marked(h, p, requested), Logged(log, p), Capacity(requested))
    ensures Marked(h, p, requested).cursor >= h.cursor
  {
    AppendKeepsWindow(h, log, p, requested);
    AppendKeepsCursor(h, log, p, requested);
    hide Marked, Regular, Counted, SampleOf, Newest, Logged;
    var current := SampleOf(log, p);
    NewestOfRenamed(log, current, current.(round := p.round), Capacity(requested));
    LoggedChange(log, p);
  }

  lemma ProbeKeepsStep(h: History, log: seq<Sample>, p: Probe, requested: int)
    requires InStep(h, log, Capacity(requested)) && Regular(h.samples, h.cursor) && Counted(log)
    ensures InStep(Marked(h, p, requested), Logged(log, p), Capacity(requested))
    ensures Marked(h, p, requested).cursor >= h.cursor
  {
    if !Complete(p) {
      RegularIsFixed(h.samples, h.cursor);
    } else if log == [] || !SameQuota(SampleOf(log, p), Last(log)) {
      AppendKeepsStep(h, log, p, requested);
    } else {
      RegularIsFixed(h.samples, h.cursor);
      NewestRefreshes(log, Capacity(requested), p.observedAt, p.shortReset);
    }
  }

  /** On a run the stored history is regular, so normalising it does nothing. */
  lemma {:induction false} RunIsInStep(probes: seq<Probe>, requested: int)
    ensures InStep(After(probes, requested), Log(probes), Capacity(requested))
    ensures Regular(After(probes, requested).samples, After(probes, requested).cursor)
  {
    LogIsCounted(probes);
    if probes != [] {
      var n := |probes| - 1;
      LogIsCounted(probes[..n]);
      RunIsInStep(probes[..n], requested);
      ProbeKeepsStep(After(probes[..n], requested), Log(probes[..n]), probes[n], requested);
    }
    hide Log, Marked;
    WindowIsRegular(Log(probes), Capacity(requested), After(probes, requested).cursor);
  }

  /** How many records are kept: what was asked for if that is between 2 and 30, otherwise 6. */
  function Kept(requested: int): nat {
    if 2 <= requested <= 30 then requested else 6
  }

  /**
    After any probe history the stored samples are the newest records of the
    unbounded log, numbered consecutively, and the cursor names one of them.
   */
  lemma StoredIsNewestOfLog(probes: seq<Probe>, requested: int)
    ensures var h, log := After(probes, requested), Log(probes);
            && |h.samples| == (if |log| < Kept(requested) then |log| else Kept(requested))
            && h.samples == log[|log| - |h.samples|..]
            && (forall i :: 0 <= i < |log| ==> log[i].sequence == i + 1)
            && (forall i :: 0 < i < |h.samples| ==> h.samples[i].sequence == h.samples[i - 1].sequence + 1)
            && (if h.samples == [] then h.cursor == 0 else Names(h.samples, h.cursor))
  {
    RunIsInStep(probes, requested);
    LogIsCounted(probes);
  }

  lemma {:induction false} CursorNeverMovesBack(probes: seq<Probe>, requested: int, i: nat)
    requires i <= |probes|
    ensures After(probes[..i], requested).cursor <= After(probes, requested).cursor
    decreases |probes|
  {
    hide Log, Marked, Regular, Counted, InStep;
    if i == |probes| {
      assert probes[..i] == probes;
    } else {
      var n := |probes| - 1;
      assert probes[..n][..i] == probes[..i];
      CursorNeverMovesBack(probes[..n], requested, i);
      RunIsInStep(probes[..n], requested);
      LogIsCounted(probes[..n]);
      ProbeKeepsStep(After(probes[..n], requested), Log(probes[..n]), probes[n], requested);
    }
  }

  /** The span learned from at probe i of a history, if any. */
  function Lesson(probes: seq<Probe>, requested: int, i: nat): Option<Span>
    requires i < |probes|
  {
    Step(After(probes[..i], requested), probes[i], Capacity(requested)).1
  }

  lemma MarkedIsStep(probes: seq<Probe>, requested: int, i: nat)
    requires i < |probes|
    ensures var h := After(probes[..i], requested);
            var n := Step(h, probes[i], Capacity(requested)).0;
            After(probes[..i + 1], requested).rate == n.rate && After(probes[..i + 1], requested).cursor == n.cursor
  {
    hide Step, Normalized, Regular, InStep;
    var h := After(probes[..i], requested);
    assert After(probes[..i + 1], requested) == Marked(h, probes[i], requested) by { AfterNext(probes, requested, i); }
    hide After;
    RunIsInStep(probes[..i], requested);
    RegularIsFixed(h.samples, h.cursor);
  }

  lemma AfterNext(probes: seq<Probe>, requested: int, i: nat)
    requires i < |probes|
    ensures After(probes[..i + 1], requested) == Marked(After(probes[..i], requested), probes[i], requested)
  {
    hide Marked;
    assert probes[..i + 1][..i] == probes[..i];
  }

  lemma LessonShape(h: History, p: Probe, capacity: nat)
    requires capacity > 0 && Step(h, p, capacity).1.Some?
    ensures Complete(p) && h.samples != [] && !SameQuota(SampleOf(h.samples, p), Last(h.samples))
    ensures var current := SampleOf(h.samples, p);
            && Burned(Base(Newest(h.samples + [current], capacity), h.cursor), current) == Step(h, p, capacity).1
            && Step(h, p, capacity).0.cursor == current.sequence
  {
    hide Burned, Find;
  }

  lemma BurnedShape(base: Sample, current: Sample)
    requires Burned(base, current).Some?
    ensures var span := Burned(base, current).value;
            base != current && span.from == base.sequence && span.to == current.sequence && MIN_RATE <= span.ratio <= MAX_RATE
  {
  }

  lemma LessonSpan(probes: seq<Probe>, requested: int, i: nat)
    requires i < |probes| && Lesson(probes, requested, i).Some?
    ensures var span := Lesson(probes, requested, i).value;
            && After(probes[..i], requested).cursor <= span.from < span.to
            && After(probes[..i + 1], requested).cursor == span.to
            && MIN_RATE <= span.ratio <= MAX_RATE
  {
    hide After, Log, Step, Regular, InStep, Counted;
    MarkedIsStep(probes, requested, i);
    RunIsInStep(probes[..i], requested);
    LogIsCounted(probes[..i]);
    LessonInWindow(After(probes[..i], requested), Log(probes[..i]), probes[i], Capacity(requested));
  }

  lemma LessonInWindow(h: History, log: seq<Sample>, p: Probe, capacity: nat)
    requires InStep(h, log, capacity) && Counted(log) && Step(h, p, capacity).1.Some?
    ensures var span := Step(h, p, capacity).1.value;
            && h.cursor <= span.from < span.to == Step(h, p, capacity).0.cursor
            && MIN_RATE <= span.ratio <= MAX_RATE
  {
    LessonShape(h, p, capacity);
    SameEnd(h, log, p, capacity);
    hide Step, Burned, Find;
    var current := SampleOf(log, p);
    LoggedChange(log, p);
    hide SampleOf, SameQuota, Logged;
    NewestGrows(log, current, capacity);
    WindowSequences(log, current, capacity);
    var grown := Newest(log + [current], capacity);
    hide Newest, Counted;
    SpanInWindow(grown, |log| + 2 - |grown|, h.cursor, current);
  }

  lemma SpanInWindow(w: seq<Sample>, first: nat, cursor: nat, current: Sample)
    requires w != [] && Last(w) == current && forall i :: 0 <= i < |w| ==> w[i].sequence == first + i
    requires cursor <= current.sequence && Burned(Base(w, cursor), current).Some?
    ensures var span := Burned(Base(w, cursor), current).value;
            cursor <= span.from < span.to == current.sequence && MIN_RATE <= span.ratio <= MAX_RATE
  {
    BurnedShape(Base(w, cursor), current);
    BaseNotBehind(w, first, cursor);
    FindNamed(w, cursor);
    assert Base(w, cursor) in w;
  }

  /** Two learning updates never use the same stretch of samples. */
  lemma LessonsAreDisjoint(probes: seq<Probe>, requested: int, i: nat, j: nat)
    requires i < j < |probes| && Lesson(probes, requested, i).Some? && Lesson(probes, requested, j).Some?
    ensures Lesson(probes, requested, i).value.to <= Lesson(probes, requested, j).value.from
  {
    hide After, Lesson;
    LessonSpan(probes, requested, i);
    LessonSpan(probes, requested, j);
    assert probes[..j][..i + 1] == probes[..i + 1];
    CursorNeverMovesBack(probes[..j], requested, i + 1);
  }

  lemma StepRate(h: History, p: Probe, capacity: nat)
    requires capacity > 0
    ensures match Step(h, p, capacity).1
            case None => Step(h, p, capacity).0.rate == StartingRate(h.rate)
            case Some(span) => Step(h, p, capacity).0.rate == ALPHA * span.ratio + (1.0 - ALPHA) * StartingRate(h.rate)
  {
    hide Find, Burned, Newest;
  }

  lemma RateStep(probes: seq<Probe>, requested: int, i: nat)
    requires i < |probes|
    ensures var before, after := StartingRate(After(probes[..i], requested).rate), After(probes[..i + 1], requested).rate;
            match Lesson(probes, requested, i)
            case None => after == before
            case Some(span) => after == ALPHA * span.ratio + (1.0 - ALPHA) * before
  {
    MarkedIsStep(probes, requested, i);
    StepRate(After(probes[..i], requested), probes[i], Capacity(requested));
    hide After, Step;
  }

  /** Until the first lesson the rate is the cold-start rate. */
  lemma {:induction false} UntaughtRate(probes: seq<Probe>, requested: int)
    requires probes != [] && forall i :: 0 <= i < |probes| ==> Lesson(probes, requested, i).None?
    ensures After(probes, requested).rate == 0.15
  {
    hide Lesson, Marked;
    var n := |probes| - 1;
    RateStep(probes, requested, n);
    assert probes[..n + 1] == probes && Lesson(probes, requested, n).None?;
    if n > 0 {
      forall i | 0 <= i < n ensures Lesson(probes[..n], requested, i).None? {
        assert Lesson(probes, requested, i).None?;
        SameLesson(probes, requested, n, i);
      }
      UntaughtRate(probes[..n], requested);
    }
  }

  lemma SameLesson(probes: seq<Probe>, requested: int, n: nat, i: nat)
    requires i < n <= |probes|
    ensures Lesson(probes[..n], requested, i) == Lesson(probes, requested, i)
  {
    assert probes[..n][..i] == probes[..i] && probes[..n][i] == probes[i];
    hide Step;
  }

  /** The learned rate never leaves its bounds, whatever the probes say. */
  lemma {:induction false} RateStaysInBounds(probes: seq<Probe>, requested: int)
    requires probes != []
    ensures 0.08 <= After(probes, requested).rate <= 0.30
  {
    var n := |probes| - 1;
    if n > 0 {
      RateStaysInBounds(probes[..n], requested);
    }
    RateStep(probes, requested, n);
    assert probes[..n + 1] == probes;
    if Lesson(probes, requested, n).Some? {
      LessonSpan(probes, requested, n);
    }
  }

  /** A stored rate that is missing or within the bounds. */
  predicate RateBounded(h: History) {
    h.rate <= 0.0 || MIN_RATE <= h.rate <= MAX_RATE
  }

  /** Whatever samples are stored and whatever capacities are asked for, a probe keeps the rate within its bounds. */
  lemma MarkedIsBounded(h: History, p: Probe, requested: int)
    requires RateBounded(h)
    ensures MIN_RATE <= Marked(h, p, requested).rate <= MAX_RATE
  {
    var (samples, cursor) := Normalized(h.samples, h.cursor);
    StepRate(History(h.rate, samples, cursor), p, Capacity(requested));
    StepRatio(History(h.rate, samples, cursor), p, Capacity(requested));
    hide Normalized, Step;
  }

  lemma StepRatio(h: History, p: Probe, capacity: nat)
    requires capacity > 0
    ensures Step(h, p, capacity).1.Some? ==> MIN_RATE <= Step(h, p, capacity).1.value.ratio <= MAX_RATE
  {
    if Step(h, p, capacity).1.Some? {
      LessonShape(h, p, capacity);
      hide Find, Newest;
    }
  }

  function Pow(x: real, k: nat): real {
    if k == 0 then 1.0 else x * Pow(x, k - 1)
  }

  function Lessons(probes: seq<Probe>, requested: int, n: nat): nat
    requires n <= |probes|
  {
    if n == 0 then 0 else Lessons(probes, requested, n - 1) + (if Lesson(probes, requested, n - 1).Some? then 1 else 0)
  }

  lemma Approach(before: real, after: real, ratio: real, shrink: real, distance: real)
    requires after == ALPHA * ratio + (1.0 - ALPHA) * before && before - ratio == shrink * distance
    ensures after - ratio == ((1.0 - ALPHA) * shrink) * distance
  {
    assert ((1.0 - ALPHA) * shrink) * distance == (1.0 - ALPHA) * (shrink * distance);
  }

  /** The rate the next update starts from, after n probes. */
  function RateAt(probes: seq<Probe>, requested: int, n: nat): real
    requires n <= |probes|
  {
    StartingRate(After(probes[..n], requested).rate)
  }

  lemma RateMoves(probes: seq<Probe>, requested: int, n: nat)
    requires n < |probes|
    ensures match Lesson(probes, requested, n)
            case None => RateAt(probes, requested, n + 1) == RateAt(probes, requested, n)
            case Some(span) => RateAt(probes, requested, n + 1) == ALPHA * span.ratio + (1.0 - ALPHA) * RateAt(probes, requested, n)
  {
    RateStep(probes, requested, n);
    RateStaysInBounds(probes[..n + 1], requested);
    hide After, Lesson;
  }

  /** Lessons that all see the same clamped ratio close the distance to it by the factor 0.7 each, and nothing else moves the rate. */
  lemma {:induction false} RateApproaches(probes: seq<Probe>, requested: int, i: nat, n: nat, ratio: real)
    requires i <= n <= |probes|
    requires forall x :: i <= x < n && Lesson(probes, requested, x).Some? ==> Lesson(probes, requested, x).value.ratio == ratio
    ensures Lessons(probes, requested, n) >= Lessons(probes, requested, i)
    ensures RateAt(probes, requested, n) - ratio
            == Pow(0.7, Lessons(probes, requested, n) - Lessons(probes, requested, i)) * (RateAt(probes, requested, i) - ratio)
  {
    hide RateAt, Lesson;
    if n > i {
      RateApproaches(probes, requested, i, n - 1, ratio);
      RateMoves(probes, requested, n - 1);
      if Lesson(probes, requested, n - 1).Some? {
        assert Lesson(probes, requested, n - 1).value.ratio == ratio;
        Approach(RateAt(probes, requested, n - 1), RateAt(probes, requested, n), ratio,
                 Pow(0.7, Lessons(probes, requested, n - 1) - Lessons(probes, requested, i)),
                 RateAt(probes, requested, i) - ratio);
      }
    }
  }

  // ------------------------------------------------- what is learned, on the unbounded log

  /** A probe's figures are the newest record of the log; earlier records stay as they are. */
  lemma LogShows(probes: seq<Probe>)
    requires probes != []
    ensures var before, log, p := Log(probes[..|probes| - 1]), Log(probes), probes[|probes| - 1];
            if p.shortRem.None? || p.longRem.None? || p.shortReset == 0 then log == before
            else
              var same := before != [] && p.shortRem == Some(Last(before).shortRem) && p.longRem == Some(Last(before).longRem);
              && |log| == |before| + (if same then 0 else 1)
              && (forall i :: 0 <= i < |log| - 1 ==> log[i] == before[i])
              && Some(Last(log).shortRem) == p.shortRem && Some(Last(log).longRem) == p.longRem
              && Last(log).observedAt == p.observedAt && Last(log).shortResetAt == p.shortReset
              && Last(log).round == (if same then Last(before).round else p.round)
  {
  }

  /** The record from which a change of quota is measured: the cursor's, or the oldest one kept if that is newer. */
  function From(cursor: nat, records: nat, requested: int): nat {
    if records > Kept(requested) && cursor < records + 1 - Kept(requested) then records + 1 - Kept(requested) else cursor
  }

  /** The newest record continues the window of the one before: same reset, and no more than four points regained. */
  predicate Continues(log: seq<Sample>)
    requires |log| >= 2
  {
    var a, b := log[|log| - 2], log[|log| - 1];
    b.shortResetAt == a.shortResetAt && b.shortRem < a.shortRem + 5
  }

  /** Between two records at least five points of the short window went, and some of the weekly one. */
  predicate Spent(a: Sample, b: Sample) {
    a.shortRem - b.shortRem >= 5 && a.longRem > b.longRem
  }

  lemma BaseIsRecord(w: seq<Sample>, first: nat, cursor: nat)
    requires w != [] && forall i :: 0 <= i < |w| ==> w[i].sequence == first + i
    requires cursor <= Last(w).sequence
    ensures var from := if cursor < first then first else cursor; Base(w, cursor) == w[from - first]
  {
    FindNamed(w, cursor);
    if first <= cursor {
      assert w[cursor - first].sequence == cursor;
    }
  }

  lemma BurnedRatio(a: Sample, b: Sample)
    ensures Burned(a, b) == if Spent(a, b) then Some(Span(a.sequence, b.sequence, Ratio(a, b))) else None
  {
    var short, long := (a.shortRem - b.shortRem) as real, (a.longRem - b.longRem) as real;
    if Spent(a, b) {
      assert (long / 100.0) / (short / 100.0) == long / short;
    }
  }

  /** What one probe that changes the quota teaches, and where the cursor goes. */
  lemma ExtendedOnLog(h: History, log: seq<Sample>, current: Sample, capacity: nat)
    requires InStep(h, log, capacity) && Counted(log) && log != [] && current.sequence == |log| + 1
    ensures h.samples != []
    ensures var all := log + [current];
            var oldest := if |all| > capacity then |all| + 1 - capacity else 1;
            var from := if h.cursor < oldest then oldest else h.cursor;
            && 0 < from <= |all|
            && Extended(h, current, capacity).1 == (if StartsSpan(Last(log), current) then None else Burned(all[from - 1], current))
            && Extended(h, current, capacity).0.cursor
               == (if StartsSpan(Last(log), current) || Burned(all[from - 1], current).Some? then |all| else from)
  {
    NewestGrows(log, current, capacity);
    WindowSequences(log, current, capacity);
    var all := log + [current];
    var w := Newest(all, capacity);
    assert Last(h.samples) == Last(log);
    BaseIsRecord(w, |log| + 2 - |w|, h.cursor);
    hide Burned, Find, Base;
  }

  lemma StepOnLog(h: History, log: seq<Sample>, p: Probe, capacity: nat)
    requires InStep(h, log, capacity) && Counted(log) && Complete(p)
    ensures h.samples == [] <==> log == []
    ensures SampleOf(h.samples, p) == SampleOf(log, p)
    ensures log == [] ==> Step(h, p, capacity).1 == None && Step(h, p, capacity).0.cursor == 1
    ensures log != [] && SameQuota(SampleOf(log, p), Last(log)) ==> Step(h, p, capacity).1 == None && Step(h, p, capacity).0.cursor == h.cursor
    ensures log != [] && !SameQuota(SampleOf(log, p), Last(log)) ==>
              Step(h, p, capacity) == Extended(History(StartingRate(h.rate), h.samples, h.cursor), SampleOf(log, p), capacity)
  {
    SameEnd(h, log, p, capacity);
    hide Extended, Newest;
  }

  /** The share of the weekly quota spent per share of the short one, between two records. */
  function Ratio(a: Sample, b: Sample): real
    requires Spent(a, b)
  {
    Clamp((a.longRem - b.longRem) as real / (a.shortRem - b.shortRem) as real, 0.08, 0.30)
  }

  /** The lesson of the newest record, measured from a cursor, and the cursor it leaves. */
  function Teaching(log: seq<Sample>, cursor: nat, requested: int): (Option<Span>, nat)
    requires |log| >= 1
  {
    var from := From(cursor, |log|, requested);
    if |log| == 1 || !Continues(log) || !(0 < from < |log|) then (None, |log|)
    else if Spent(log[from - 1], Last(log)) then (Some(Span(from, |log|, Ratio(log[from - 1], Last(log)))), |log|)
    else (None, from)
  }

  lemma ProbeTeaches(h: History, log: seq<Sample>, p: Probe, requested: int)
    requires InStep(h, log, Capacity(requested)) && Counted(log)
    ensures var (n, lesson) := Step(h, p, Capacity(requested));
            var all := Logged(log, p);
            if |all| == |log| then lesson == None && n.cursor == h.cursor
            else |all| == |log| + 1 && (lesson, n.cursor) == Teaching(all, h.cursor, requested)
    ensures var all := Logged(log, p);
            |all| > |log| > 0 ==> 0 < From(h.cursor, |all|, requested) < |all|
  {
    if Complete(p) {
      StepOnLog(h, log, p, Capacity(requested));
      hide Step, Extended, Burned, InStep, Counted;
      if log == [] {
      } else if SameQuota(SampleOf(log, p), Last(log)) {
      } else {
        ChangeTeaches(h, log, p, requested);
      }
    }
  }

  /** The new record of the log says what the new sample says; only its round is added. */
  lemma RecordIsSample(log: seq<Sample>, p: Probe)
    requires Counted(log) && log != [] && Complete(p) && !SameQuota(SampleOf(log, p), Last(log))
    ensures var current, all := SampleOf(log, p), Logged(log, p);
            && |all| == |log| + 1 && all[..|log|] == log && current.sequence == |log| + 1
            && (Continues(all) <==> !StartsSpan(Last(log), current))
            && forall i :: 0 <= i < |log| ==>
                 all[i] == log[i] && log[i].sequence == i + 1
                 && (Spent(all[i], Last(all)) <==> Spent(log[i], current))
                 && (Spent(log[i], current) ==> Ratio(all[i], Last(all)) == Ratio(log[i], current))
  {
    LoggedChange(log, p);
  }

  lemma ChangeTeaches(h: History, log: seq<Sample>, p: Probe, requested: int)
    requires InStep(h, log, Capacity(requested)) && Counted(log) && log != []
    requires Complete(p) && !SameQuota(SampleOf(log, p), Last(log))
    ensures var current := SampleOf(log, p);
            var (n, lesson) := Extended(History(StartingRate(h.rate), h.samples, h.cursor), current, Capacity(requested));
            var all := Logged(log, p);
            && h.samples != [] && |all| == |log| + 1 && (lesson, n.cursor) == Teaching(all, h.cursor, requested)
            && 0 < From(h.cursor, |all|, requested) < |all|
  {
    var current := SampleOf(log, p);
    RecordIsSample(log, p);
    var from := From(h.cursor, |log| + 1, requested);
    FromIsOldest(h, log, requested);
    BurnedRatio(log[from - 1], current);
    ExtendedOnLog(History(StartingRate(h.rate), h.samples, h.cursor), log, current, Capacity(requested));
    assert (log + [current])[from - 1] == log[from - 1];
    hide Burned, Extended, Newest, SampleOf, Logged, Continues, Spent, Ratio, StartsSpan, SameQuota, Counted, InStep, From;
  }

  lemma FromIsOldest(h: History, log: seq<Sample>, requested: int)
    requires InStep(h, log, Capacity(requested)) && Counted(log) && log != []
    ensures var oldest := if |log| + 1 > Capacity(requested) then |log| + 2 - Capacity(requested) else 1;
            var from := From(h.cursor, |log| + 1, requested);
            0 < from <= |log| && from == if h.cursor < oldest then oldest else h.cursor
  {
  }

  /**
    Exactly when a probe teaches, and what: it adds a record to the log that
    continues the window, and since the record the cursor names, or the oldest
    one kept, at least five points of the short quota and some of the weekly
    one are gone. The lesson is the weekly share spent per short share between
    those two records, within the bounds; the cursor moves to the new record
    unless it only continues without spending enough.
   */
  lemma LessonIsLearnedWhen(probes: seq<Probe>, requested: int, i: nat)
    requires i < |probes|
    ensures var before, log := Log(probes[..i]), Log(probes[..i + 1]);
            var cursor, after := After(probes[..i], requested).cursor, After(probes[..i + 1], requested).cursor;
            var from := From(cursor, |log|, requested);
            if |log| == |before| then Lesson(probes, requested, i) == None && after == cursor
            else if |log| <= 1 || !Continues(log) then Lesson(probes, requested, i) == None && after == |log|
            else && 0 < from < |log|
                 && if Spent(log[from - 1], Last(log))
                    then Lesson(probes, requested, i) == Some(Span(from, |log|, Ratio(log[from - 1], Last(log)))) && after == |log|
                    else Lesson(probes, requested, i) == None && after == from
  {
    RunIsInStep(probes[..i], requested);
    LogIsCounted(probes[..i]);
    MarkedIsStep(probes, requested, i);
    assert probes[..i + 1][..i] == probes[..i];
    LogNext(probes, i);
    ProbeTeaches(After(probes[..i], requested), Log(probes[..i]), probes[i], requested);
    hide Step, InStep, Counted, Regular, After, Log, Logged, Continues, Spent, Ratio, From;
  }

  lemma LogNext(probes: seq<Probe>, i: nat)
    requires i < |probes|
    ensures Log(probes[..i + 1]) == Logged(Log(probes[..i]), probes[i])
  {
    hide Logged;
    assert probes[..i + 1][..i] == probes[..i];
  }

  /** More of the weekly quota gone over the same stretch never teaches a lower rate. */
  lemma MoreSpentNeverSlower(ps: seq<Probe>, qs: seq<Probe>, requested: int, n: nat)
    requires |ps| == |qs| == n + 1 && ps[..n] == qs[..n]
    requires ps[n].shortRem == qs[n].shortRem && ps[n].longRem.Some? && qs[n].longRem.Some?
    requires qs[n].longRem.value <= ps[n].longRem.value
    requires Lesson(ps, requested, n).Some? && Lesson(qs, requested, n).Some?
    ensures var a, b := Lesson(ps, requested, n).value, Lesson(qs, requested, n).value;
            a.from == b.from && a.to == b.to && a.ratio <= b.ratio
    ensures After(ps, requested).rate <= After(qs, requested).rate
  {
    LastLesson(ps, requested, n);
    LastLesson(qs, requested, n);
    assert ps[..n + 1] == ps && qs[..n + 1] == qs;
    RateStep(ps, requested, n);
    RateStep(qs, requested, n);
    hide Lesson, After, Log, Ratio, Spent, From, StartingRate;
    var a, b := Lesson(ps, requested, n).value, Lesson(qs, requested, n).value;
    assert a.ratio <= b.ratio by {
      SteeperRatio(Log(ps[..n])[a.from - 1], Last(Log(ps)), Last(Log(qs)));
    }
    HigherRate(a.ratio, b.ratio, StartingRate(After(ps[..n], requested).rate));
  }

  lemma LogGrows(probes: seq<Probe>)
    requires probes != []
    ensures var log, all := Log(probes[..|probes| - 1]), Log(probes);
            && |log| <= |all| <= |log| + 1
            && (forall i :: 0 <= i < |log| && |all| > |log| ==> all[i] == log[i])
            && (|all| > |log| ==> Some(Last(all).shortRem) == probes[|probes| - 1].shortRem
                                  && Some(Last(all).longRem) == probes[|probes| - 1].longRem)
  {
    LogShows(probes);
    hide Log;
  }

  /** What the last probe of a history teaches. */
  lemma LastLesson(probes: seq<Probe>, requested: int, n: nat)
    requires |probes| == n + 1 && Lesson(probes, requested, n).Some?
    ensures var log, all := Log(probes[..n]), Log(probes);
            var lesson := Lesson(probes, requested, n).value;
            && |all| == |log| + 1 && 0 < lesson.from <= |log| && lesson.to == |all|
            && lesson.from == From(After(probes[..n], requested).cursor, |all|, requested)
            && Spent(log[lesson.from - 1], Last(all)) && lesson.ratio == Ratio(log[lesson.from - 1], Last(all))
            && Some(Last(all).shortRem) == probes[n].shortRem && Some(Last(all).longRem) == probes[n].longRem
  {
    assert probes[..n + 1] == probes;
    LessonIsLearnedWhen(probes, requested, n);
    LogGrows(probes);
    hide Lesson, After, Log, Ratio, Spent, Continues, From;
  }

  lemma HigherRate(x: real, y: real, rate: real)
    requires x <= y
    ensures ALPHA * x + (1.0 - ALPHA) * rate <= ALPHA * y + (1.0 - ALPHA) * rate
  {
  }

  lemma SteeperRatio(a: Sample, b: Sample, c: Sample)
    requires Spent(a, b) && Spent(a, c) && b.shortRem == c.shortRem && c.longRem <= b.longRem
    ensures Ratio(a, b) <= Ratio(a, c)
  {
    var short := (a.shortRem - b.shortRem) as real;
    var x, y := (a.longRem - b.longRem) as real, (a.longRem - c.longRem) as real;
    assert x / short <= y / short by { Quotients(x, y, short); }
  }

  lemma Quotients(x: real, y: real, d: real)
    requires x <= y && d > 0.0
    ensures x / d <= y / d
  {
    assert y / d - x / d == (y - x) / d;
  }
}
