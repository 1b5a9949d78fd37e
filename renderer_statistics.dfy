/**
 * `RendererStatistics`: GPU timings of named sections, measured on one
 * frame out of every `interval + 1`. A countdown decides which frames are
 * measured, when the sections are cleared and when the timestamps of the
 * last measurement are read back. The query pools are foreign: writing a
 * timestamp is given as the query index it landed in, and reading the
 * pool back as the timestamps it returned. Timestamps are nanoseconds.
 */
module RendererStatistics {
  import opened Wrappers
  import opened Phobos

  /** `SectionQuery`: the timestamp queries bracketing one section. */
  datatype SectionQuery = SectionQuery(startQuery: nat, endQuery: nat)

  const SUB_OVERFLOW: string := "attempt to subtract with overflow"
  const ADD_OVERFLOW: string := "attempt to add with overflow"
  const MUL_OVERFLOW: string := "attempt to multiply with overflow"
  const DURATION_OVERFLOW: string := "overflow when subtracting durations"
  const UNWRAP_NONE: string := "called `Option::unwrap()` on a `None` value"

  /** The error of `end_section` for a section that was not begun. */
  function NotStarted(name: string): string {
    "Section " + name + " not started."
  }

  /** The countdown after one more `new_frame`: it wraps from 0 back to `interval`. */
  function NextCount(count: nat, interval: nat): (c: nat)
    ensures c <= interval || c < count
  {
    if count == 0 then interval else count - 1
  }

  /** The countdown after `k` frames from `count`. */
  function CountAfter(count: nat, interval: nat, k: nat): nat
  {
    if k == 0 then count else NextCount(CountAfter(count, interval, k - 1), interval)
  }

  /**
   * Frame `1 + j * (interval + 1) + i`, for `i <= interval`, leaves the
   * countdown at `interval - i`: each cycle starts at `interval`.
   */
  lemma {:induction false} CountWithinCycle(interval: nat, j: nat, i: nat)
    requires i <= interval
    ensures CountAfter(interval + 1, interval, 1 + j * (interval + 1) + i) == interval - i
    decreases j, i
  {
    if i > 0 {
      CountWithinCycle(interval, j, i - 1);
    } else if j > 0 {
      CountWithinCycle(interval, j - 1, interval);
      assert 1 + j * (interval + 1) - 1 == 1 + (j - 1) * (interval + 1) + interval;
    }
  }

  /**
   * From the initial `interval + 1`, the countdown after frame `k >= 1` is
   * `interval - (k - 1) % (interval + 1)`.
   */
  lemma CountdownCycles(interval: nat, k: nat)
    requires k >= 1
    ensures CountAfter(interval + 1, interval, k) == interval - (k - 1) % (interval + 1)
  {
    var j, i := (k - 1) / (interval + 1), (k - 1) % (interval + 1);
    assert k == 1 + j * (interval + 1) + i;
    CountWithinCycle(interval, j, i);
  }

  /**
   * Frame `k` (counting `new_frame` calls from 1) is measured exactly when
   * `k - 1` is a multiple of `interval + 1`: the first frame is, and then
   * one in every `interval + 1`.
   */
  lemma MeasuredFrames(interval: nat, k: nat)
    requires k >= 1
    ensures CountAfter(interval + 1, interval, k) == interval <==> (k - 1) % (interval + 1) == 0
  {
    CountdownCycles(interval, k);
  }

  /**
   * With `interval >= FRAMES_IN_FLIGHT + 1`, the results are read on frame
   * `k` exactly when it is `FRAMES_IN_FLIGHT + 1` frames after a measured
   * one: once per cycle.
   */
  lemma ReadFrames(interval: nat, k: nat)
    requires k >= 1 && interval >= FRAMES_IN_FLIGHT + 1
    ensures CountAfter(interval + 1, interval, k) == interval - FRAMES_IN_FLIGHT - 1 <==>
              (k - 1) % (interval + 1) == FRAMES_IN_FLIGHT + 1
  {
    CountdownCycles(interval, k);
  }

  /** Both of a section's timestamps exist and the end is not before the start. */
  predicate Readable(q: SectionQuery, timestamps: seq<nat>) {
    q.startQuery < |timestamps| && q.endQuery < |timestamps| && timestamps[q.startQuery] <= timestamps[q.endQuery]
  }

  /** `end - start` of one section. */
  function Duration(q: SectionQuery, timestamps: seq<nat>): (d: nat)
    requires Readable(q, timestamps)
    ensures d + timestamps[q.startQuery] == timestamps[q.endQuery]
  {
    timestamps[q.endQuery] - timestamps[q.startQuery]
  }

  /** The duration of every section, from the timestamps read back. */
  function Timings(sections: map<string, SectionQuery>, timestamps: seq<nat>): (t: map<string, nat>)
    requires forall n :: n in sections ==> Readable(sections[n], timestamps)
    ensures t.Keys == sections.Keys
    ensures forall n :: n in sections ==> t[n] == Duration(sections[n], timestamps)
  {
    map n | n in sections :: Duration(sections[n], timestamps)
  }

  class RendererStatistics {
    var sections: map<string, SectionQuery>
    var timingResults: map<string, nat>
    const interval: nat
    var framesUntilMeasure: nat

    /**
     * `new`: pools for `sectionCapacity` sections (two timestamps each),
     * no sections, and the countdown at `interval + 1`.
     * `created` is what creating the two query pools returned.
     */
    static method New(sectionCapacity: nat, measureInterval: nat, created: Result<Unit>)
      returns (r: Run<Result<RendererStatistics>>)
      requires IsU32(sectionCapacity) && IsU32(measureInterval)
      ensures r.Panics? <==> sectionCapacity * 2 > U32_MAX || (created.Ok? && measureInterval + 1 > U32_MAX)
      ensures (r.Returns? && r.value.Err?) <==> sectionCapacity * 2 <= U32_MAX && created.Err?
      ensures r.Returns? && r.value.Err? ==> r.value.message == created.message
      ensures r.Returns? && r.value.Ok? ==>
                var s := r.value.value;
                && fresh(s) && s.sections == map[] && s.timingResults == map[]
                && s.interval == measureInterval && s.framesUntilMeasure == measureInterval + 1
    {
      if sectionCapacity * 2 > U32_MAX {
        return Panics(MUL_OVERFLOW);
      }
      if created.Err? {
        return Returns(Err(created.message));
      }
      if measureInterval + 1 > U32_MAX {
        return Panics(ADD_OVERFLOW);
      }
      var s := new RendererStatistics.Init(measureInterval);
      r := Returns(Ok(s));
    }

    constructor Init(measureInterval: nat)
      ensures sections == map[] && timingResults == map[]
      ensures interval == measureInterval && framesUntilMeasure == measureInterval + 1
    {
      sections := map[];
      timingResults := map[];
      interval := measureInterval;
      framesUntilMeasure := measureInterval + 1;
    }

    /** `measure_this_frame`: the countdown is at `interval`. */
    predicate MeasureThisFrame()
      reads this
    {
      framesUntilMeasure == interval
    }

    /**
     * `begin_section`: on a measured frame, write a timestamp into `cmd`
     * and open the section `name` at it, its end still `u32::MAX`;
     * otherwise hand `cmd` back untouched. `written` is the query the
     * timestamp went to, or the error writing it gave.
     */
    method BeginSection(cmd: seq<nat>, name: string, written: Result<nat>) returns (r: Result<seq<nat>>)
      modifies this`sections
      ensures !old(MeasureThisFrame()) ==> r == Ok(cmd) && sections == old(sections)
      ensures old(MeasureThisFrame()) && written.Err? ==> r == Err(written.message) && sections == old(sections)
      ensures old(MeasureThisFrame()) && written.Ok? ==>
                && r == Ok(cmd + [written.value])
                && sections == old(sections)[name := SectionQuery(written.value, U32_MAX)]
    {
      if !MeasureThisFrame() {
        return Ok(cmd);
      }
      if written.Err? {
        return Err(written.message);
      }
      sections := sections[name := SectionQuery(written.value, U32_MAX)];
      r := Ok(cmd + [written.value]);
    }

    /**
     * `end_section`: on a measured frame, write a timestamp into `cmd`
     * and close the section `name` at it; a section not begun since the
     * sections were last cleared is an error.
     */
    method EndSection(cmd: seq<nat>, name: string, written: Result<nat>) returns (r: Result<seq<nat>>)
      modifies this`sections
      ensures !old(MeasureThisFrame()) ==> r == Ok(cmd) && sections == old(sections)
      ensures old(MeasureThisFrame()) && written.Err? ==> r == Err(written.message) && sections == old(sections)
      ensures old(MeasureThisFrame()) && written.Ok? && name !in old(sections) ==>
                r == Err(NotStarted(name)) && sections == old(sections)
      ensures old(MeasureThisFrame()) && written.Ok? && name in old(sections) ==>
                && r == Ok(cmd + [written.value])
                && sections == old(sections)[name := old(sections)[name].(endQuery := written.value)]
    {
      if !MeasureThisFrame() {
        return Ok(cmd);
      }
      if written.Err? {
        return Err(written.message);
      }
      if name !in sections {
        return Err(NotStarted(name));
      }
      sections := sections[name := sections[name].(endQuery := written.value)];
      r := Ok(cmd + [written.value]);
    }

    /**
     * `read_results`: the duration of every section, from the timestamps
     * `timestamps` that waiting on the pool returned. A section whose
     * query is past the end of them (one never ended, say) panics at the
     * `unwrap`, and one that ends before it starts panics at the
     * subtraction.
     */
    method ReadResults(timestamps: Result<seq<nat>>) returns (r: Run<Result<Unit>>)
      modifies this`timingResults
      ensures timestamps.Err? ==> r == Returns(Err(timestamps.message)) && timingResults == old(timingResults)
      ensures timestamps.Ok? ==>
                (r.Returns? <==> forall n :: n in sections ==> Readable(sections[n], timestamps.value))
      ensures r.Panics? ==> r.reason == UNWRAP_NONE || r.reason == DURATION_OVERFLOW
      ensures timestamps.Ok? && r.Returns? ==>
                r.value.Ok? && timingResults == old(timingResults) + Timings(sections, timestamps.value)
    {
      if timestamps.Err? {
        return Returns(Err(timestamps.message));
      }
      var ts := timestamps.value;
      var todo := sections.Keys;
      var results := timingResults;
      while todo != {}
        invariant todo <= sections.Keys
        invariant forall n :: n in sections && n !in todo ==> Readable(sections[n], ts)
        invariant results.Keys == old(timingResults).Keys + (sections.Keys - todo)
        invariant forall n :: n in results ==>
                    results[n] == if n in sections && n !in todo
                                  then Duration(sections[n], ts)
                                  else old(timingResults)[n]
        invariant timingResults == old(timingResults)
        decreases todo
      {
        var name :| name in todo;
        var q := sections[name];
        if q.startQuery >= |ts| || q.endQuery >= |ts| {
          return Panics(UNWRAP_NONE);
        }
        if ts[q.endQuery] < ts[q.startQuery] {
          return Panics(DURATION_OVERFLOW);
        }
        results := results[name := Duration(q, ts)];
        todo := todo - {name};
      }
      timingResults := results;
      r := Returns(Ok(Unit));
    }

    /**
     * `new_frame`: count down, wrapping from 0 to `interval` and clearing
     * the sections; then read the results back when the countdown is at
     * `interval - FRAMES_IN_FLIGHT - 1`, logging a read error. That
     * expression is a `u32` subtraction and panics for an interval below
     * `FRAMES_IN_FLIGHT + 1`.
     */
    method NewFrame(timestamps: Result<seq<nat>>) returns (r: Run<Unit>)
      modifies this`framesUntilMeasure, this`sections, this`timingResults
      ensures framesUntilMeasure == NextCount(old(framesUntilMeasure), interval)
      ensures sections == if old(framesUntilMeasure) == 0 then map[] else old(sections)
      ensures interval < FRAMES_IN_FLIGHT + 1 ==> r == Panics(SUB_OVERFLOW) && timingResults == old(timingResults)
      ensures interval >= FRAMES_IN_FLIGHT + 1 && framesUntilMeasure != interval - FRAMES_IN_FLIGHT - 1 ==>
                r == Returns(Unit) && timingResults == old(timingResults)
      ensures interval >= FRAMES_IN_FLIGHT + 1 && framesUntilMeasure == interval - FRAMES_IN_FLIGHT - 1 && timestamps.Ok? ==>
                && (r.Returns? <==> forall n :: n in sections ==> Readable(sections[n], timestamps.value))
                && (r.Returns? ==> timingResults == old(timingResults) + Timings(sections, timestamps.value))
      ensures interval >= FRAMES_IN_FLIGHT + 1 && timestamps.Err? ==> r == Returns(Unit) && timingResults == old(timingResults)
    {
      if framesUntilMeasure == 0 {
        framesUntilMeasure := interval;
        sections := map[];
      } else {
        framesUntilMeasure := framesUntilMeasure - 1;
      }
      if interval < FRAMES_IN_FLIGHT + 1 {
        return Panics(SUB_OVERFLOW);
      }
      if framesUntilMeasure == interval - FRAMES_IN_FLIGHT - 1 {
        var read := ReadResults(timestamps);
        if read.Panics? {
          return Panics(read.reason);
        }
      }
      r := Returns(Unit);
    }
  }

  /**
   * A section begun and ended on the same measured frame spans the two
   * timestamps written for it.
   */
  method BeginThenEnd(s: RendererStatistics, name: string, start: nat, end: nat) returns (cmd: seq<nat>)
    requires s.MeasureThisFrame()
    modifies s
    ensures cmd == [start, end]
    ensures name in s.sections && s.sections[name] == SectionQuery(start, end)
  {
    var begun := s.BeginSection([], name, Ok(start));
    var ended := s.EndSection(begun.value, name, Ok(end));
    cmd := ended.value;
  }
}
