/**
 * The time-sheet structures of the REST connector as values, with the
 * JavaScript arrays they live in modelled by identity.
 *
 * `weeks` is an array of week arrays and `allDefaultDays` is the array the
 * period loop pushes days into.  After a period that ends in a partial
 * week, the last slot of `weeks` and `allDefaultDays` are the same array,
 * so the next period's days also land in that old slot.  A `Store` keeps
 * that sharing: `slots` names, for each week slot, the array it holds;
 * `arrays` maps every array to its days; `buffer` names the array
 * `allDefaultDays` currently holds.  The day objects themselves are never
 * shared between two arrays, so they are values inside their array.
 */
module TimeSheets {
  import opened Wrappers
  import opened JsonValue

  /** A day of the period as the period loop sees it: its weekday name and day of the month. */
  datatype CalendarDay = CalendarDay(dayOfWeek: string, date: int)

  /** The `effort` field of a day: absent (`undefined`), a number, or NaN. */
  datatype Effort = NoEffort | Amount(hours: real) | NaN

  datatype Day = Day(dayOfWeek: string, date: int, effort: Effort)

  /** The object the period loop pushes: weekday and date, no effort yet. */
  function NewDay(c: CalendarDay): Day
  {
    Day(c.dayOfWeek, c.date, NoEffort)
  }

  /** The days the period loop pushes for a run of calendar days, in order. */
  function NewDays(cs: seq<CalendarDay>): (r: seq<Day>)
    ensures |r| == |cs|
  {
    if cs == [] then [] else [NewDay(cs[0])] + NewDays(cs[1..])
  }

  // ---------------------------------------------------------------------
  // Week storage and the period loop

  type Arrays = map<nat, seq<Day>>

  datatype Store = Store(slots: seq<nat>, arrays: Arrays, buffer: nat, nextArray: nat)

  /** Every slot names an array of the map. */
  predicate Refs(slots: seq<nat>, arrays: Arrays)
  {
    forall i :: 0 <= i < |slots| ==> slots[i] in arrays
  }

  /** Every named array exists and every array is older than the next fresh one. */
  predicate StoreOk(st: Store)
  {
    st.buffer in st.arrays && Refs(st.slots, st.arrays)
    && (forall id :: id in st.arrays ==> id < st.nextArray)
  }

  /** The `weeks` array as JSON would show it: the days of the array in each slot. */
  function Weeks(st: Store): (r: seq<seq<Day>>)
    requires StoreOk(st)
    ensures |r| == |st.slots| && forall i :: 0 <= i < |r| ==> r[i] == st.arrays[st.slots[i]]
  {
    seq(|st.slots|, i requires 0 <= i < |st.slots| => st.arrays[st.slots[i]])
  }

  /** `allDefaultDays.push(day)`: the buffer array grows, whichever slots hold it see the new day. */
  function Push(st: Store, c: CalendarDay): (r: Store)
    requires StoreOk(st)
    ensures StoreOk(r)
  {
    st.(arrays := st.arrays[st.buffer := st.arrays[st.buffer] + [NewDay(c)]])
  }

  /** `weeks[k] = allDefaultDays`: slot `k` (at most one past the end) now holds the buffer array. */
  function StoreAt(st: Store, k: nat): (r: Store)
    requires StoreOk(st) && k <= |st.slots|
    ensures StoreOk(r) && |r.slots| == if k < |st.slots| then |st.slots| else |st.slots| + 1
  {
    st.(slots := if k < |st.slots| then st.slots[k := st.buffer] else st.slots + [st.buffer])
  }

  /** `allDefaultDays = []`: a fresh empty array becomes the buffer. */
  function Reset(st: Store): (r: Store)
    requires StoreOk(st)
    ensures StoreOk(r)
  {
    st.(buffer := st.nextArray, nextArray := st.nextArray + 1, arrays := st.arrays[st.nextArray := []])
  }

  /**
   * The period loop from its current point: `count` days of this call are
   * already pushed and `weekNo` weeks closed.  Every seventh day of the call
   * closes a week into slot `weekNo`; a non-empty buffer left at the end is
   * stored into the next slot.
   */
  function Chunk(st: Store, days: seq<CalendarDay>, count: nat, weekNo: nat): (r: Store)
    requires StoreOk(st) && weekNo <= |st.slots|
    ensures StoreOk(r)
    decreases |days|
  {
    if days == [] then
      if |st.arrays[st.buffer]| > 0 then StoreAt(st, weekNo) else st
    else
      var pushed := Push(st, days[0]);
      if (count + 1) % 7 == 0 then Chunk(Reset(StoreAt(pushed, weekNo)), days[1..], count + 1, weekNo + 1)
      else Chunk(pushed, days[1..], count + 1, weekNo)
  }

  /** The days cut into weeks of seven, the last one possibly shorter. */
  function SplitWeeks(days: seq<Day>): (r: seq<seq<Day>>)
    decreases |days|
  {
    if days == [] then []
    else if |days| <= 7 then [days]
    else [days[..7]] + SplitWeeks(days[7..])
  }

  predicate BufferUnstored(st: Store)
  {
    forall i :: 0 <= i < |st.slots| ==> st.slots[i] != st.buffer
  }

  lemma AppendAssoc<T>(a: seq<T>, b: seq<T>, c: seq<T>)
    ensures a + (b + c) == (a + b) + c
  {
  }

  /** Pushing into an unstored buffer leaves the weeks as they were. */
  lemma PushUnstored(st: Store, c: CalendarDay)
    requires StoreOk(st) && BufferUnstored(st)
    ensures Weeks(Push(st, c)) == Weeks(st) && BufferUnstored(Push(st, c))
    ensures Push(st, c).arrays[st.buffer] == st.arrays[st.buffer] + [NewDay(c)]
  {
    var r := Push(st, c);
    forall i | 0 <= i < |st.slots| ensures Weeks(r)[i] == Weeks(st)[i] {
      assert st.slots[i] != st.buffer;
    }
  }

  /** Closing a week at the end appends the buffer's days and starts a fresh buffer. */
  lemma CloseWeekAtEnd(st: Store)
    requires StoreOk(st) && BufferUnstored(st)
    ensures var r := Reset(StoreAt(st, |st.slots|));
      Weeks(r) == Weeks(st) + [st.arrays[st.buffer]] && BufferUnstored(r)
      && r.arrays[r.buffer] == [] && |r.slots| == |st.slots| + 1
  {
    var stored := StoreAt(st, |st.slots|);
    var r := Reset(stored);
    forall i | 0 <= i < |r.slots| ensures r.slots[i] != r.buffer {
      assert r.slots[i] in st.arrays;
    }
    forall i | 0 <= i < |r.slots| ensures Weeks(r)[i] == (Weeks(st) + [st.arrays[st.buffer]])[i] {
      assert r.slots[i] in st.arrays;
    }
  }

  lemma SplitFullWeek(w: seq<Day>, rest: seq<Day>)
    requires |w| == 7
    ensures SplitWeeks(w + rest) == [w] + SplitWeeks(rest)
  {
    var all := w + rest;
    if |all| > 7 {
      assert all[..7] == w && all[7..] == rest;
    } else {
      assert rest == [] && all == w;
    }
  }

  /** The step that closes a week: one more day, then the weeks so far gain the full buffer. */
  lemma ChunkClosesWeek(st: Store, days: seq<CalendarDay>, count: nat)
    requires StoreOk(st) && BufferUnstored(st) && days != []
    requires |st.arrays[st.buffer]| == count % 7 && (count + 1) % 7 == 0
    ensures var next := Reset(StoreAt(Push(st, days[0]), |st.slots|));
      StoreOk(next) && BufferUnstored(next) && |next.slots| == |st.slots| + 1
      && next.arrays[next.buffer] + NewDays(days[1..]) == NewDays(days[1..])
      && Weeks(next) + SplitWeeks(NewDays(days[1..])) == Weeks(st) + SplitWeeks(st.arrays[st.buffer] + NewDays(days))
  {
    var b := st.arrays[st.buffer];
    var pushed := Push(st, days[0]);
    var b' := b + [NewDay(days[0])];
    PushUnstored(st, days[0]);
    CloseWeekAtEnd(pushed);
    AppendAssoc(b, [NewDay(days[0])], NewDays(days[1..]));
    assert count % 7 == 6;
    SplitFullWeek(b', NewDays(days[1..]));
    AppendAssoc(Weeks(st), [b'], SplitWeeks(NewDays(days[1..])));
  }

  /** The step inside a week: the buffer gains one day, the weeks stay. */
  lemma ChunkFillsWeek(st: Store, days: seq<CalendarDay>, count: nat)
    requires StoreOk(st) && BufferUnstored(st) && days != []
    requires |st.arrays[st.buffer]| == count % 7 && (count + 1) % 7 != 0
    ensures var pushed := Push(st, days[0]);
      StoreOk(pushed) && BufferUnstored(pushed) && |pushed.slots| == |st.slots|
      && |pushed.arrays[pushed.buffer]| == (count + 1) % 7
      && Weeks(pushed) + SplitWeeks(pushed.arrays[pushed.buffer] + NewDays(days[1..]))
         == Weeks(st) + SplitWeeks(st.arrays[st.buffer] + NewDays(days))
  {
    var b := st.arrays[st.buffer];
    PushUnstored(st, days[0]);
    AppendAssoc(b, [NewDay(days[0])], NewDays(days[1..]));
    assert (count + 1) % 7 == count % 7 + 1;
  }

  /**
   * With the buffer in no slot, the loop appends the buffer's days and the
   * new ones, cut into weeks, after the existing weeks.
   */
  lemma {:induction false} ChunkAppendsWeeks(st: Store, days: seq<CalendarDay>, count: nat)
    requires StoreOk(st) && BufferUnstored(st)
    requires |st.arrays[st.buffer]| == count % 7
    ensures Weeks(Chunk(st, days, count, |st.slots|)) == Weeks(st) + SplitWeeks(st.arrays[st.buffer] + NewDays(days))
    decreases |days|
  {
    if days == [] {
      var b := st.arrays[st.buffer];
      assert b + NewDays(days) == b;
      if |b| > 0 {
        assert Weeks(StoreAt(st, |st.slots|)) == Weeks(st) + [b];
      }
    } else if (count + 1) % 7 == 0 {
      ChunkClosesWeek(st, days, count);
      ChunkAppendsWeeks(Reset(StoreAt(Push(st, days[0]), |st.slots|)), days[1..], count + 1);
    } else {
      ChunkFillsWeek(st, days, count);
      ChunkAppendsWeeks(Push(st, days[0]), days[1..], count + 1);
    }
  }

  /** A period on an empty store gives exactly its days cut into weeks of seven. */
  lemma FirstPeriodWeeks(st: Store, days: seq<CalendarDay>)
    requires StoreOk(st) && st.slots == [] && st.arrays[st.buffer] == []
    ensures Weeks(Chunk(st, days, 0, 0)) == SplitWeeks(NewDays(days))
  {
    ChunkAppendsWeeks(st, days, 0);
    assert [] + NewDays(days) == NewDays(days);
  }

  /** Arrays other than the buffer are never written by the loop. */
  lemma {:induction false} ChunkKeepsOtherArrays(st: Store, days: seq<CalendarDay>, count: nat, weekNo: nat, id: nat)
    requires StoreOk(st) && weekNo <= |st.slots| && id in st.arrays && id != st.buffer
    ensures id in Chunk(st, days, count, weekNo).arrays
    ensures Chunk(st, days, count, weekNo).arrays[id] == st.arrays[id]
    decreases |days|
  {
    if days != [] {
      var pushed := Push(st, days[0]);
      if (count + 1) % 7 == 0 {
        ChunkKeepsOtherArrays(Reset(StoreAt(pushed, weekNo)), days[1..], count + 1, weekNo + 1, id);
      } else {
        ChunkKeepsOtherArrays(pushed, days[1..], count + 1, weekNo, id);
      }
    }
  }

  /** Slots before the current week and slots past the last week the call reaches keep their array. */
  lemma {:induction false} ChunkKeepsOtherSlots(st: Store, days: seq<CalendarDay>, count: nat, weekNo: nat, s: nat)
    requires StoreOk(st) && weekNo <= |st.slots| && s < |st.slots|
    requires s < weekNo || s > weekNo + (count % 7 + |days|) / 7
    ensures s < |Chunk(st, days, count, weekNo).slots|
    ensures Chunk(st, days, count, weekNo).slots[s] == st.slots[s]
    decreases |days|
  {
    if days != [] {
      var pushed := Push(st, days[0]);
      if (count + 1) % 7 == 0 {
        assert count % 7 == 6;
        assert (count % 7 + |days|) / 7 == 1 + ((count + 1) % 7 + |days[1..]|) / 7;
        ChunkKeepsOtherSlots(Reset(StoreAt(pushed, weekNo)), days[1..], count + 1, weekNo + 1, s);
      } else {
        assert (count + 1) % 7 == count % 7 + 1;
        ChunkKeepsOtherSlots(pushed, days[1..], count + 1, weekNo, s);
      }
    }
  }

  /**
   * When the call reaches the end of the current week, the buffer array
   * ends up holding its old days followed by the days that complete the
   * week, and it is stored in slot `weekNo`.
   */
  lemma {:induction false} ChunkFillsBuffer(st: Store, days: seq<CalendarDay>, count: nat, weekNo: nat)
    requires StoreOk(st) && weekNo <= |st.slots|
    requires count % 7 + |days| >= 7
    ensures var r := Chunk(st, days, count, weekNo); var need := 7 - count % 7;
      weekNo < |r.slots| && r.slots[weekNo] == st.buffer
      && r.arrays[st.buffer] == st.arrays[st.buffer] + NewDays(days[..need])
    decreases |days|
  {
    var need := 7 - count % 7;
    var pushed := Push(st, days[0]);
    assert pushed.arrays[st.buffer] == st.arrays[st.buffer] + [NewDay(days[0])];
    assert days[..need][1..] == days[1..][..need - 1];
    if (count + 1) % 7 == 0 {
      assert need == 1;
      var stored := StoreAt(pushed, weekNo);
      var next := Reset(stored);
      assert next.buffer != st.buffer && st.buffer in next.arrays;
      assert next.slots[weekNo] == st.buffer && next.arrays[st.buffer] == pushed.arrays[st.buffer];
      ChunkKeepsOtherArrays(next, days[1..], count + 1, weekNo + 1, st.buffer);
      ChunkKeepsOtherSlots(next, days[1..], count + 1, weekNo + 1, weekNo);
    } else {
      assert (count + 1) % 7 == count % 7 + 1;
      ChunkFillsBuffer(pushed, days[1..], count + 1, weekNo);
    }
  }

  /**
   * `weeks` and `allDefaultDays` are not reset between calls: the days left
   * in the buffer by an earlier period open the first week of the next one.
   */
  lemma LeftoverOpensNextPeriod(st: Store, days: seq<CalendarDay>)
    requires StoreOk(st) && |days| >= 7
    ensures var r := Weeks(Chunk(st, days, 0, 0));
      |r| > 0 && r[0] == st.arrays[st.buffer] + NewDays(days[..7])
  {
    ChunkFillsBuffer(st, days, 0, 0);
  }

  /**
   * A slot that still holds the buffer array from the earlier period, and
   * lies past the weeks this period writes, shows the same grown first week.
   */
  lemma StaleSlotFollowsBuffer(st: Store, days: seq<CalendarDay>, m: nat)
    requires StoreOk(st) && |days| >= 7 && m < |st.slots| && st.slots[m] == st.buffer && m > |days| / 7
    ensures var r := Weeks(Chunk(st, days, 0, 0));
      m < |r| && r[m] == st.arrays[st.buffer] + NewDays(days[..7])
  {
    ChunkFillsBuffer(st, days, 0, 0);
    ChunkKeepsOtherSlots(st, days, 0, 0, m);
  }

  /** Weeks past the ones a period writes keep their earlier days. */
  lemma StaleWeeksKept(st: Store, days: seq<CalendarDay>, s: nat)
    requires StoreOk(st) && s < |st.slots| && s > |days| / 7 && st.slots[s] != st.buffer
    ensures var r := Weeks(Chunk(st, days, 0, 0));
      s < |r| && r[s] == Weeks(st)[s]
  {
    ChunkKeepsOtherSlots(st, days, 0, 0, s);
    ChunkKeepsOtherArrays(st, days, 0, 0, st.slots[s]);
  }

  // ---------------------------------------------------------------------
  // Efforts

  /** `effort + Number(value.effort)`: a sum when both sides are numbers, NaN otherwise. */
  function Plus(e: Effort, amount: Option<real>): Effort
  {
    if e.Amount? && amount.Some? then Amount(e.hours + amount.value) else NaN
  }

  /** The effort after `n` additions of the same amount. */
  function AddTimes(e: Effort, amount: Option<real>, n: nat): Effort
  {
    if n == 0 then e else Plus(AddTimes(e, amount, n - 1), amount)
  }

  /** Adding a number `n` times adds `n` times the number. */
  lemma {:induction false} AddTimesValue(x: real, a: real, n: nat)
    ensures AddTimes(Amount(x), Some(a), n) == Amount(x + (n as real) * a)
  {
    if n > 0 {
      AddTimesValue(x, a, n - 1);
    }
  }

  /** One addition of a non-number, or to a non-number, gives NaN for good. */
  lemma {:induction false} AddTimesNaN(e: Effort, amount: Option<real>, n: nat)
    requires n > 0 && (amount.None? || !e.Amount?)
    ensures AddTimes(e, amount, n) == NaN
  {
    if n > 1 {
      AddTimesNaN(e, amount, n - 1);
    }
  }

  /** How many week slots hold array `id`. */
  function Count(slots: seq<nat>, id: nat): nat
  {
    if slots == [] then 0
    else Count(slots[..|slots| - 1], id) + (if slots[|slots| - 1] == id then 1 else 0)
  }

  /** An array is counted exactly as often as slots hold it: never when none does. */
  lemma {:induction false} CountAbsent(slots: seq<nat>, id: nat)
    requires forall i :: 0 <= i < |slots| ==> slots[i] != id
    ensures Count(slots, id) == 0
  {
    if slots != [] {
      CountAbsent(slots[..|slots| - 1], id);
    }
  }

  /** In slots that hold pairwise different arrays, an array held by one of them is counted once. */
  lemma {:induction false} CountDistinct(slots: seq<nat>, s: nat)
    requires s < |slots| && forall i, k :: 0 <= i < k < |slots| ==> slots[i] != slots[k]
    ensures Count(slots, slots[s]) == 1
  {
    var last := |slots| - 1;
    if s == last {
      CountAbsent(slots[..last], slots[s]);
    } else {
      CountDistinct(slots[..last], s);
    }
  }

  /** Two different slots holding the same array count it at least twice. */
  lemma {:induction false} CountShared(slots: seq<nat>, s1: nat, s2: nat)
    requires s1 < s2 < |slots| && slots[s1] == slots[s2]
    ensures Count(slots, slots[s1]) >= 2
  {
    var last := |slots| - 1;
    if s2 == last {
      CountHeld(slots[..last], s1);
    } else {
      CountShared(slots[..last], s1, s2);
    }
  }

  lemma {:induction false} CountHeld(slots: seq<nat>, s: nat)
    requires s < |slots|
    ensures Count(slots, slots[s]) >= 1
  {
    var last := |slots| - 1;
    if s < last {
      CountHeld(slots[..last], s);
    }
  }

  /** `efforts[i][j].date === Number(value.dayNum)`: NaN and non-numbers match nothing. */
  predicate Matches(d: Day, dayNum: Option<real>)
  {
    dayNum == Some(d.date as real)
  }

  /**
   * A week array after `addEffort` has visited it `n` times and, on the
   * current visit, the first `upto` days: each matching day gains the
   * amount once per visit.
   */
  function Bump(days: seq<Day>, dayNum: Option<real>, amount: Option<real>, n: nat, upto: nat): (r: seq<Day>)
    ensures |r| == |days|
  {
    seq(|days|, j requires 0 <= j < |days| =>
      if Matches(days[j], dayNum) then days[j].(effort := AddTimes(days[j].effort, amount, if j < upto then n + 1 else n))
      else days[j])
  }

  /**
   * All arrays during `addEffort`: the slots in `done` are visited, and of
   * array `cur` the first `upto` days on the visit under way.
   */
  function Bumped(arrays: Arrays, dayNum: Option<real>, amount: Option<real>, done: seq<nat>, cur: nat, upto: nat): (r: Arrays)
    ensures r.Keys == arrays.Keys
  {
    map id | id in arrays :: Bump(arrays[id], dayNum, amount, Count(done, id), if id == cur then upto else 0)
  }

  /** Before any visit, nothing has changed. */
  lemma BumpedNone(arrays: Arrays, dayNum: Option<real>, amount: Option<real>)
    ensures Bumped(arrays, dayNum, amount, [], 0, 0) == arrays
  {
    forall id | id in arrays ensures Bump(arrays[id], dayNum, amount, 0, 0) == arrays[id] {
    }
  }

  /** `Number(value.dayNum)` and `Number(value.effort)`; `null` and primitives have neither. */
  function DayNumOf(value: Json): Option<real>
  {
    ToNumber(Member(value, "dayNum"))
  }

  function AmountOf(value: Json): Option<real>
  {
    ToNumber(Member(value, "effort"))
  }

  /** `value.dayNum` on `null` throws, but only once the loop reaches a day. */
  predicate AddEffortThrows(slots: seq<nat>, arrays: Arrays, value: Json)
    requires Refs(slots, arrays)
  {
    value.JNull? && exists i :: 0 <= i < |slots| && |arrays[slots[i]]| > 0
  }

  /** `addEffort(efforts, value)` when it does not throw. */
  function AddEffortSpec(slots: seq<nat>, arrays: Arrays, value: Json): Arrays
  {
    Bumped(arrays, DayNumOf(value), AmountOf(value), slots, 0, 0)
  }

  /**
   * Same arrays and same days, with only efforts possibly different, and
   * arrays no slot holds untouched.
   */
  predicate SameShape(slots: seq<nat>, a: Arrays, b: Arrays)
  {
    a.Keys == b.Keys
    && (forall id :: id in a ==> |a[id]| == |b[id]|)
    && (forall id, j :: id in a && 0 <= j < |a[id]| ==>
          a[id][j].date == b[id][j].date && a[id][j].dayOfWeek == b[id][j].dayOfWeek)
    && (forall id :: id in a && id !in slots ==> a[id] == b[id])
  }

  /**
   * `addEffort` keeps every day's date and weekday, and a day whose date
   * does not match `Number(value.dayNum)` is unchanged.
   */
  lemma AddEffortKeepsDays(slots: seq<nat>, arrays: Arrays, value: Json, id: nat, j: nat)
    requires id in arrays && j < |arrays[id]|
    ensures var r := AddEffortSpec(slots, arrays, value); var d := arrays[id][j];
      id in r && |r[id]| == |arrays[id]|
      && r[id][j].date == d.date && r[id][j].dayOfWeek == d.dayOfWeek
      && (!Matches(d, DayNumOf(value)) ==> r[id][j] == d)
  {
    BumpDay(arrays, DayNumOf(value), AmountOf(value), slots, id, j);
  }

  /**
   * A matching day holding a number gains `Number(value.effort)` once per
   * slot that holds its array.
   */
  lemma AddEffortAdds(slots: seq<nat>, arrays: Arrays, value: Json, id: nat, j: nat, x: real, a: real)
    requires id in arrays && j < |arrays[id]|
    requires arrays[id][j].effort == Amount(x) && Matches(arrays[id][j], DayNumOf(value))
    requires AmountOf(value) == Some(a)
    ensures AddEffortSpec(slots, arrays, value)[id][j].effort == Amount(x + (Count(slots, id) as real) * a)
  {
    BumpedMatch(arrays, DayNumOf(value), AmountOf(value), slots, id, j, x, a);
  }

  /** Adding something that is not a number to a matching day makes it NaN. */
  lemma AddEffortNaN(slots: seq<nat>, arrays: Arrays, value: Json, s: nat, j: nat)
    requires s < |slots| && slots[s] in arrays && j < |arrays[slots[s]]|
    requires Matches(arrays[slots[s]][j], DayNumOf(value)) && AmountOf(value).None?
    ensures AddEffortSpec(slots, arrays, value)[slots[s]][j].effort == NaN
  {
    CountHeld(slots, s);
    BumpDay(arrays, DayNumOf(value), AmountOf(value), slots, slots[s], j);
    AddTimesNaN(arrays[slots[s]][j].effort, AmountOf(value), Count(slots, slots[s]));
  }

  /** A day after the visits of `done`: it gains the amount once per visit when it matches. */
  lemma BumpDay(arrays: Arrays, dayNum: Option<real>, amount: Option<real>, done: seq<nat>, id: nat, j: nat)
    requires id in arrays && j < |arrays[id]|
    ensures var r := Bumped(arrays, dayNum, amount, done, 0, 0); var d := arrays[id][j];
      id in r && |r[id]| == |arrays[id]|
      && r[id][j] == if Matches(d, dayNum) then d.(effort := AddTimes(d.effort, amount, Count(done, id))) else d
  {
  }

  /** A matching day holding a number gains the amount once per visit. */
  lemma BumpedMatch(arrays: Arrays, dayNum: Option<real>, amount: Option<real>, done: seq<nat>, id: nat, j: nat, x: real, a: real)
    requires id in arrays && j < |arrays[id]|
    requires arrays[id][j].effort == Amount(x) && Matches(arrays[id][j], dayNum) && amount == Some(a)
    ensures Bumped(arrays, dayNum, amount, done, 0, 0)[id][j].effort == Amount(x + (Count(done, id) as real) * a)
  {
    BumpDay(arrays, dayNum, amount, done, id, j);
    assert Bumped(arrays, dayNum, amount, done, 0, 0)[id][j].effort == AddTimes(Amount(x), Some(a), Count(done, id));
    AddTimesValue(x, a, Count(done, id));
  }

  /** Arrays that no slot holds are untouched by `addEffort`. */
  lemma AddEffortUnreferenced(slots: seq<nat>, arrays: Arrays, value: Json, id: nat)
    requires id in arrays && id !in slots
    ensures AddEffortSpec(slots, arrays, value)[id] == arrays[id]
  {
    CountAbsent(slots, id);
    assert Bump(arrays[id], DayNumOf(value), AmountOf(value), 0, 0) == arrays[id];
  }

  lemma AddEffortShape(slots: seq<nat>, arrays: Arrays, value: Json)
    ensures SameShape(slots, arrays, AddEffortSpec(slots, arrays, value))
  {
    forall id | id in arrays && id !in slots
      ensures AddEffortSpec(slots, arrays, value)[id] == arrays[id]
    {
      AddEffortUnreferenced(slots, arrays, value, id);
    }
  }

  /**
   * When the slots hold different arrays, a matching day in any week gains
   * exactly `Number(value.effort)`.
   */
  lemma AddEffortOnce(slots: seq<nat>, arrays: Arrays, value: Json, s: nat, j: nat, x: real, a: real)
    requires s < |slots| && forall i, k :: 0 <= i < k < |slots| ==> slots[i] != slots[k]
    requires slots[s] in arrays && j < |arrays[slots[s]]|
    requires arrays[slots[s]][j].effort == Amount(x) && Matches(arrays[slots[s]][j], DayNumOf(value))
    requires AmountOf(value) == Some(a)
    ensures AddEffortSpec(slots, arrays, value)[slots[s]][j].effort == Amount(x + a)
  {
    CountDistinct(slots, s);
    BumpedMatch(arrays, DayNumOf(value), AmountOf(value), slots, slots[s], j, x, a);
  }

  /**
   * When two slots hold the same array (a week left over from an earlier
   * period), a matching day gains the amount once for each of them.
   */
  lemma AddEffortShared(slots: seq<nat>, arrays: Arrays, value: Json, id: nat, s1: nat, s2: nat, j: nat, x: real, a: real)
    requires s1 < s2 < |slots| && slots[s1] == id && slots[s2] == id
    requires id in arrays && j < |arrays[id]|
    requires arrays[id][j].effort == Amount(x) && Matches(arrays[id][j], DayNumOf(value))
    requires AmountOf(value) == Some(a)
    ensures Count(slots, id) >= 2
    ensures AddEffortSpec(slots, arrays, value)[id][j].effort == Amount(x + (Count(slots, id) as real) * a)
  {
    CountShared(slots, s1, s2);
    AddEffortAdds(slots, arrays, value, id, j, x, a);
  }

  // ---------------------------------------------------------------------
  // Zeroing

  function ZeroAll(days: seq<Day>): (r: seq<Day>)
    ensures |r| == |days|
  {
    seq(|days|, j requires 0 <= j < |days| => days[j].(effort := Amount(0.0)))
  }

  /** The zeroing loop: every day of every week gets effort `0`, arrays no slot holds stay. */
  function Zeroed(slots: seq<nat>, arrays: Arrays): (r: Arrays)
    ensures r.Keys == arrays.Keys
  {
    map id | id in arrays :: if id in slots then ZeroAll(arrays[id]) else arrays[id]
  }

  /** After zeroing, every day of every week has effort 0 and keeps its date and weekday. */
  lemma ZeroedWeeks(slots: seq<nat>, arrays: Arrays, s: nat, j: nat)
    requires s < |slots| && slots[s] in arrays && j < |arrays[slots[s]]|
    ensures var z := Zeroed(slots, arrays); var d := arrays[slots[s]][j];
      |z[slots[s]]| == |arrays[slots[s]]| && z[slots[s]][j] == Day(d.dayOfWeek, d.date, Amount(0.0))
  {
  }

  lemma ZeroedShape(slots: seq<nat>, arrays: Arrays)
    ensures SameShape(slots, arrays, Zeroed(slots, arrays))
  {
  }

  /**
   * Zeroing forgets every effort: tables of the same shape zero to the same
   * table, so each line starts from the same all-zero efforts.
   */
  lemma ZeroedForgets(slots: seq<nat>, a: Arrays, b: Arrays)
    requires SameShape(slots, a, b)
    ensures Zeroed(slots, a) == Zeroed(slots, b)
  {
    forall id | id in a && id in slots ensures ZeroAll(a[id]) == ZeroAll(b[id]) {
      assert |a[id]| == |b[id]|;
    }
  }

  lemma SameShapeTrans(slots: seq<nat>, a: Arrays, b: Arrays, c: Arrays)
    requires SameShape(slots, a, b) && SameShape(slots, b, c)
    ensures SameShape(slots, a, c)
  {
  }

  // ---------------------------------------------------------------------
  // JSON copies

  /** `JSON.stringify` of an effort: a missing one is dropped, NaN becomes `null`. */
  function EffortJson(e: Effort): map<string, Json>
  {
    match e
    case NoEffort => map[]
    case Amount(x) => map["effort" := JNum(x)]
    case NaN => map["effort" := JNull]
  }

  function DayJson(d: Day): Json
  {
    JObj(map["dayOfWeek" := JStr(d.dayOfWeek), "date" := JNum(d.date as real)] + EffortJson(d.effort))
  }

  /** Reading a day back from its JSON copy, with `null` read as NaN. */
  function DayFromJson(v: Json): Option<Day>
  {
    match (Member(v, "dayOfWeek"), Member(v, "date"), Member(v, "effort"))
    case (Some(JStr(w)), Some(JNum(n)), None) => if n.Floor as real == n then Some(Day(w, n.Floor, NoEffort)) else None
    case (Some(JStr(w)), Some(JNum(n)), Some(JNum(x))) => if n.Floor as real == n then Some(Day(w, n.Floor, Amount(x))) else None
    case (Some(JStr(w)), Some(JNum(n)), Some(JNull)) => if n.Floor as real == n then Some(Day(w, n.Floor, NaN)) else None
    case _ => None
  }

  /** The deep copy keeps every day, with NaN as its only lossy value, shown as `null`. */
  lemma DayJsonRoundTrip(d: Day)
    ensures DayFromJson(DayJson(d)) == Some(d)
    ensures d.effort.NaN? <==> Member(DayJson(d), "effort") == Some(JNull)
  {
    assert (d.date as real).Floor == d.date;
  }

  function WeekJson(days: seq<Day>): (r: Json)
    ensures r.JArr? && |r.items| == |days|
  {
    JArr(seq(|days|, j requires 0 <= j < |days| => DayJson(days[j])))
  }

  /** `JSON.parse(JSON.stringify(efforts))`: the weeks as plain JSON, one array per slot. */
  function TableJson(slots: seq<nat>, arrays: Arrays): (r: Json)
    requires Refs(slots, arrays)
    ensures r.JArr? && |r.items| == |slots|
  {
    JArr(seq(|slots|, i requires 0 <= i < |slots| => WeekJson(arrays[slots[i]])))
  }

  /** Each week of the copy holds the days of its slot's array, in order. */
  lemma TableJsonDays(slots: seq<nat>, arrays: Arrays, s: nat, j: nat)
    requires Refs(slots, arrays) && s < |slots| && j < |arrays[slots[s]]|
    ensures var t := TableJson(slots, arrays);
      t.items[s].JArr? && |t.items[s].items| == |arrays[slots[s]]|
      && DayFromJson(t.items[s].items[j]) == Some(arrays[slots[s]][j])
  {
    DayJsonRoundTrip(arrays[slots[s]][j]);
  }

  // ---------------------------------------------------------------------
  // Line items

  /**
   * `Object.assign({}, v)` for the non-array values that reach it: an
   * object is copied, any other value gives an empty object.
   */
  function AssignCopy(v: Json): Json
  {
    if v.JObj? then v else JObj(map[])
  }

  /** A non-array value becomes a one-element array holding a copy of it; arrays stay as they are. */
  function Normalise(v: Json): (r: seq<Json>)
  {
    if v.JArr? then v.items else [AssignCopy(v)]
  }

  lemma NormaliseShape(v: Json)
    ensures v.JArr? ==> Normalise(v) == v.items
    ensures !v.JArr? ==> |Normalise(v)| == 1 && Normalise(v)[0].JObj?
    ensures v.JObj? ==> Normalise(v) == [v]
  {
  }

  /** A property write; the fields written here are only ever written on objects. */
  function SetField(v: Json, k: string, x: Json): Json
  {
    if v.JObj? then JObj(v.fields[k := x]) else v
  }

  datatype Applied = Applied(arrays: Arrays, threw: bool)

  /** `addEffort` on the table, throwing or not. */
  function AddEffortOutcome(slots: seq<nat>, arrays: Arrays, value: Json): (r: Applied)
    requires Refs(slots, arrays)
    ensures SameShape(slots, arrays, r.arrays)
  {
    AddEffortShape(slots, arrays, value);
    if AddEffortThrows(slots, arrays, value) then Applied(arrays, true)
    else Applied(AddEffortSpec(slots, arrays, value), false)
  }

  /** The `k` loop: `addEffort` for each entry in turn, stopping at the first throw. */
  function EffortsFold(slots: seq<nat>, arrays: Arrays, entries: seq<Json>): (r: Applied)
    requires Refs(slots, arrays)
    ensures SameShape(slots, arrays, r.arrays)
    decreases |entries|
  {
    if entries == [] then Applied(arrays, false)
    else
      var before := EffortsFold(slots, arrays, entries[..|entries| - 1]);
      if before.threw then before
      else
        var r := AddEffortOutcome(slots, before.arrays, entries[|entries| - 1]);
        SameShapeTrans(slots, arrays, before.arrays, r.arrays);
        r
  }

  /** Once an entry has thrown, later entries change nothing. */
  lemma {:induction false} EffortsFoldStops(slots: seq<nat>, arrays: Arrays, entries: seq<Json>, k: nat)
    requires Refs(slots, arrays) && k <= |entries| && EffortsFold(slots, arrays, entries[..k]).threw
    ensures EffortsFold(slots, arrays, entries) == EffortsFold(slots, arrays, entries[..k])
    decreases |entries|
  {
    if k < |entries| {
      assert entries[..|entries| - 1][..k] == entries[..k];
      EffortsFoldStops(slots, arrays, entries[..|entries| - 1], k);
    } else {
      assert entries[..k] == entries;
    }
  }

  datatype Outcome = Outcome(value: Json, arrays: Arrays, threw: bool)

  /**
   * One entry of `actuals.actual`: a truthy `efforts` is normalised and each
   * of its entries added; reading `efforts` of `null` throws.
   */
  function EntryOutcome(slots: seq<nat>, arrays: Arrays, entry: Json): (r: Outcome)
    requires Refs(slots, arrays)
    ensures SameShape(slots, arrays, r.arrays)
  {
    match Read(Some(entry), "efforts")
    case Err(_) => Outcome(entry, arrays, true)
    case Ok(efforts) =>
      if !TruthyValue(efforts) then Outcome(entry, arrays, false)
      else
        var applied := EffortsFold(slots, arrays, Normalise(efforts.value));
        var e := if efforts.value.JArr? then entry else SetField(entry, "efforts", JArr(Normalise(efforts.value)));
        Outcome(e, applied.arrays, applied.threw)
  }

  datatype Folded = Folded(items: seq<Json>, arrays: Arrays, threw: bool)

  /** The `j` loop over the entries of `actuals.actual`, stopping at the first throw. */
  function ActualFold(slots: seq<nat>, arrays: Arrays, entries: seq<Json>): (r: Folded)
    requires Refs(slots, arrays)
    ensures SameShape(slots, arrays, r.arrays)
    ensures !r.threw ==> |r.items| == |entries|
    decreases |entries|
  {
    if entries == [] then Folded([], arrays, false)
    else
      var before := ActualFold(slots, arrays, entries[..|entries| - 1]);
      if before.threw then before
      else
        var o := EntryOutcome(slots, before.arrays, entries[|entries| - 1]);
        SameShapeTrans(slots, arrays, before.arrays, o.arrays);
        Folded(before.items + [o.value], o.arrays, o.threw)
  }

  /** Once an entry has thrown, later entries change nothing. */
  lemma {:induction false} ActualFoldStops(slots: seq<nat>, arrays: Arrays, entries: seq<Json>, k: nat)
    requires Refs(slots, arrays) && k <= |entries| && ActualFold(slots, arrays, entries[..k]).threw
    ensures ActualFold(slots, arrays, entries) == ActualFold(slots, arrays, entries[..k])
    decreases |entries|
  {
    if k < |entries| {
      assert entries[..|entries| - 1][..k] == entries[..k];
      ActualFoldStops(slots, arrays, entries[..|entries| - 1], k);
    } else {
      assert entries[..k] == entries;
    }
  }

  /**
   * One line from the zeroed table: a truthy `actuals.actual` is normalised
   * and folded, then the line gets a deep copy of the table as `efforts`.
   * Reading `actuals.actual` when `actuals` is missing or `null` throws.
   */
  function LineOutcome(slots: seq<nat>, zeroed: Arrays, line: Json): (r: Outcome)
    requires Refs(slots, zeroed)
    ensures SameShape(slots, zeroed, r.arrays)
  {
    match Read(Some(line), "actuals")
    case Err(_) => Outcome(line, zeroed, true)
    case Ok(actuals) =>
      match Read(actuals, "actual")
      case Err(_) => Outcome(line, zeroed, true)
      case Ok(actual) =>
        if !TruthyValue(actual) then
          Outcome(SetField(line, "efforts", TableJson(slots, zeroed)), zeroed, false)
        else
          var folded := ActualFold(slots, zeroed, Normalise(actual.value));
          if folded.threw then Outcome(line, folded.arrays, true)
          else
            var withActual := SetField(line, "actuals", SetField(actuals.value, "actual", JArr(folded.items)));
            Outcome(SetField(withActual, "efforts", TableJson(slots, folded.arrays)), folded.arrays, false)
  }

  // ---------------------------------------------------------------------
  // The whole response

  /**
   * What the line loop indexes: the elements of an array, the characters of
   * a string; any other value has no numeric `length` and no lines.
   */
  function Lines(v: Json): seq<Json>
  {
    match v
    case JArr(items) => items
    case JStr(s) => seq(|s|, i requires 0 <= i < |s| => JStr([s[i]]))
    case _ => []
  }

  /**
   * The line loop as it runs: each line zeroes the table it finds and
   * works on it, and the first throw ends the loop with the table as the
   * throwing line left it.
   */
  function LinesRun(slots: seq<nat>, arrays: Arrays, lines: seq<Json>): (r: Applied)
    requires Refs(slots, arrays)
    ensures SameShape(slots, arrays, r.arrays)
    decreases |lines|
  {
    if lines == [] then Applied(arrays, false)
    else
      var before := LinesRun(slots, arrays, lines[..|lines| - 1]);
      if before.threw then before
      else
        var z := Zeroed(slots, before.arrays);
        ZeroedShape(slots, before.arrays);
        var o := LineOutcome(slots, z, lines[|lines| - 1]);
        SameShapeTrans(slots, arrays, before.arrays, z);
        SameShapeTrans(slots, arrays, z, o.arrays);
        Applied(o.arrays, o.threw)
  }

  /** One more line after lines that did not throw: it starts from the zeroed table they left. */
  lemma LinesRunNext(slots: seq<nat>, arrays: Arrays, lines: seq<Json>, i: nat, now: Arrays)
    requires Refs(slots, arrays) && i < |lines| && LinesRun(slots, arrays, lines[..i]) == Applied(now, false)
    ensures Refs(slots, now) && SameShape(slots, arrays, now)
    ensures var o := LineOutcome(slots, Zeroed(slots, now), lines[i]);
      LinesRun(slots, arrays, lines[..i + 1]) == Applied(o.arrays, o.threw)
  {
    assert lines[..i + 1][..i] == lines[..i];
  }

  /** Once a line has thrown, later lines change nothing. */
  lemma {:induction false} LinesRunStops(slots: seq<nat>, arrays: Arrays, lines: seq<Json>, k: nat)
    requires Refs(slots, arrays) && k <= |lines| && LinesRun(slots, arrays, lines[..k]).threw
    ensures LinesRun(slots, arrays, lines) == LinesRun(slots, arrays, lines[..k])
    decreases |lines|
  {
    if k < |lines| {
      assert lines[..|lines| - 1][..k] == lines[..k];
      LinesRunStops(slots, arrays, lines[..|lines| - 1], k);
    } else {
      assert lines[..k] == lines;
    }
  }

  /**
   * The lines' outcomes from the all-zero table `z`: none when some line
   * throws, else each line's rewritten value.
   */
  function LinesResult(slots: seq<nat>, z: Arrays, lines: seq<Json>): (r: Option<seq<Json>>)
    requires Refs(slots, z)
    ensures r.None? <==> exists i :: 0 <= i < |lines| && LineOutcome(slots, z, lines[i]).threw
    ensures r.Some? ==> |r.value| == |lines| && forall i :: 0 <= i < |lines| ==> r.value[i] == LineOutcome(slots, z, lines[i]).value
  {
    if exists i :: 0 <= i < |lines| && LineOutcome(slots, z, lines[i]).threw then None
    else Some(seq(|lines|, i requires 0 <= i < |lines| => LineOutcome(slots, z, lines[i]).value))
  }

  /** One more line that does not throw adds its outcome. */
  lemma LinesResultNext(slots: seq<nat>, z: Arrays, lines: seq<Json>, i: nat, outs: seq<Json>)
    requires Refs(slots, z) && i < |lines| && LinesResult(slots, z, lines[..i]) == Some(outs)
    requires !LineOutcome(slots, z, lines[i]).threw
    ensures LinesResult(slots, z, lines[..i + 1]) == Some(outs + [LineOutcome(slots, z, lines[i]).value])
  {
    var next := lines[..i + 1];
    var want := outs + [LineOutcome(slots, z, lines[i]).value];
    forall k | 0 <= k < |next|
      ensures !LineOutcome(slots, z, next[k]).threw && want[k] == LineOutcome(slots, z, next[k]).value
    {
      if k < i {
        assert next[k] == lines[..i][k];
      }
    }
    assert LinesResult(slots, z, next).value == want;
  }

  /** A line that throws leaves no result. */
  lemma LinesResultThrows(slots: seq<nat>, z: Arrays, lines: seq<Json>, i: nat)
    requires Refs(slots, z) && i < |lines| && LineOutcome(slots, z, lines[i]).threw
    ensures LinesResult(slots, z, lines) == None
  {
  }

  /**
   * `getTimeSheetLineItems` on the cleaned response.  Reading the lines of
   * a missing or `null` `timeSheetLines` or `timeSheetLine` throws; a line
   * that throws fails the whole call.  Otherwise each line of an array gets
   * the outcome computed from the all-zero table, whatever the lines before
   * it added; lines of any other value are left as they are.
   */
  function LineItems(slots: seq<nat>, arrays: Arrays, res: Json): Result<Json, JsError>
    requires Refs(slots, arrays)
  {
    match Read(Some(res), "timeSheetLines")
    case Err(e) => Err(e)
    case Ok(sheet) =>
      match Read(sheet, "timeSheetLine")
      case Err(e) => Err(e)
      case Ok(lines) =>
        if lines.None? || lines.value.JNull? then Err(TypeError)
        else
          var outs := LinesResult(slots, Zeroed(slots, arrays), Lines(lines.value));
          if outs.None? then Err(TypeError)
          else if lines.value.JArr? then
            Ok(SetField(res, "timeSheetLines", SetField(sheet.value, "timeSheetLine", JArr(outs.value))))
          else Ok(res)
  }

  /** What the line loop leaves in the table, when the lines can be read at all. */
  function LineItemsEfforts(slots: seq<nat>, arrays: Arrays, res: Json): Arrays
    requires Refs(slots, arrays)
  {
    match Read(Some(res), "timeSheetLines")
    case Err(_) => arrays
    case Ok(sheet) =>
      match Read(sheet, "timeSheetLine")
      case Err(_) => arrays
      case Ok(lines) =>
        if lines.None? || lines.value.JNull? then arrays
        else LinesRun(slots, arrays, Lines(lines.value)).arrays
  }
}
