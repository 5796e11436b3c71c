/**
 * The REST connector's module-level state and the operations that change
 * it: the saved session (`savedToken`, `savedUser`) and the week table
 * (`weeks`, `allDefaultDays`) that `getTimePeriods` fills and
 * `getTimeSheetLineItems` rewrites in place.
 *
 * The HTTP exchange is a parameter: each operation that calls `_get` is
 * given the transport's reply (or the cleaned response), and returns the
 * request it would send.
 */
module RestConnector {
  import opened Wrappers
  import opened JsonValue
  import opened RestProtocol
  import opened TimeSheets

  /** A GET request as `_get` sends it: the URL and the `Authorization` header. */
  datatype Request = Request(url: string, authorization: string)

  /** `authenticate`'s answer: the cleaned response, or the fixed error object. */
  datatype AuthResult = Authenticated(response: string) | AuthFailed(error: string)

  // ---------------------------------------------------------------------
  // Loop helpers for zeroing

  /** A week array whose first `b` days have been zeroed. */
  function ZeroPrefix(days: seq<Day>, b: nat): (r: seq<Day>)
    ensures |r| == |days|
  {
    seq(|days|, j requires 0 <= j < |days| => if j < b then days[j].(effort := Amount(0.0)) else days[j])
  }

  lemma ZeroPrefixStep(days: seq<Day>, b: nat)
    requires b < |days|
    ensures ZeroPrefix(days, b)[b := days[b].(effort := Amount(0.0))] == ZeroPrefix(days, b + 1)
  {
  }

  lemma ZeroPrefixAll(days: seq<Day>)
    ensures ZeroPrefix(days, |days|) == ZeroAll(days) && ZeroPrefix(days, 0) == days
  {
  }

  /** Zeroing one more slot's array; an array zeroed before stays as it is. */
  lemma ZeroedNext(slots: seq<nat>, a: nat, orig: Arrays)
    requires a < |slots| && slots[a] in orig
    ensures var base := Zeroed(slots[..a], orig);
      Zeroed(slots[..a + 1], orig) == base[slots[a] := ZeroAll(base[slots[a]])]
  {
    var base := Zeroed(slots[..a], orig);
    assert slots[..a + 1] == slots[..a] + [slots[a]];
    var cur := slots[a];
    if cur in slots[..a] {
      assert ZeroAll(base[cur]) == base[cur];
    }
  }

  // ---------------------------------------------------------------------
  // Loop helpers for addEffort

  lemma CountSnoc(done: seq<nat>, cur: nat, id: nat)
    ensures Count(done + [cur], id) == Count(done, id) + if cur == id then 1 else 0
  {
    assert (done + [cur])[..|done|] == done;
  }

  /** Starting the visit of `cur`: no day of it is counted yet. */
  lemma BumpedStart(arrays: Arrays, dayNum: Option<real>, amount: Option<real>, done: seq<nat>, cur: nat)
    ensures Bumped(arrays, dayNum, amount, done, cur, 0) == Bumped(arrays, dayNum, amount, done, 0, 0)
  {
  }

  /** Finishing the visit of `cur`: it counts as one more visit of its array. */
  lemma BumpedFinish(arrays: Arrays, dayNum: Option<real>, amount: Option<real>, done: seq<nat>, cur: nat)
    requires cur in arrays
    ensures Bumped(arrays, dayNum, amount, done, cur, |arrays[cur]|)
         == Bumped(arrays, dayNum, amount, done + [cur], 0, 0)
  {
    forall id | id in arrays
      ensures Bump(arrays[id], dayNum, amount, Count(done, id), if id == cur then |arrays[cur]| else 0)
           == Bump(arrays[id], dayNum, amount, Count(done + [cur], id), 0)
    {
      CountSnoc(done, cur, id);
    }
  }

  /** One day of the visit: a matching day gains the amount once more, any other day stays. */
  lemma BumpedStep(arrays: Arrays, dayNum: Option<real>, amount: Option<real>, done: seq<nat>, cur: nat, j: nat)
    requires cur in arrays && j < |arrays[cur]|
    ensures var now := Bumped(arrays, dayNum, amount, done, cur, j); var d := now[cur][j];
      cur in now && |now[cur]| == |arrays[cur]|
      && (Matches(d, dayNum) ==>
            Bumped(arrays, dayNum, amount, done, cur, j + 1) == now[cur := now[cur][j := d.(effort := Plus(d.effort, amount))]])
      && (!Matches(d, dayNum) ==> Bumped(arrays, dayNum, amount, done, cur, j + 1) == now)
  {
    var now := Bumped(arrays, dayNum, amount, done, cur, j);
    var next := Bumped(arrays, dayNum, amount, done, cur, j + 1);
    var d := now[cur][j];
    if Matches(d, dayNum) {
      var written := now[cur := now[cur][j := d.(effort := Plus(d.effort, amount))]];
      assert next[cur] == written[cur];
      assert next == written;
    } else {
      assert next[cur] == now[cur];
      assert next == now;
    }
  }

  // ---------------------------------------------------------------------
  // The connector

  class Connector {
    var savedToken: string
    var savedUser: Option<string>
    var slots: seq<nat>
    var arrays: Arrays
    var buffer: nat
    var nextArray: nat

    /** The week table as a store of arrays. */
    function Table(): Store
      reads this
    {
      Store(slots, arrays, buffer, nextArray)
    }

    ghost predicate Valid()
      reads this
    {
      StoreOk(Table())
    }

    /** Module load: no session, no weeks, an empty day buffer. */
    constructor()
      ensures Valid()
      ensures savedToken == "" && savedUser == Some("")
      ensures Weeks(Table()) == [] && arrays[buffer] == []
    {
      savedToken := "";
      savedUser := Some("");
      slots := [];
      arrays := map[0 := []];
      buffer := 0;
      nextArray := 1;
    }

    /**
     * `authenticate`: the chosen token goes into the request; when the
     * request succeeds the token and user name are saved and the cleaned
     * response returned, otherwise the fixed error object is returned and
     * nothing is saved.
     */
    method Authenticate(username: Option<string>, password: Option<string>, token: Option<string>,
                        configured: string, encode: string -> string, baseUrl: string, reply: Reply)
      returns (request: Request, r: AuthResult)
      modifies this
      ensures var chosen := ChooseToken(username, password, token, configured, encode);
        request == Request(RequestUrl(baseUrl, "/authenticate"), AuthorizationHeader(chosen))
        && (ClassifyGet(reply).Ok? ==>
              r == Authenticated(CleanJson(ClassifyGet(reply).value)) && savedToken == chosen && savedUser == username)
        && (ClassifyGet(reply).Err? ==>
              r == AuthFailed("Something went wrong") && savedToken == old(savedToken) && savedUser == old(savedUser))
      ensures slots == old(slots) && arrays == old(arrays) && buffer == old(buffer) && nextArray == old(nextArray)
    {
      var chosen := ChooseToken(username, password, token, configured, encode);
      request := Request(RequestUrl(baseUrl, "/authenticate"), AuthorizationHeader(chosen));
      var got := ClassifyGet(reply);
      if got.Err? {
        r := AuthFailed("Something went wrong");
        return;
      }
      savedToken := chosen;
      savedUser := username;
      r := Authenticated(CleanJson(got.value));
    }

    /** `logout`: both saved fields become the empty string. */
    method Logout()
      modifies this
      ensures savedToken == "" && savedUser == Some("")
      ensures slots == old(slots) && arrays == old(arrays) && buffer == old(buffer) && nextArray == old(nextArray)
    {
      savedToken := "";
      savedUser := Some("");
    }

    /**
     * The request `_get` sends for a path with the saved session: the
     * format parameter added and the saved token as the credential.
     */
    method GetRequest(baseUrl: string, path: string) returns (request: Request)
      ensures request == Request(RequestUrl(baseUrl, path), AuthorizationHeader(savedToken))
    {
      request := Request(RequestUrl(baseUrl, path), AuthorizationHeader(savedToken));
    }

    /** `allDefaultDays.push(...)` of one day. */
    method PushDay(c: CalendarDay)
      requires Valid()
      modifies this
      ensures Valid() && Table() == Push(old(Table()), c)
      ensures savedToken == old(savedToken) && savedUser == old(savedUser)
    {
      arrays := arrays[buffer := arrays[buffer] + [NewDay(c)]];
    }

    /** `weeks[weekNo] = allDefaultDays`. */
    method StoreBuffer(weekNo: nat)
      requires Valid() && weekNo <= |slots|
      modifies this
      ensures Valid() && Table() == StoreAt(old(Table()), weekNo)
      ensures savedToken == old(savedToken) && savedUser == old(savedUser)
    {
      slots := if weekNo < |slots| then slots[weekNo := buffer] else slots + [buffer];
    }

    /** `allDefaultDays = []`. */
    method NewBuffer()
      requires Valid()
      modifies this
      ensures Valid() && Table() == Reset(old(Table()))
      ensures savedToken == old(savedToken) && savedUser == old(savedUser)
    {
      arrays := arrays[nextArray := []];
      buffer := nextArray;
      nextArray := nextArray + 1;
    }

    /**
     * The period loop: each day is pushed, every seventh closes a week into
     * the next slot and starts a new buffer, and a non-empty buffer left at
     * the end is stored after the closed weeks.
     */
    method FillWeeks(days: seq<CalendarDay>)
      requires Valid()
      modifies this
      ensures Valid() && Table() == Chunk(old(Table()), days, 0, 0)
      ensures savedToken == old(savedToken) && savedUser == old(savedUser)
    {
      var weekNo := 0;
      var i := 0;
      while i < |days|
        invariant 0 <= i <= |days| && Valid() && weekNo <= |slots|
        invariant Chunk(Table(), days[i..], i, weekNo) == Chunk(old(Table()), days, 0, 0)
        invariant savedToken == old(savedToken) && savedUser == old(savedUser)
      {
        assert days[i..][1..] == days[i + 1..];
        PushDay(days[i]);
        i := i + 1;
        if i % 7 == 0 {
          StoreBuffer(weekNo);
          NewBuffer();
          weekNo := weekNo + 1;
        }
      }
      if |arrays[buffer]| > 0 {
        StoreBuffer(weekNo);
      }
    }

    /**
     * `getTimePeriods` on the cleaned response, given the days from the
     * period's start date up to its end date.  Reading the period of a
     * response without one throws before any day is pushed; writing
     * `weeks` onto a period that is a primitive throws after the loop.
     */
    method GetTimePeriods(res: Json, days: seq<CalendarDay>) returns (r: Result<Json, JsError>)
      requires Valid()
      modifies this
      ensures Valid()
      ensures var periods := Read(Some(res), "periods");
        var period := if periods.Ok? then Read(periods.value, "period") else Err(TypeError);
        var start := if period.Ok? then Read(period.value, "startDate") else Err(TypeError);
        if start.Err? then r == Err(TypeError) && Table() == old(Table())
        else
          Table() == Chunk(old(Table()), days, 0, 0)
          && r == match period.value.value
                  case JObj(f) =>
                    Ok(SetField(res, "periods", SetField(periods.value.value, "period",
                      JObj(f["weeks" := TableJson(slots, arrays)]))))
                  case JArr(_) => Ok(res)
                  case _ => Err(TypeError)
      ensures savedToken == old(savedToken) && savedUser == old(savedUser)
    {
      var periods := Read(Some(res), "periods");
      if periods.Err? {
        return Err(TypeError);
      }
      var period := Read(periods.value, "period");
      if period.Err? {
        return Err(TypeError);
      }
      if Read(period.value, "startDate").Err? {
        return Err(TypeError);
      }
      FillWeeks(days);
      match period.value.value
      case JObj(f) =>
        r := Ok(SetField(res, "periods", SetField(periods.value.value, "period",
               JObj(f["weeks" := TableJson(slots, arrays)]))));
      case JArr(_) =>
        r := Ok(res);
      case _ =>
        r := Err(TypeError);
    }

    /** `weeks[a][b].effort = e`, the in-place write of one day's effort. */
    method SetEffort(id: nat, j: nat, e: Effort)
      requires Valid() && id in arrays && j < |arrays[id]|
      modifies this
      ensures Valid() && arrays == old(arrays)[id := old(arrays)[id][j := old(arrays)[id][j].(effort := e)]]
      ensures slots == old(slots) && buffer == old(buffer) && nextArray == old(nextArray)
      ensures savedToken == old(savedToken) && savedUser == old(savedUser)
    {
      arrays := arrays[id := arrays[id][j := arrays[id][j].(effort := e)]];
    }

    /** The zeroing loop of a line: every day of every week gets effort `0`. */
    method ZeroEfforts()
      requires Valid()
      modifies this
      ensures Valid() && arrays == Zeroed(slots, old(arrays))
      ensures slots == old(slots) && buffer == old(buffer) && nextArray == old(nextArray)
      ensures savedToken == old(savedToken) && savedUser == old(savedUser)
    {
      ghost var orig := arrays;
      var a := 0;
      assert slots[..0] == [];
      while a < |slots|
        invariant 0 <= a <= |slots| && Valid()
        invariant arrays == Zeroed(slots[..a], orig)
        invariant slots == old(slots) && buffer == old(buffer) && nextArray == old(nextArray)
        invariant savedToken == old(savedToken) && savedUser == old(savedUser)
        invariant Refs(slots, orig)
      {
        var cur := slots[a];
        ghost var base := arrays;
        ZeroPrefixAll(base[cur]);
        var b := 0;
        while b < |arrays[cur]|
          invariant 0 <= b <= |base[cur]| && cur in arrays
          invariant arrays == base[cur := ZeroPrefix(base[cur], b)]
          invariant slots == old(slots) && buffer == old(buffer) && nextArray == old(nextArray)
          invariant savedToken == old(savedToken) && savedUser == old(savedUser)
          invariant a < |slots| && cur == slots[a] && Refs(slots, orig) && base == Zeroed(slots[..a], orig)
        {
          ZeroPrefixStep(base[cur], b);
          SetEffort(cur, b, Amount(0.0));
          b := b + 1;
        }
        ZeroedNext(slots, a, orig);
        a := a + 1;
      }
      assert slots[..a] == slots;
    }

    /**
     * The `j` loop of `addEffort` over one week, once `value.dayNum` has
     * been read: the visit of array `cur` is added to the visits in `done`.
     */
    method AddEffortToWeek(cur: nat, dayNum: Option<real>, amount: Option<real>, ghost orig: Arrays, ghost done: seq<nat>)
      requires Valid() && cur in orig && arrays == Bumped(orig, dayNum, amount, done, 0, 0)
      modifies this
      ensures Valid() && arrays == Bumped(orig, dayNum, amount, done + [cur], 0, 0)
      ensures slots == old(slots) && buffer == old(buffer) && nextArray == old(nextArray)
      ensures savedToken == old(savedToken) && savedUser == old(savedUser)
    {
      BumpedStart(orig, dayNum, amount, done, cur);
      var j := 0;
      while j < |arrays[cur]|
        invariant 0 <= j <= |orig[cur]| && Valid()
        invariant arrays == Bumped(orig, dayNum, amount, done, cur, j)
        invariant cur in arrays && |arrays[cur]| == |orig[cur]|
        invariant slots == old(slots) && buffer == old(buffer) && nextArray == old(nextArray)
        invariant savedToken == old(savedToken) && savedUser == old(savedUser)
      {
        BumpedStep(orig, dayNum, amount, done, cur, j);
        var d := arrays[cur][j];
        if dayNum == Some(d.date as real) {
          SetEffort(cur, j, Plus(d.effort, amount));
        }
        j := j + 1;
      }
      BumpedFinish(orig, dayNum, amount, done, cur);
    }

    /**
     * `addEffort(efforts, value)`: every matching day of every week gains
     * `Number(value.effort)`.  The first day visited reads `value.dayNum`,
     * which throws for a `null` value before anything changes.
     */
    method AddEffort(value: Json) returns (threw: bool)
      requires Valid()
      modifies this
      ensures Valid()
      ensures slots == old(slots) && buffer == old(buffer) && nextArray == old(nextArray)
      ensures threw == AddEffortThrows(slots, old(arrays), value)
      ensures arrays == if threw then old(arrays) else AddEffortSpec(slots, old(arrays), value)
      ensures savedToken == old(savedToken) && savedUser == old(savedUser)
    {
      ghost var orig := arrays;
      var dayNum, amount := DayNumOf(value), AmountOf(value);
      var i := 0;
      assert slots[..0] == [];
      BumpedNone(orig, dayNum, amount);
      while i < |slots|
        invariant 0 <= i <= |slots| && Valid() && Refs(slots, orig)
        invariant arrays == Bumped(orig, dayNum, amount, slots[..i], 0, 0)
        invariant value.JNull? ==> arrays == orig && forall k :: 0 <= k < i ==> |orig[slots[k]]| == 0
        invariant slots == old(slots) && buffer == old(buffer) && nextArray == old(nextArray)
        invariant savedToken == old(savedToken) && savedUser == old(savedUser)
      {
        var cur := slots[i];
        if value.JNull? && |arrays[cur]| > 0 {
          return true;
        }
        AddEffortToWeek(cur, dayNum, amount, orig, slots[..i]);
        assert slots[..i + 1] == slots[..i] + [cur];
        i := i + 1;
      }
      assert slots[..i] == slots;
      return false;
    }

    /** The `k` loop: `addEffort` for each entry of `efforts` in turn; a throw ends it. */
    method AddEfforts(entries: seq<Json>) returns (threw: bool)
      requires Valid()
      modifies this
      ensures Valid()
      ensures slots == old(slots) && buffer == old(buffer) && nextArray == old(nextArray)
      ensures savedToken == old(savedToken) && savedUser == old(savedUser)
      ensures Applied(arrays, threw) == EffortsFold(slots, old(arrays), entries)
    {
      var k := 0;
      threw := false;
      assert entries[..0] == [];
      while k < |entries|
        invariant 0 <= k <= |entries| && Valid() && !threw && Refs(slots, old(arrays))
        invariant Applied(arrays, false) == EffortsFold(slots, old(arrays), entries[..k])
        invariant slots == old(slots) && buffer == old(buffer) && nextArray == old(nextArray)
        invariant savedToken == old(savedToken) && savedUser == old(savedUser)
      {
        assert entries[..k + 1][..k] == entries[..k];
        threw := AddEffort(entries[k]);
        k := k + 1;
        if threw {
          EffortsFoldStops(slots, old(arrays), entries, k);
          return;
        }
      }
      assert entries[..k] == entries;
    }

    /**
     * One entry of `actuals.actual`: a truthy `efforts` is normalised in the
     * entry and its entries are added; reading `efforts` of `null` throws.
     */
    method ProcessEntry(entry: Json) returns (out: Json, threw: bool)
      requires Valid()
      modifies this
      ensures Valid()
      ensures slots == old(slots) && buffer == old(buffer) && nextArray == old(nextArray)
      ensures savedToken == old(savedToken) && savedUser == old(savedUser)
      ensures Outcome(out, arrays, threw) == EntryOutcome(slots, old(arrays), entry)
    {
      var efforts := Read(Some(entry), "efforts");
      if efforts.Err? {
        return entry, true;
      }
      if !TruthyValue(efforts.value) {
        return entry, false;
      }
      var entries := Normalise(efforts.value.value);
      out := if efforts.value.value.JArr? then entry else SetField(entry, "efforts", JArr(entries));
      threw := AddEfforts(entries);
    }

    /** The `j` loop over the entries of `actuals.actual`; a throw ends it. */
    method ProcessActual(entries: seq<Json>) returns (done: seq<Json>, threw: bool)
      requires Valid()
      modifies this
      ensures Valid()
      ensures slots == old(slots) && buffer == old(buffer) && nextArray == old(nextArray)
      ensures savedToken == old(savedToken) && savedUser == old(savedUser)
      ensures Folded(done, arrays, threw) == ActualFold(slots, old(arrays), entries)
    {
      done := [];
      threw := false;
      var j := 0;
      assert entries[..0] == [];
      while j < |entries|
        invariant 0 <= j <= |entries| && Valid() && Refs(slots, old(arrays)) && !threw
        invariant Folded(done, arrays, false) == ActualFold(slots, old(arrays), entries[..j])
        invariant slots == old(slots) && buffer == old(buffer) && nextArray == old(nextArray)
        invariant savedToken == old(savedToken) && savedUser == old(savedUser)
      {
        assert entries[..j + 1][..j] == entries[..j];
        var o;
        o, threw := ProcessEntry(entries[j]);
        done := done + [o];
        j := j + 1;
        if threw {
          ActualFoldStops(slots, old(arrays), entries, j);
          return;
        }
      }
      assert entries[..j] == entries;
    }

    /**
     * One time-sheet line: the table is zeroed, a truthy `actuals.actual` is
     * normalised and each of its entries processed, and the line gets a
     * deep copy of the table as `efforts`.  Reading `actuals.actual` when
     * `actuals` is missing or `null` throws, as does any entry.
     */
    method ProcessLine(line: Json) returns (out: Json, threw: bool)
      requires Valid()
      modifies this
      ensures Valid()
      ensures slots == old(slots) && buffer == old(buffer) && nextArray == old(nextArray)
      ensures savedToken == old(savedToken) && savedUser == old(savedUser)
      ensures Outcome(out, arrays, threw) == LineOutcome(slots, Zeroed(slots, old(arrays)), line)
    {
      ZeroEfforts();
      var actuals := Read(Some(line), "actuals");
      if actuals.Err? {
        return line, true;
      }
      var actual := Read(actuals.value, "actual");
      if actual.Err? {
        return line, true;
      }
      if !TruthyValue(actual.value) {
        return SetField(line, "efforts", TableJson(slots, arrays)), false;
      }
      var done, t := ProcessActual(Normalise(actual.value.value));
      if t {
        return line, true;
      }
      var withActual := SetField(line, "actuals", SetField(actuals.value.value, "actual", JArr(done)));
      out := SetField(withActual, "efforts", TableJson(slots, arrays));
      threw := false;
    }

    /**
     * The line loop: each line is processed in turn on the table the line
     * before left; every line's outcome equals its outcome from the
     * all-zero table, and the first throw ends the loop.
     */
    method RunLines(lines: seq<Json>) returns (outs: seq<Json>, threw: bool)
      requires Valid()
      modifies this
      ensures Valid()
      ensures slots == old(slots) && buffer == old(buffer) && nextArray == old(nextArray)
      ensures savedToken == old(savedToken) && savedUser == old(savedUser)
      ensures Applied(arrays, threw) == LinesRun(slots, old(arrays), lines)
      ensures (if threw then None else Some(outs)) == LinesResult(slots, Zeroed(slots, old(arrays)), lines)
    {
      ghost var orig := arrays;
      ghost var z := Zeroed(slots, orig);
      outs := [];
      threw := false;
      var i := 0;
      assert lines[..0] == [];
      assert LinesResult(slots, z, []) == Some([]);
      while i < |lines|
        invariant 0 <= i <= |lines| && Valid() && Refs(slots, orig) && !threw
        invariant Applied(arrays, false) == LinesRun(slots, orig, lines[..i])
        invariant LinesResult(slots, z, lines[..i]) == Some(outs)
        invariant slots == old(slots) && buffer == old(buffer) && nextArray == old(nextArray)
        invariant savedToken == old(savedToken) && savedUser == old(savedUser)
      {
        LinesRunNext(slots, orig, lines, i, arrays);
        ZeroedForgets(slots, orig, arrays);
        var o, t := ProcessLine(lines[i]);
        if t {
          LinesResultThrows(slots, z, lines, i);
          LinesRunStops(slots, orig, lines, i + 1);
          return outs, true;
        }
        LinesResultNext(slots, z, lines, i, outs);
        outs := outs + [o];
        i := i + 1;
      }
      assert lines[..i] == lines;
    }

    /**
     * `getTimeSheetLineItems` on the cleaned response: the result is the
     * response with every line rewritten, or a `TypeError`; the table keeps
     * what the last line processed left in it.
     */
    method GetTimeSheetLineItems(res: Json) returns (r: Result<Json, JsError>)
      requires Valid()
      modifies this
      ensures Valid()
      ensures slots == old(slots) && buffer == old(buffer) && nextArray == old(nextArray)
      ensures savedToken == old(savedToken) && savedUser == old(savedUser)
      ensures r == LineItems(slots, old(arrays), res)
      ensures arrays == LineItemsEfforts(slots, old(arrays), res)
    {
      var sheet := Read(Some(res), "timeSheetLines");
      if sheet.Err? {
        return Err(sheet.error);
      }
      var lines := Read(sheet.value, "timeSheetLine");
      if lines.Err? {
        return Err(lines.error);
      }
      if lines.value.None? || lines.value.value.JNull? {
        return Err(TypeError);
      }
      var all := Lines(lines.value.value);
      var outs, threw := RunLines(all);
      if threw {
        r := Err(TypeError);
      } else if lines.value.value.JArr? {
        r := Ok(SetField(res, "timeSheetLines", SetField(sheet.value.value, "timeSheetLine", JArr(outs))));
      } else {
        r := Ok(res);
      }
    }
  }
}
