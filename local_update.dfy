/**
 * The decision logic of `run`: which part of the decoded response is
 * scanned, the text fallback that fills a missing price, and whether a
 * snapshot is written or the run ends with the extraction-failure code.
 */
module LocalUpdate {
  import opened Wrappers
  import opened JsRuntime
  import opened FindNumbers

  /** The record written to `prices.json`. */
  datatype Snapshot = Snapshot(petrol: JsNumber, diesel: JsNumber, updatedAt: string)

  /**
   * How the extraction ends: a snapshot to write, `process.exit(2)`, or the
   * `TypeError` of a failing `String(v)` caught at lines 82-85.
   */
  datatype Outcome = Written(snapshot: Snapshot) | ExtractionFailed | Crashed

  /** The process exit status of each outcome. */
  function ExitCode(o: Outcome): (code: nat)
    ensures code == 0 <==> o.Written?
    ensures code == 2 <==> o.ExtractionFailed?
    ensures code == 3 <==> o.Crashed?
  {
    match o
    case Written(_) => 0
    case ExtractionFailed => 2
    case Crashed => 3
  }

  /** Line 54: a non-empty array stands for its last element, anything else for itself. */
  function Candidate(data: Value): (c: Value)
    ensures data.Arr? && |data.items| > 0 ==> c == data.items[|data.items| - 1]
    ensures !(data.Arr? && |data.items| > 0) ==> c == data
  {
    if data.Arr? && |data.items| > 0 then data.items[|data.items| - 1] else data
  }

  /** The prices the structural scan finds in the response, with the alias test `m`. */
  function Structural(host: Host, m: Matching, data: Value): Found {
    ScanValue(host, m, Unset, Candidate(data))
  }

  /** The structural scan throws. */
  predicate StructuralThrows(host: Host, m: Matching, data: Value) {
    ScanThrows(host, m, Unset, Candidate(data))
  }

  /** Line 61: the strict pattern's matches, or the loose pattern's when the strict one finds none. */
  function FallbackNumbers(host: Host, s: string): (r: seq<string>)
    ensures host.matchTwoDecimals(s) != [] ==> r == host.matchTwoDecimals(s)
    ensures host.matchTwoDecimals(s) == [] ==> r == host.matchUpToTwoDecimals(s)
  {
    var strict := host.matchTwoDecimals(s);
    if |strict| > 0 then strict else host.matchUpToTwoDecimals(s)
  }

  /** Lines 59-65: fill the prices still falsy from the numbers found in `JSON.stringify(data)`. */
  function Fallback(host: Host, found: Found, data: Value): (r: Found)
    ensures r.updatedAt == found.updatedAt
    ensures PriceTruthy(found.petrol) ==> r.petrol == found.petrol
    ensures PriceTruthy(found.diesel) ==> r.diesel == found.diesel
    ensures PriceTruthy(found.petrol) && PriceTruthy(found.diesel) ==> r == found
    ensures |FallbackNumbers(host, host.stringify(data))| < 2 ==> r == found
    ensures var nums := FallbackNumbers(host, host.stringify(data));
      |nums| >= 2 && !(PriceTruthy(found.petrol) && PriceTruthy(found.diesel)) ==>
        && (!PriceTruthy(found.petrol) ==> r.petrol == Some(host.parseNumber(nums[0])))
        && (!PriceTruthy(found.diesel) ==> r.diesel == Some(host.parseNumber(nums[1])))
  {
    if !PriceTruthy(found.petrol) || !PriceTruthy(found.diesel) then
      var nums := FallbackNumbers(host, host.stringify(data));
      if |nums| >= 2 then
        Found(
          if PriceTruthy(found.petrol) then found.petrol else Some(host.parseNumber(nums[0])),
          if PriceTruthy(found.diesel) then found.diesel else Some(host.parseNumber(nums[1])),
          found.updatedAt)
      else found
    else found
  }

  /** Lines 68-78: a snapshot exactly when both prices are truthy; the clock supplies a missing timestamp. */
  function Decide(found: Found, now: string): (o: Outcome)
    ensures o.Written? <==> PriceTruthy(found.petrol) && PriceTruthy(found.diesel)
    ensures o.Written? ==> && Some(o.snapshot.petrol) == found.petrol
                           && Some(o.snapshot.diesel) == found.diesel
                           && o.snapshot.updatedAt == (if TextTruthy(found.updatedAt) then found.updatedAt.value else now)
  {
    if !PriceTruthy(found.petrol) || !PriceTruthy(found.diesel) then ExtractionFailed
    else Written(Snapshot(found.petrol.value, found.diesel.value, if TextTruthy(found.updatedAt) then found.updatedAt.value else now))
  }

  /**
   * The outcome of lines 53-85 of `run` for the decoded response `data`, with
   * `now` as `new Date().toISOString()` and the alias test `m`: a throwing
   * scan crashes; otherwise a snapshot exactly when both prices end truthy.
   */
  function Extract(host: Host, m: Matching, data: Value, now: string): (o: Outcome)
    ensures o.Crashed? <==> StructuralThrows(host, m, data)
    ensures o.Written? ==> NumberTruthy(o.snapshot.petrol) && NumberTruthy(o.snapshot.diesel)
    ensures !StructuralThrows(host, m, data) ==>
      (o.Written? <==> var r := Fallback(host, Structural(host, m, data), data); PriceTruthy(r.petrol) && PriceTruthy(r.diesel))
  {
    if StructuralThrows(host, m, data) then Crashed
    else Decide(Fallback(host, Structural(host, m, data), data), now)
  }

  /** Lines 53-85 of `run`, from the decoded response to the record, the failure or the caught exception. */
  method Run(host: Host, data: Value, now: string) returns (outcome: Outcome)
    ensures outcome == Extract(host, AsWritten, data, now)
  {
    var candidate := data;
    if data.Arr? && |data.items| > 0 {
      candidate := data.items[|data.items| - 1];
    }
    var scanned := FindNumbersInObject(host, candidate);
    if scanned.Throw? {
      return Crashed;
    }
    var petrol, diesel, updatedAt := scanned.value.petrol, scanned.value.diesel, scanned.value.updatedAt;
    if !PriceTruthy(petrol) || !PriceTruthy(diesel) {
      var s := host.stringify(data);
      var nums := host.matchTwoDecimals(s);
      if |nums| == 0 {
        nums := host.matchUpToTwoDecimals(s);
      }
      if |nums| >= 2 {
        petrol := if PriceTruthy(petrol) then petrol else Some(host.parseNumber(nums[0]));
        diesel := if PriceTruthy(diesel) then diesel else Some(host.parseNumber(nums[1]));
      }
    }
    if !PriceTruthy(petrol) || !PriceTruthy(diesel) {
      outcome := ExtractionFailed;
    } else {
      outcome := Written(Snapshot(petrol.value, diesel.value, if TextTruthy(updatedAt) then updatedAt.value else now));
    }
  }

  // ---------------------------------------------------------------------------
  // What `run` promises

  /** Of a non-empty array only the last element is scanned: earlier elements never matter. */
  lemma OnlyLastElementScanned(host: Host, m: Matching, earlier: seq<Value>, other: seq<Value>, last: Value)
    ensures Structural(host, m, Arr(earlier + [last])) == Structural(host, m, Arr(other + [last]))
    ensures Structural(host, m, Arr(earlier + [last])) == ScanValue(host, m, Unset, last)
    ensures StructuralThrows(host, m, Arr(earlier + [last])) <==> ScanThrows(host, m, Unset, last)
  {
    assert (earlier + [last])[|earlier|] == last;
    assert (other + [last])[|other|] == last;
  }

  /** An empty array is scanned as a whole and yields nothing; a non-array is scanned as a whole. */
  lemma WholeValueScannedOtherwise(host: Host, m: Matching, data: Value)
    requires !(data.Arr? && |data.items| > 0)
    ensures Structural(host, m, data) == ScanValue(host, m, Unset, data)
    ensures data == Arr([]) ==> Structural(host, m, data) == Unset && !StructuralThrows(host, m, data)
  {
  }

  /** A truthy price found by the scan is the price written: the fallback never overrides it. */
  lemma StructuralPriceWins(host: Host, m: Matching, data: Value, now: string)
    requires PriceTruthy(Structural(host, m, data).petrol)
    ensures var o := Extract(host, m, data, now);
      o.Written? ==> Some(o.snapshot.petrol) == Structural(host, m, data).petrol
  {
  }

  /** When the scan finds both prices without a throw, the text fallback is irrelevant and the snapshot is written. */
  lemma BothFoundStructurally(host: Host, m: Matching, data: Value, now: string)
    requires !StructuralThrows(host, m, data)
    requires PriceTruthy(Structural(host, m, data).petrol) && PriceTruthy(Structural(host, m, data).diesel)
    ensures var f := Structural(host, m, data);
      Extract(host, m, data, now)
        == Written(Snapshot(f.petrol.value, f.diesel.value, if TextTruthy(f.updatedAt) then f.updatedAt.value else now))
  {
  }

  /** The loose pattern is consulted only when the strict pattern finds nothing. */
  lemma LoosePatternOnlyAsLastResort(h1: Host, h2: Host, s: string)
    requires h1.matchTwoDecimals(s) == h2.matchTwoDecimals(s) && h1.matchTwoDecimals(s) != []
    ensures FallbackNumbers(h1, s) == FallbackNumbers(h2, s) == h1.matchTwoDecimals(s)
  {
  }

  /**
   * The history of two records: only the later one is read, and the clock
   * supplies the timestamp.
   */
  lemma LatestRecordOfHistory(host: Host, m: Matching, now: string)
    ensures Extract(host, m,
      Arr([Obj([("petrol", Num(Finite(90.0))), ("diesel", Num(Finite(80.0)))]),
           Obj([("petrol", Num(Finite(95.0))), ("diesel", Num(Finite(85.0)))])]), now)
      == Written(Snapshot(Finite(95.0), Finite(85.0), now))
  {
    var last := Obj([("petrol", Num(Finite(95.0))), ("diesel", Num(Finite(85.0)))]);
    OnlyLastElementScanned(host, m, [Obj([("petrol", Num(Finite(90.0))), ("diesel", Num(Finite(80.0)))])], [], last);
    RecordWithBothPrices(host, m, 95.0, 85.0);
  }

  /**
   * Petrol found by the scan and diesel missing: with fallback numbers
   * "91.23" and "88.10", diesel comes from the second one and petrol stays.
   */
  lemma DieselFromSecondFallbackNumber(host: Host, m: Matching, data: Value, now: string, p: JsNumber)
    requires !StructuralThrows(host, m, data)
    requires Structural(host, m, data) == Found(Some(p), None, None) && NumberTruthy(p)
    requires host.matchTwoDecimals(host.stringify(data)) == ["91.23", "88.10"]
    requires NumberTruthy(host.parseNumber("88.10"))
    ensures Extract(host, m, data, now) == Written(Snapshot(p, host.parseNumber("88.10"), now))
  {
  }

  /** `{"petrol": 90, "diesel": 80, "date": {"toString": 1}}`: `String` of the date value throws, so the run exits with status 3. */
  lemma OwnToStringCrashesRun(host: Host, m: Matching, now: string)
    ensures var data := Obj([("petrol", Num(Finite(90.0))), ("diesel", Num(Finite(80.0))),
                             ("date", Obj([("toString", Num(Finite(1.0)))]))]);
      Extract(host, m, data, now) == Crashed && ExitCode(Extract(host, m, data, now)) == 3
  {
    var date := Obj([("toString", Num(Finite(1.0)))]);
    var data := Obj([("petrol", Num(Finite(90.0))), ("diesel", Num(Finite(80.0))), ("date", date)]);
    var acc1 := Visit(host, m, Unset, "petrol", Num(Finite(90.0)));
    var acc2 := Visit(host, m, acc1, "diesel", Num(Finite(80.0)));
    assert acc1.updatedAt == None by {
      PetrolKeyFacts(m);
    }
    assert acc2.updatedAt == None by {
      DieselKeyFacts(m);
    }
    assert TestsDate(acc2.updatedAt, Lower("date")) by {
      DateKeyIsDateName();
    }
    assert ToJsString(host, date).Throw? by {
      assert date.fields[0].0 == "toString";
    }
    assert ThrowsFrom(host, m, acc2, data, 2) by {
      assert VisitThrows(host, m, acc2, KeyAt(data, 2), ChildAt(data, 2));
    }
    assert ThrowsFrom(host, m, acc1, data, 1);
    assert ThrowsFrom(host, m, Unset, data, 0);
  }

  // ---------------------------------------------------------------------------
  // Finding: the camel-case aliases, end to end

  /** `{"petrolPrice": 95, "diesel": 88}` with no fallback pair: as written, the run fails with status 2. */
  lemma CamelCaseRecordFailsAsWritten(host: Host, now: string)
    requires var data := Obj([("petrolPrice", Num(Finite(95.0))), ("diesel", Num(Finite(88.0)))]);
      |FallbackNumbers(host, host.stringify(data))| < 2
    ensures var data := Obj([("petrolPrice", Num(Finite(95.0))), ("diesel", Num(Finite(88.0)))]);
      Extract(host, AsWritten, data, now) == ExtractionFailed
  {
    CamelCaseRecord(host, AsWritten);
  }

  /** The same response with the corrected alias test: both prices are found and the snapshot is written. */
  lemma CamelCaseRecordWrittenWhenCorrected(host: Host, now: string)
    ensures var data := Obj([("petrolPrice", Num(Finite(95.0))), ("diesel", Num(Finite(88.0)))]);
      Extract(host, CaseInsensitive, data, now) == Written(Snapshot(Finite(95.0), Finite(88.0), now))
  {
    CamelCaseRecord(host, CaseInsensitive);
  }

  /** The scan of `{"petrolPrice": 95, "diesel": 88}` under either alias test. */
  lemma CamelCaseRecord(host: Host, m: Matching)
    ensures var data := Obj([("petrolPrice", Num(Finite(95.0))), ("diesel", Num(Finite(88.0)))]);
      && !StructuralThrows(host, m, data)
      && Structural(host, m, data)
         == Found(if m == AsWritten then None else Some(Finite(95.0)), Some(Finite(88.0)), None)
  {
    var data := Obj([("petrolPrice", Num(Finite(95.0))), ("diesel", Num(Finite(88.0)))]);
    var acc1 := Visit(host, m, Unset, "petrolPrice", Num(Finite(95.0)));
    assert acc1 == Found(if m == AsWritten then None else Some(Finite(95.0)), None, None) by {
      PetrolPriceKeyFacts(m);
    }
    var acc2 := Visit(host, m, acc1, "diesel", Num(Finite(88.0)));
    assert acc2 == Found(acc1.petrol, Some(Finite(88.0)), None) by {
      DieselKeyFacts(m);
    }
    assert ScanFrom(host, m, Unset, data, 0) == ScanFrom(host, m, acc1, data, 1);
    assert ScanFrom(host, m, acc1, data, 1) == ScanFrom(host, m, acc2, data, 2);
    assert !ThrowsFrom(host, m, acc1, data, 1);
    assert !ThrowsFrom(host, m, Unset, data, 0);
  }
}
